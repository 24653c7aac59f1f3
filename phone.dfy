/** Indonesian WhatsApp numbers: the digits of the input rewritten to start
    with the country code 62 of ITU-T E.164 (`wa_e164`), and the national
    form with a leading 0 (`wa_raw`). */
module Phone {
  import opened Wrappers
  import opened Js

  /** `onlyDigits`: the decimal digits of the input, in order (a missing
      input is the empty string). */
  function OnlyDigits(s: string): (r: string)
    ensures AllDigits(r)
    ensures |r| <= |s|
  {
    if |s| == 0 then ""
    else (if IsDigit(s[0]) then [s[0]] else "") + OnlyDigits(s[1..])
  }

  lemma {:induction false} OnlyDigitsAppend(a: string, b: string)
    ensures OnlyDigits(a + b) == OnlyDigits(a) + OnlyDigits(b)
    decreases |a|
  {
    if |a| > 0 {
      assert (a + b)[1..] == a[1..] + b;
      OnlyDigitsAppend(a[1..], b);
    } else {
      assert a + b == b;
    }
  }

  /** Each digit occurs in the output as often as in the input, and nothing
      else occurs in it. */
  lemma {:induction false} OnlyDigitsCounts(s: string, c: char)
    ensures multiset(OnlyDigits(s))[c] == if IsDigit(c) then multiset(s)[c] else 0
    decreases |s|
  {
    if |s| > 0 {
      OnlyDigitsCounts(s[1..], c);
      assert s == [s[0]] + s[1..];
    }
  }

  /** A string of digits is kept as it is. */
  lemma {:induction false} OnlyDigitsOfDigits(s: string)
    requires AllDigits(s)
    ensures OnlyDigits(s) == s
    decreases |s|
  {
    if |s| > 0 {
      OnlyDigitsOfDigits(s[1..]);
      assert s == [s[0]] + s[1..];
    }
  }

  /** `d.replace(/^0+/, '')`. */
  function StripLeadingZeros(d: string): (r: string)
    ensures r == [] || r[0] != '0'
    ensures |r| <= |d| && r == d[|d| - |r|..]
  {
    if |d| > 0 && d[0] == '0' then StripLeadingZeros(d[1..]) else d
  }

  /** The pair `{ wa_e164, wa_raw }`; None is `null`. */
  datatype WaNumber = WaNumber(e164: Option<string>, raw: Option<string>)

  /** `normalizeWhatsapp`: the digits of the input, rewritten. */
  function Normalize(input: string): WaNumber {
    var d0 := OnlyDigits(input);
    if d0 == "" then WaNumber(None, None) else Rewrite(d0)
  }

  /** The four rewriting steps of a non-empty digit string, as the code
      does them. */
  function Rewrite(d0: string): WaNumber {
    var d1 := if StartsWith(d0, "0") then "62" + d0[1..] else d0;
    var d2 := if StartsWith(d1, "8") then "62" + d1 else d1;
    var d3 := if !StartsWith(d2, "62") then "62" + StripLeadingZeros(d2) else d2;
    var raw := if StartsWith(d3, "62") then "0" + d3[2..] else d3;
    WaNumber(Some(d3), Some(raw))
  }

  /** The E.164 form the rewriting yields, stated case by case on the digits
      of the input: a leading 0 becomes 62, a leading 8 gets 62 in front, 62
      is kept, and anything else gets 62 in front. */
  function ExpectedE164(d: string): string
    requires d != ""
  {
    if d[0] == '0' then "62" + d[1..]
    else if StartsWith(d, "62") then d
    else "62" + d
  }

  /** What the rewriting yields from a digit string: wa_e164 is that case
      split, and wa_raw is 0 followed by wa_e164 without its 62. */
  lemma RewriteSpec(d: string)
    requires d != "" && AllDigits(d)
    ensures var n := Rewrite(d);
      && n.e164 == Some(ExpectedE164(d))
      && StartsWith(n.e164.value, "62")
      && n.raw == Some("0" + n.e164.value[2..])
  {
    if d[0] == '0' {
      RewriteLeadingZero(d);
    } else if !StartsWith(d, "62") {
      RewriteOther(d);
    }
  }

  lemma RewriteLeadingZero(d: string)
    requires d != "" && d[0] == '0'
    ensures Rewrite(d).e164 == Some("62" + d[1..])
  {
    assert StartsWith(d, "0");
    var d1 := "62" + d[1..];
    assert d1[0] == '6' && d1[..2] == "62";
    assert !StartsWith(d1, "8") && StartsWith(d1, "62");
  }

  lemma RewriteOther(d: string)
    requires d != "" && d[0] != '0' && !StartsWith(d, "62")
    ensures Rewrite(d).e164 == Some("62" + d)
  {
    assert !StartsWith(d, "0");
    if !StartsWith(d, "8") {
      assert StripLeadingZeros(d) == d;
    }
    assert StartsWith("62" + d, "62");
  }

  /** What a normalised number looks like: no digits gives two nulls;
      otherwise wa_e164 is the case split above (all digits, starting with
      62) and wa_raw is 0 followed by wa_e164 without its 62. */
  lemma NormalizeSpec(input: string)
    ensures var d, n := OnlyDigits(input), Normalize(input);
      && (d == "" <==> n.e164 == None)
      && (d == "" ==> n.raw == None)
      && (d != "" ==> && n.e164 == Some(ExpectedE164(d))
                      && AllDigits(n.e164.value)
                      && StartsWith(n.e164.value, "62")
                      && n.raw == Some("0" + n.e164.value[2..]))
  {
    var d := OnlyDigits(input);
    if d != "" {
      RewriteSpec(d);
      var e := ExpectedE164(d);
      assert AllDigits(e) by {
        if d[0] == '0' {
          assert forall i :: 2 <= i < |e| ==> e[i] == d[i - 1];
        } else if !StartsWith(d, "62") {
          assert forall i :: 2 <= i < |e| ==> e[i] == d[i - 2];
        }
      }
    }
  }

  /** Normalising wa_e164 again gives the same wa_e164. */
  lemma NormalizeIdempotent(input: string)
    requires Normalize(input).e164.Some?
    ensures Normalize(Normalize(input).e164.value).e164 == Normalize(input).e164
  {
    var e := Normalize(input).e164.value;
    assert AllDigits(e) && StartsWith(e, "62") by { NormalizeSpec(input); }
    E164Fixed(e);
  }

  /** A digit string that starts with 62 is its own wa_e164. */
  lemma E164Fixed(e: string)
    requires AllDigits(e) && StartsWith(e, "62")
    ensures Normalize(e).e164 == Some(e)
  {
    OnlyDigitsOfDigits(e);
    RewriteSpec(e);
  }

  /** Normalising wa_raw gives back the original wa_e164. */
  lemma NormalizeRawRoundTrip(input: string)
    requires Normalize(input).e164.Some?
    ensures Normalize(Normalize(input).raw.value).e164 == Normalize(input).e164
  {
    var e := Normalize(input).e164.value;
    assert AllDigits(e) && StartsWith(e, "62") && Normalize(input).raw == Some("0" + e[2..]) by {
      NormalizeSpec(input);
    }
    RawFixed(e);
  }

  /** The national form of a digit string that starts with 62 normalises
      back to it. */
  lemma RawFixed(e: string)
    requires AllDigits(e) && StartsWith(e, "62")
    ensures Normalize("0" + e[2..]).e164 == Some(e)
  {
    var raw := "0" + e[2..];
    assert AllDigits(raw) by {
      forall i | 0 <= i < |raw| ensures IsDigit(raw[i]) {
        if i > 0 { assert raw[i] == e[i + 1]; }
      }
    }
    OnlyDigitsOfDigits(raw);
    RewriteSpec(raw);
    assert e == "62" + e[2..];
  }
}
