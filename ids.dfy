/** Identifier formats. The clock and `crypto.randomBytes` are inputs: a
    calendar date and the random bytes the call would have drawn. */
module Ids {
  import opened Js

  type Byte = x: int | 0 <= x < 256

  /** A calendar date as `Date` reports it: the full year, the month index
      0..11 of `getMonth()` and the day 1..31 of `getDate()`. */
  datatype Date = Date(year: int, monthIndex: int, day: int) {
    predicate Valid() { 0 <= monthIndex < 12 && 1 <= day <= 31 }
  }

  const HexDigits: string := "0123456789abcdef"

  predicate IsLowerHex(c: char) { '0' <= c <= '9' || 'a' <= c <= 'f' }
  predicate IsUpperHex(c: char) { '0' <= c <= '9' || 'A' <= c <= 'F' }

  function HexByte(b: Byte): (r: string)
    ensures |r| == 2 && IsLowerHex(r[0]) && IsLowerHex(r[1])
  {
    [HexDigits[b / 16], HexDigits[b % 16]]
  }

  /** `Buffer.toString('hex')`: two lower-case hex digits per byte. */
  function Hex(bs: seq<Byte>): (r: string)
    ensures |r| == 2 * |bs|
    ensures forall i :: 0 <= i < |r| ==> IsLowerHex(r[i])
  {
    if |bs| == 0 then "" else HexByte(bs[0]) + Hex(bs[1..])
  }

  function HexValue(c: char): (v: nat)
    requires IsLowerHex(c)
    ensures v < 16 && HexDigits[v] == c
  {
    if c <= '9' then c as int - '0' as int else c as int - 'a' as int + 10
  }

  /** Reading hex text back into bytes. */
  function Unhex(s: string): (bs: seq<Byte>)
    requires |s| % 2 == 0
    requires forall i :: 0 <= i < |s| ==> IsLowerHex(s[i])
    ensures |bs| == |s| / 2
  {
    if |s| == 0 then [] else [HexValue(s[0]) * 16 + HexValue(s[1])] + Unhex(s[2..])
  }

  /** The hex text determines the bytes: it can be read back. */
  lemma {:induction false} UnhexHex(bs: seq<Byte>)
    ensures Unhex(Hex(bs)) == bs
  {
    if |bs| > 0 {
      var h, t := HexByte(bs[0]), Hex(bs[1..]);
      assert Hex(bs) == h + t;
      HexByteValue(bs[0]);
      assert (h + t)[2..] == t;
      assert (h + t)[0] == h[0] && (h + t)[1] == h[1];
      UnhexHex(bs[1..]);
    }
  }

  lemma HexByteValue(b: Byte)
    ensures HexValue(HexByte(b)[0]) * 16 + HexValue(HexByte(b)[1]) == b
  {
    assert HexValue(HexDigits[b / 16]) == b / 16;
    assert HexValue(HexDigits[b % 16]) == b % 16;
  }

  /** `randHex(n)`: the first n hex digits of ceil(n/2) random bytes. */
  function RandHex(n: nat, bytes: seq<Byte>): (r: string)
    requires |bytes| == (n + 1) / 2
    ensures |r| == n
    ensures forall i :: 0 <= i < n ==> IsLowerHex(r[i])
    ensures StartsWith(Hex(bytes), r)
  {
    Hex(bytes)[..n]
  }

  /** `String(v).padStart(2, '0')`. */
  function Pad2(v: nat): string {
    var s := NatToString(v);
    if |s| < 2 then "0" + s else s
  }

  /** A number below 100 pads to exactly two digits that read back as it. */
  lemma Pad2Spec(v: nat)
    requires v < 100
    ensures |Pad2(v)| == 2 && AllDigits(Pad2(v)) && DigitsValue(Pad2(v)) == v
  {
    DigitsValueOfNatToString(v);
    var s := NatToString(v);
    if v < 10 {
      var r := "0" + s;
      assert r[..1] == "0";
      assert DigitsValue(r[..1]) == 0;
    } else {
      assert s == NatToString(v / 10) + [DigitChar(v % 10)];
    }
  }

  /** `orderId()`: RD, the year, the two-digit month and day, then ten
      upper-case hex digits. */
  function OrderId(d: Date, bytes: seq<Byte>): string
    requires d.Valid() && |bytes| == 5
  {
    "RD" + IntToString(d.year) + Pad2(d.monthIndex + 1) + Pad2(d.day)
      + ToUpper(RandHex(10, bytes))
  }

  /** `token()`: 18 random bytes as 36 lower-case hex digits. */
  function Token(bytes: seq<Byte>): (r: string)
    requires |bytes| == 18
    ensures |r| == 36 && forall i :: 0 <= i < 36 ==> IsLowerHex(r[i])
  {
    Hex(bytes)
  }

  /** `withdrawId(prefix)`: prefix, '-', yyyymmdd, '-', ten lower-case hex
      digits. */
  function WithdrawId(prefix: string, d: Date, bytes: seq<Byte>): string
    requires d.Valid() && |bytes| == 5
  {
    prefix + "-" + IntToString(d.year) + Pad2(d.monthIndex + 1) + Pad2(d.day)
      + "-" + RandHex(10, bytes)
  }

  /** The default prefix of `withdrawId`. */
  const DefaultWithdrawPrefix: string := "WD"

  /** For a four-digit year the order id is 20 characters: RD, the year, the
      month and day numbers, and ten upper-case hex digits. */
  lemma OrderIdFormat(d: Date, bytes: seq<Byte>)
    requires d.Valid() && |bytes| == 5 && 1000 <= d.year <= 9999
    ensures var r := OrderId(d, bytes);
      && |r| == 20 && r[..2] == "RD"
      && AllDigits(r[2..10])
      && DigitsValue(r[2..6]) == d.year
      && DigitsValue(r[6..8]) == d.monthIndex + 1
      && DigitsValue(r[8..10]) == d.day
      && (forall i :: 10 <= i < 20 ==> IsUpperHex(r[i]))
  {
    var r := OrderId(d, bytes);
    var y := IntToString(d.year);
    var m, dd := Pad2(d.monthIndex + 1), Pad2(d.day);
    var h := ToUpper(RandHex(10, bytes));
    assert r == "RD" + y + m + dd + h;
    YearDigits(d.year);
    Pad2Spec(d.monthIndex + 1);
    Pad2Spec(d.day);
    assert |h| == 10 && forall i :: 0 <= i < 10 ==> IsUpperHex(h[i]);
    OrderLayout(r, y, m, dd, h);
  }

  /** Where the pieces of an order id sit in it. */
  lemma OrderLayout(r: string, y: string, m: string, dd: string, h: string)
    requires r == "RD" + y + m + dd + h
    requires |y| == 4 && |m| == 2 && |dd| == 2 && |h| == 10
    requires AllDigits(y) && AllDigits(m) && AllDigits(dd)
    requires forall i :: 0 <= i < 10 ==> IsUpperHex(h[i])
    ensures |r| == 20 && r[..2] == "RD" && AllDigits(r[2..10])
    ensures r[2..6] == y && r[6..8] == m && r[8..10] == dd
    ensures forall i :: 10 <= i < 20 ==> IsUpperHex(r[i])
  {
    assert r[2..10] == y + m + dd;
    forall i | 10 <= i < 20 ensures IsUpperHex(r[i]) {
      assert r[i] == h[i - 10];
    }
  }

  /** A four-digit year prints as four digits that read back as it. */
  lemma YearDigits(year: int)
    requires 1000 <= year <= 9999
    ensures var y := IntToString(year);
      |y| == 4 && AllDigits(y) && DigitsValue(y) == year
  {
    DigitsValueOfNatToString(year);
    FourDigits(year);
  }

  lemma FourDigits(y: int)
    requires 1000 <= y <= 9999
    ensures |NatToString(y)| == 4
  {
    assert NatToString(y) == NatToString(y / 10) + [DigitChar(y % 10)];
    assert NatToString(y / 10) == NatToString(y / 100) + [DigitChar((y / 10) % 10)];
    assert NatToString(y / 100) == NatToString(y / 1000) + [DigitChar((y / 100) % 10)];
  }

  /** A withdrawal's `wd_id` (prefix WD) and its `ref_id` (prefix WDREF)
      never coincide, whatever the dates and random bytes. */
  lemma WithdrawIdsDiffer(d1: Date, b1: seq<Byte>, d2: Date, b2: seq<Byte>)
    requires d1.Valid() && |b1| == 5 && d2.Valid() && |b2| == 5
    ensures WithdrawId(DefaultWithdrawPrefix, d1, b1) != WithdrawId("WDREF", d2, b2)
  {
    assert WithdrawId(DefaultWithdrawPrefix, d1, b1)[2] == '-';
    assert WithdrawId("WDREF", d2, b2)[2] == 'R';
  }

  /** The withdrawal id has the prefix, a dash, eight digits of date, a dash
      and ten lower-case hex digits. */
  lemma WithdrawIdFormat(prefix: string, d: Date, bytes: seq<Byte>)
    requires d.Valid() && |bytes| == 5 && 1000 <= d.year <= 9999
    ensures var r, p := WithdrawId(prefix, d, bytes), |prefix|;
      && |r| == p + 20 && r[..p] == prefix && r[p] == '-' && r[p + 9] == '-'
      && AllDigits(r[p + 1..p + 9])
      && DigitsValue(r[p + 1..p + 5]) == d.year
      && DigitsValue(r[p + 5..p + 7]) == d.monthIndex + 1
      && DigitsValue(r[p + 7..p + 9]) == d.day
      && (forall i :: p + 10 <= i < p + 20 ==> IsLowerHex(r[i]))
  {
    var r := WithdrawId(prefix, d, bytes);
    var y := IntToString(d.year);
    var m, dd := Pad2(d.monthIndex + 1), Pad2(d.day);
    var h := RandHex(10, bytes);
    assert r == prefix + "-" + y + m + dd + "-" + h;
    YearDigits(d.year);
    Pad2Spec(d.monthIndex + 1);
    Pad2Spec(d.day);
    WithdrawLayout(r, prefix, y, m, dd, h);
  }

  /** Where the pieces of a withdrawal id sit in it. */
  lemma WithdrawLayout(r: string, prefix: string, y: string, m: string, dd: string, h: string)
    requires r == prefix + "-" + y + m + dd + "-" + h
    requires |y| == 4 && |m| == 2 && |dd| == 2 && |h| == 10
    requires AllDigits(y) && AllDigits(m) && AllDigits(dd)
    requires forall i :: 0 <= i < 10 ==> IsLowerHex(h[i])
    ensures var p := |prefix|;
      && |r| == p + 20 && r[..p] == prefix && r[p] == '-' && r[p + 9] == '-'
      && AllDigits(r[p + 1..p + 9]) && r[p + 1..p + 5] == y && r[p + 5..p + 7] == m && r[p + 7..p + 9] == dd
      && (forall i :: p + 10 <= i < p + 20 ==> IsLowerHex(r[i]))
  {
    var p := |prefix|;
    assert r[p + 1..p + 9] == y + m + dd;
    forall i | p + 10 <= i < p + 20 ensures IsLowerHex(r[i]) {
      assert r[i] == h[i - p - 10];
    }
  }
}
