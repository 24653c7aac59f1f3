/** The browser-side helpers of the single-page UI: HTML escaping, the
    status pill, the tier drop-down of the order form, the invoice reload on
    a push, and the live-log line. The DOM, jQuery and the page navigation
    are not part of this model. */
module Ui {
  import opened Wrappers
  import opened Js
  import Templates
  import Bus

  // ---------------------------------------------------------------------
  // escapeHtml
  // ---------------------------------------------------------------------

  /** The character reference that replaces one character. */
  function EscapeChar(c: char): string {
    if c == '&' then "&amp;"
    else if c == '<' then "&lt;"
    else if c == '>' then "&gt;"
    else if c == '"' then "&quot;"
    else if c == '\'' then "&#39;"
    else [c]
  }

  function EscapeText(s: string): string {
    if |s| == 0 then "" else EscapeChar(s[0]) + EscapeText(s[1..])
  }

  /** `escapeHtml(str)`: `String(str || '')` with the five characters
      replaced. */
  function EscapeHtml(v: Option<JsonValue>): string {
    EscapeText(TextOr(v))
  }

  predicate IsSpecial(c: char) {
    c == '&' || c == '<' || c == '>' || c == '"' || c == '\''
  }

  /** The decoding of the five references, the inverse of the escaping. */
  function Unescape(t: string): string
    decreases |t|
  {
    if |t| == 0 then ""
    else if StartsWith(t, "&amp;") then "&" + Unescape(t[5..])
    else if StartsWith(t, "&lt;") then "<" + Unescape(t[4..])
    else if StartsWith(t, "&gt;") then ">" + Unescape(t[4..])
    else if StartsWith(t, "&quot;") then "\"" + Unescape(t[6..])
    else if StartsWith(t, "&#39;") then "'" + Unescape(t[5..])
    else [t[0]] + Unescape(t[1..])
  }

  lemma UnescapeChar(c: char, rest: string)
    ensures Unescape(EscapeChar(c) + rest) == [c] + Unescape(rest)
  {
    if c == '&' { UnescapeAmp(rest); }
    else if c == '<' { UnescapeLt(rest); }
    else if c == '>' { UnescapeGt(rest); }
    else if c == '"' { UnescapeQuot(rest); }
    else if c == '\'' { UnescapeApos(rest); }
    else {
      var t := [c] + rest;
      assert t[0] == c && t[1..] == rest;
      PlainChar(t);
    }
  }

  /** Text that does not start with `&` decodes its first character as
      itself. */
  lemma PlainChar(t: string)
    requires |t| > 0 && t[0] != '&'
    ensures Unescape(t) == [t[0]] + Unescape(t[1..])
  {
    NotPrefixAt(t, "&amp;", 0);
    NotPrefixAt(t, "&lt;", 0);
    NotPrefixAt(t, "&gt;", 0);
    NotPrefixAt(t, "&quot;", 0);
    NotPrefixAt(t, "&#39;", 0);
  }

  /** A text that differs from `p` at position `k` does not start with it. */
  lemma NotPrefixAt(t: string, p: string, k: nat)
    requires k < |p| && k < |t| && t[k] != p[k]
    ensures !StartsWith(t, p)
  {
    assert |t| < |p| || t[..|p|][k] != p[k];
  }

  lemma UnescapeAmp(rest: string)
    ensures Unescape("&amp;" + rest) == "&" + Unescape(rest)
  {
    var t := "&amp;" + rest;
    assert StartsWith(t, "&amp;") && t[5..] == rest by { assert t[..5] == "&amp;"; }
  }

  lemma UnescapeLt(rest: string)
    ensures Unescape("&lt;" + rest) == "<" + Unescape(rest)
  {
    var t := "&lt;" + rest;
    assert StartsWith(t, "&lt;") && t[4..] == rest by { assert t[..4] == "&lt;"; }
    NotPrefixAt(t, "&amp;", 1);
  }

  lemma UnescapeGt(rest: string)
    ensures Unescape("&gt;" + rest) == ">" + Unescape(rest)
  {
    var t := "&gt;" + rest;
    assert StartsWith(t, "&gt;") && t[4..] == rest by { assert t[..4] == "&gt;"; }
    NotPrefixAt(t, "&amp;", 1);
    NotPrefixAt(t, "&lt;", 1);
  }

  lemma UnescapeQuot(rest: string)
    ensures Unescape("&quot;" + rest) == "\"" + Unescape(rest)
  {
    var t := "&quot;" + rest;
    assert StartsWith(t, "&quot;") && t[6..] == rest by { assert t[..6] == "&quot;"; }
    NotPrefixAt(t, "&amp;", 1);
    NotPrefixAt(t, "&lt;", 1);
    NotPrefixAt(t, "&gt;", 1);
  }

  lemma UnescapeApos(rest: string)
    ensures Unescape("&#39;" + rest) == "'" + Unescape(rest)
  {
    var t := "&#39;" + rest;
    assert StartsWith(t, "&#39;") && t[5..] == rest by { assert t[..5] == "&#39;"; }
    NotPrefixAt(t, "&amp;", 1);
    NotPrefixAt(t, "&lt;", 1);
    NotPrefixAt(t, "&gt;", 1);
    NotPrefixAt(t, "&quot;", 1);
  }

  /** Escaping loses nothing: decoding the references gives the text back,
      so each character maps to its own reference or to itself. */
  lemma {:induction false} UnescapeEscape(s: string)
    ensures Unescape(EscapeText(s)) == s
    decreases |s|
  {
    if |s| > 0 {
      UnescapeEscape(s[1..]);
      UnescapeChar(s[0], EscapeText(s[1..]));
      assert s == [s[0]] + s[1..];
    }
  }

  /** The escaped text holds none of `<`, `>`, `"` and `'`; any `&` in it
      starts a reference. */
  lemma {:induction false} EscapeSafe(s: string)
    ensures forall i :: 0 <= i < |EscapeText(s)| ==> EscapeText(s)[i] !in "<>\"'"
    decreases |s|
  {
    if |s| > 0 {
      EscapeSafe(s[1..]);
      var head := EscapeChar(s[0]);
      assert forall i :: 0 <= i < |head| ==> head[i] !in "<>\"'";
      var r := EscapeText(s);
      assert r == head + EscapeText(s[1..]);
      forall i | 0 <= i < |r|
        ensures r[i] !in "<>\"'"
      {
        if i < |head| { assert r[i] == head[i]; } else { assert r[i] == EscapeText(s[1..])[i - |head|]; }
      }
    }
  }

  /** Text without the five characters is left as it is, and text with one
      of them is changed. */
  lemma {:induction false} EscapeIdentity(s: string)
    ensures EscapeText(s) == s <==> forall i :: 0 <= i < |s| ==> !IsSpecial(s[i])
    decreases |s|
  {
    if |s| > 0 {
      EscapeIdentity(s[1..]);
      EscapeGrows(s[1..]);
      if IsSpecial(s[0]) {
        assert |EscapeText(s)| > |s|;
      } else {
        assert s == [s[0]] + s[1..];
        assert forall i :: 1 <= i < |s| ==> s[i] == s[1..][i - 1];
        if EscapeText(s) == s {
          assert EscapeText(s[1..]) == s[1..];
        }
      }
    }
  }

  lemma {:induction false} EscapeGrows(s: string)
    ensures |EscapeText(s)| >= |s|
    decreases |s|
  {
    if |s| > 0 { EscapeGrows(s[1..]); }
  }

  /** A falsy or missing value escapes to ''. */
  lemma EscapeFalsy(v: Option<JsonValue>)
    requires v.None? || !Truthy(v.value)
    ensures EscapeHtml(v) == ""
  {
  }

  // ---------------------------------------------------------------------
  // pill
  // ---------------------------------------------------------------------

  datatype Tone = PillOk | PillWarn | PillBad

  const OkWords: seq<string> := ["paid", "done", "success", "open"]
  const WarnWords: seq<string> := ["pending", "waiting", "processing", "connecting"]

  function ToneOfText(s: string): Tone {
    if s in OkWords then PillOk else if s in WarnWords then PillWarn else PillBad
  }

  /** The tone of `String(v || '').toLowerCase()`. */
  function ToneOf(v: Option<JsonValue>): Tone {
    ToneOfText(ToLower(TextOr(v)))
  }

  function ToneClass(t: Tone): string {
    match t
    case PillOk => "ok"
    case PillWarn => "warn"
    case PillBad => "bad"
  }

  /** `pill(v)`: a span of the tone's class around the escaped value, as
      given (not lower-cased). */
  function Pill(v: Option<JsonValue>): string {
    "<span class=\"pill " + ToneClass(ToneOf(v)) + "\">" + EscapeHtml(v) + "</span>"
  }

  /** paid, done, success and open, the finished states the program
      writes, are shown as good. */
  lemma GoodTones()
    ensures ToneOf(Some(JStr("paid"))) == PillOk && ToneOf(Some(JStr("done"))) == PillOk
    ensures ToneOf(Some(JStr("success"))) == PillOk && ToneOf(Some(JStr("open"))) == PillOk
  {
    assert ToLower("paid") == "paid" by { ToLowerOfLowerWord("paid"); }
    assert ToLower("done") == "done" by { ToLowerOfLowerWord("done"); }
    assert ToLower("success") == "success" by { ToLowerOfLowerWord("success"); }
    assert ToLower("open") == "open" by { ToLowerOfLowerWord("open"); }
  }

  /** pending, waiting, processing and connecting are shown as in
      progress. */
  lemma WarnTones()
    ensures ToneOf(Some(JStr("pending"))) == PillWarn && ToneOf(Some(JStr("waiting"))) == PillWarn
    ensures ToneOf(Some(JStr("processing"))) == PillWarn && ToneOf(Some(JStr("connecting"))) == PillWarn
  {
    assert ToLower("pending") == "pending" by { ToLowerOfLowerWord("pending"); }
    assert ToLower("waiting") == "waiting" by { ToLowerOfLowerWord("waiting"); }
    assert ToLower("processing") == "processing" by { ToLowerOfLowerWord("processing"); }
    assert ToLower("connecting") == "connecting" by { ToLowerOfLowerWord("connecting"); }
  }

  /** The other statuses the program writes, and no value, are shown as
      bad. */
  lemma BadTones()
    ensures ToneOf(Some(JStr("failed"))) == PillBad && ToneOf(Some(JStr("rejected"))) == PillBad
    ensures ToneOf(Some(JStr("expired"))) == PillBad && ToneOf(Some(JStr("canceled"))) == PillBad
    ensures ToneOf(Some(JStr("close"))) == PillBad && ToneOf(None) == PillBad
  {
    assert ToLower("failed") == "failed" by { ToLowerOfLowerWord("failed"); }
    assert ToLower("rejected") == "rejected" by { ToLowerOfLowerWord("rejected"); }
    assert ToLower("expired") == "expired" by { ToLowerOfLowerWord("expired"); }
    assert ToLower("canceled") == "canceled" by { ToLowerOfLowerWord("canceled"); }
    assert ToLower("close") == "close" by { ToLowerOfLowerWord("close"); }
    assert ToLower("") == "";
  }

  /** For every value: ok exactly for the ok words, warn exactly for the
      in-progress words, and bad for everything else, the empty text
      included, after `String(v || '').toLowerCase()`. */
  lemma ToneCases(v: Option<JsonValue>)
    ensures var s := ToLower(TextOr(v));
      && (ToneOf(v) == PillOk <==> s in OkWords)
      && (ToneOf(v) == PillWarn <==> s in WarnWords)
      && (ToneOf(v) == PillBad <==> s !in OkWords && s !in WarnWords)
  {
  }

  /** The tone ignores ASCII letter case. */
  lemma ToneIgnoresCase(s: string)
    ensures ToneOf(Some(JStr(ToUpper(s)))) == ToneOf(Some(JStr(s)))
  {
    assert ToLower(ToUpper(s)) == ToLower(s);
  }

  /** The pill wraps exactly the escaped value in a span of its tone. */
  lemma PillShape(v: Option<JsonValue>)
    ensures var p := Pill(v);
      && StartsWith(p, "<span class=\"pill ")
      && p[|p| - 7..] == "</span>"
      && Includes(p, EscapeHtml(v))
  {
    var p := Pill(v);
    var pre := "<span class=\"pill " + ToneClass(ToneOf(v)) + "\">";
    assert p == pre + EscapeHtml(v) + "</span>";
    assert p[..18] == "<span class=\"pill ";
    IncludesInfix(pre, EscapeHtml(v), "</span>");
  }

  // ---------------------------------------------------------------------
  // The tier drop-down
  // ---------------------------------------------------------------------

  /** An entry of `window.__TIERS`. */
  datatype Tier = Tier(id: nat, productId: int, labelText: string, price: int, active: int, sortOrder: Option<int>)

  /** `String(t.product_id) === String(pid) && Number(t.active) === 1`. */
  predicate Listed(t: Tier, pid: string) {
    IntToString(t.productId) == pid && t.active == 1
  }

  /** `a.sort_order || 0`. */
  function Key(t: Tier): int {
    if t.sortOrder.Some? then t.sortOrder.value else 0
  }

  /** `all.filter(t => ...)`: only listed tiers (`MatchingCounts` gives
      how many, `MatchingAppend` their order). */
  function Matching(all: seq<Tier>, pid: string): (r: seq<Tier>)
    ensures forall i :: 0 <= i < |r| ==> Listed(r[i], pid)
    ensures |r| <= |all|
  {
    if |all| == 0 then []
    else
      var rest := Matching(all[..|all| - 1], pid);
      assert all == all[..|all| - 1] + [all[|all| - 1]];
      rest + (if Listed(all[|all| - 1], pid) then [all[|all| - 1]] else [])
  }

  /** Filtering a concatenation filters each part and keeps them in
      order; with `MatchingOne` this fixes the result to the listed tiers
      in their original order. */
  lemma {:induction false} MatchingAppend(a: seq<Tier>, b: seq<Tier>, pid: string)
    ensures Matching(a + b, pid) == Matching(a, pid) + Matching(b, pid)
    decreases |b|
  {
    if |b| == 0 {
      assert a + b == a;
      assert Matching(a, pid) + Matching(b, pid) == Matching(a, pid);
    } else {
      var n := |b| - 1;
      var init, t := b[..n], b[n];
      var last := if Listed(t, pid) then [t] else [];
      var l, m := Matching(a, pid), Matching(init, pid);
      assert Matching(a + init, pid) == l + m by { MatchingAppend(a, init, pid); }
      SplitLast(a, b);
      assert Matching(a + b, pid) == Matching(a + init, pid) + last by { MatchingSnoc(a + init, t, pid); }
      assert Matching(b, pid) == m + last by { MatchingSnoc(init, t, pid); }
      Assoc(l, m, last);
    }
  }

  lemma SplitLast<T>(a: seq<T>, b: seq<T>)
    requires |b| > 0
    ensures b == b[..|b| - 1] + [b[|b| - 1]]
    ensures a + b == (a + b[..|b| - 1]) + [b[|b| - 1]]
  {
  }

  /** A single tier is kept exactly when it is listed. */
  lemma MatchingOne(t: Tier, pid: string)
    ensures Matching([t], pid) == (if Listed(t, pid) then [t] else [])
  {
    MatchingSnoc([], t, pid);
    assert [] + [t] == [t];
  }

  /** Every listed tier is kept as often as it occurs in `all`, and no
      other tier is kept. */
  lemma {:induction false} MatchingCounts(all: seq<Tier>, pid: string)
    ensures forall t :: multiset(Matching(all, pid))[t] == if Listed(t, pid) then multiset(all)[t] else 0
    decreases |all|
  {
    if |all| > 0 {
      var n := |all| - 1;
      MatchingCounts(all[..n], pid);
      assert all == all[..n] + [all[n]];
      MatchingSnoc(all[..n], all[n], pid);
    }
  }

  /** One more tier is kept at the end exactly when it is listed. */
  lemma MatchingSnoc(s: seq<Tier>, t: Tier, pid: string)
    ensures Matching(s + [t], pid) == Matching(s, pid) + (if Listed(t, pid) then [t] else [])
  {
    assert (s + [t])[..|s|] == s;
  }

  lemma Assoc<T>(x: seq<T>, y: seq<T>, z: seq<T>)
    ensures x + y + z == x + (y + z)
  {
  }


  predicate Sorted(s: seq<Tier>) {
    forall i, j :: 0 <= i < j < |s| ==> Key(s[i]) <= Key(s[j])
  }

  /** Insertion after every entry whose key is not larger. */
  function Insert(t: Tier, s: seq<Tier>): seq<Tier>
    decreases |s|
  {
    if |s| == 0 then [t]
    else if Key(s[|s| - 1]) <= Key(t) then s + [t]
    else Insert(t, s[..|s| - 1]) + [s[|s| - 1]]
  }

  /** `.sort((a, b) => (a.sort_order || 0) - (b.sort_order || 0))`; the
      sort is stable. */
  function SortTiers(xs: seq<Tier>): seq<Tier>
    decreases |xs|
  {
    if |xs| == 0 then [] else Insert(xs[|xs| - 1], SortTiers(xs[..|xs| - 1]))
  }

  /** The options listed for a product, in their order. */
  function TierOptions(all: seq<Tier>, pid: string): seq<Tier> {
    SortTiers(Matching(all, pid))
  }

  /** The entries with key `k`, in their order. */
  function OfKey(k: int, s: seq<Tier>): seq<Tier> {
    if |s| == 0 then [] else OfKey(k, s[..|s| - 1]) + (if Key(s[|s| - 1]) == k then [s[|s| - 1]] else [])
  }

  lemma {:induction false} InsertSorted(t: Tier, s: seq<Tier>)
    requires Sorted(s)
    ensures Sorted(Insert(t, s))
    decreases |s|
  {
    if |s| > 0 && Key(s[|s| - 1]) > Key(t) {
      var init, last := s[..|s| - 1], s[|s| - 1];
      InsertSorted(t, init);
      InsertBound(t, init, Key(last));
      var front := Insert(t, init);
      var r := front + [last];
      forall i, j | 0 <= i < j < |r| ensures Key(r[i]) <= Key(r[j]) {
        if j == |r| - 1 { assert r[i] == front[i]; } else { assert r[i] == front[i] && r[j] == front[j]; }
      }
    }
  }

  lemma {:induction false} InsertPermutes(t: Tier, s: seq<Tier>)
    ensures multiset(Insert(t, s)) == multiset(s) + multiset{t}
    decreases |s|
  {
    if |s| > 0 && Key(s[|s| - 1]) > Key(t) {
      InsertPermutes(t, s[..|s| - 1]);
      assert s == s[..|s| - 1] + [s[|s| - 1]];
    }
  }

  lemma {:induction false} InsertOfKey(k: int, t: Tier, s: seq<Tier>)
    ensures OfKey(k, Insert(t, s)) == OfKey(k, s) + (if Key(t) == k then [t] else [])
    decreases |s|
  {
    if |s| > 0 && Key(s[|s| - 1]) > Key(t) {
      var init, last := s[..|s| - 1], s[|s| - 1];
      InsertOfKey(k, t, init);
      OfKeySnoc(k, Insert(t, init), last);
      assert s == init + [last];
      OfKeySnoc(k, init, last);
    } else if |s| > 0 {
      OfKeySnoc(k, s, t);
    }
  }

  /** Appending an entry appends it to the entries of its key. */
  lemma OfKeySnoc(k: int, a: seq<Tier>, x: Tier)
    ensures OfKey(k, a + [x]) == OfKey(k, a) + (if Key(x) == k then [x] else [])
  {
    var r := a + [x];
    assert r[..|r| - 1] == a;
  }

  /** Everything in an insertion into entries no larger than `b`, with the
      inserted key smaller than `b`, stays no larger than `b`. */
  lemma {:induction false} InsertBound(t: Tier, s: seq<Tier>, b: int)
    requires Key(t) < b && forall i :: 0 <= i < |s| ==> Key(s[i]) <= b
    ensures forall i :: 0 <= i < |Insert(t, s)| ==> Key(Insert(t, s)[i]) <= b
    decreases |s|
  {
    if |s| > 0 && Key(s[|s| - 1]) > Key(t) {
      InsertBound(t, s[..|s| - 1], b);
    }
  }

  /** The sort is ordered by key and a permutation. */
  lemma {:induction false} SortSpec(xs: seq<Tier>)
    ensures Sorted(SortTiers(xs))
    ensures multiset(SortTiers(xs)) == multiset(xs)
    decreases |xs|
  {
    if |xs| > 0 {
      var init := xs[..|xs| - 1];
      SortSpec(init);
      InsertSorted(xs[|xs| - 1], SortTiers(init));
      InsertPermutes(xs[|xs| - 1], SortTiers(init));
      assert xs == init + [xs[|xs| - 1]];
    }
  }

  /** The sort is stable: the entries of each key keep their order. */
  lemma {:induction false} SortStable(k: int, xs: seq<Tier>)
    ensures OfKey(k, SortTiers(xs)) == OfKey(k, xs)
    decreases |xs|
  {
    if |xs| > 0 {
      var init := xs[..|xs| - 1];
      SortStable(k, init);
      InsertOfKey(k, xs[|xs| - 1], SortTiers(init));
    }
  }

  /** The drop-down lists exactly the active tiers of the selected product,
      each as often as it occurs, ordered by `sort_order` with a missing one
      as 0, ties in their original order. */
  lemma TierOptionsRule(all: seq<Tier>, pid: string)
    ensures var r := TierOptions(all, pid);
      && (forall i :: 0 <= i < |r| ==> Listed(r[i], pid))
      && (forall t :: multiset(r)[t] == if Listed(t, pid) then multiset(all)[t] else 0)
      && Sorted(r)
      && forall k :: OfKey(k, r) == OfKey(k, Matching(all, pid))
  {
    var m := Matching(all, pid);
    SortSpec(m);
    MatchingCounts(all, pid);
    forall k ensures OfKey(k, TierOptions(all, pid)) == OfKey(k, m) {
      SortStable(k, m);
    }
    var r := TierOptions(all, pid);
    forall i | 0 <= i < |r| ensures Listed(r[i], pid) {
      assert r[i] in multiset(m);
    }
  }

  // ---------------------------------------------------------------------
  // Realtime push handling
  // ---------------------------------------------------------------------

  /** The reload an `invoice` push causes on a page whose `token` query
      parameter is `pageToken` (None: absent): the invoice partial of that
      token, or nothing. */
  function ReloadTarget(msg: JsonValue, pageToken: Option<string>): Option<string> {
    if FieldIsString(msg, "type", "invoice") && pageToken.Some? && pageToken.value != ""
       && Get(msg, "token") == Some(JStr(pageToken.value))
    then Some("/p/invoice?token=" + Templates.EncodeUriComponent(pageToken.value))
    else None
  }

  /** The server's push for an order change reloads a page exactly when the
      page shows that order's invoice, and the reload names it by its
      encoded token. */
  lemma ReloadRule(changed: string, pageToken: Option<string>)
    ensures var msg := JObject([("type", JStr("invoice")), ("token", JStr(changed))]);
      && (ReloadTarget(msg, pageToken).Some? <==> pageToken == Some(changed) && changed != "")
      && (ReloadTarget(msg, pageToken).Some? ==>
            ReloadTarget(msg, pageToken).value == "/p/invoice?token=" + Templates.EncodeUriComponent(changed))
  {
    Get2("type", JStr("invoice"), "token", JStr(changed), "type");
    Get2("type", JStr("invoice"), "token", JStr(changed), "token");
  }

  /** Pushes of another type never reload. */
  lemma ReloadNeedsInvoice(msg: JsonValue, pageToken: Option<string>)
    requires !FieldIsString(msg, "type", "invoice")
    ensures ReloadTarget(msg, pageToken).None?
  {
  }

  /** `${v}` of a property read: a missing one prints "undefined". */
  function Interpolate(v: Option<JsonValue>): string {
    if v.None? then "undefined" else JsString(v.value)
  }

  /** `String(line.level || 'info')`. */
  function LevelText(v: Option<JsonValue>): string {
    if v.Some? && Truthy(v.value) then JsString(v.value) else "info"
  }

  /** `appendLogLine(line)`: `metaText` is `JSON.stringify(line.meta)`. */
  function FormatLogLine(line: JsonValue, metaText: string): string {
    var meta := Get(line, "meta");
    "[" + Interpolate(Get(line, "ts")) + "] " + ToUpper(LevelText(Get(line, "level"))) + " - "
      + Interpolate(Get(line, "msg")) + " " + (if meta.Some? && Truthy(meta.value) then metaText else "") + "\n"
  }

  /** A line the server's logger published renders as
      `[ts] LEVEL - msg meta`, the level upper-cased (info when empty) and
      the meta text only when the logger kept a meta value. */
  lemma LogLineRendering(ts: string, level: string, msg: string, meta: Option<JsonValue>, metaText: string)
    ensures FormatLogLine(Bus.LogLine(ts, level, msg, meta), metaText)
      == "[" + ts + "] " + ToUpper(if level == "" then "info" else level) + " - " + msg + " "
         + (if meta.Some? && Truthy(meta.value) then metaText else "") + "\n"
  {
    var m := if meta.Some? && Truthy(meta.value) then meta.value else JNull;
    LogLineFields(ts, level, msg, m);
    assert Bus.LogLine(ts, level, msg, meta) == JObject([("ts", JStr(ts)), ("level", JStr(level)), ("msg", JStr(msg)), ("meta", m)]);
  }

  lemma LogLineFields(ts: string, level: string, msg: string, m: JsonValue)
    ensures var line := JObject([("ts", JStr(ts)), ("level", JStr(level)), ("msg", JStr(msg)), ("meta", m)]);
      && Get(line, "ts") == Some(JStr(ts)) && Get(line, "level") == Some(JStr(level))
      && Get(line, "msg") == Some(JStr(msg)) && Get(line, "meta") == Some(m)
  {
    var fs := [("ts", JStr(ts)), ("level", JStr(level)), ("msg", JStr(msg)), ("meta", m)];
    var f3, f2, f1 := fs[..3], fs[..2], fs[..1];
    assert f3[..2] == f2 && f2[..1] == f1 && f1[..0] == [];
    assert LastField(fs, "msg") == LastField(f3, "msg");
    assert LastField(fs, "level") == LastField(f3, "level") == LastField(f2, "level");
    assert LastField(fs, "ts") == LastField(f3, "ts") == LastField(f2, "ts") == LastField(f1, "ts");
  }
}
