/** What the handlers see of the payment gateway: each call either throws
    or returns a parsed reply body; the HTTP client itself is not part of
    this model. */
module Gateway {
  import opened Wrappers
  import opened Js

  datatype Reply = Threw(error: string) | Returned(body: JsonValue)

  /** A request the handlers send to the gateway. */
  datatype Call =
    | CreateDeposit(reffId: string, nominal: nat)
    | CancelDeposit(depositId: string)
    | CheckAccount(bankCode: string, accountNumber: string)
    | CreateTransfer(refId: string, bankCode: string, accountNumber: string, accountName: string,
                     nominal: nat, note: string)
    | TransferStatus(transferId: string)

  function Body(r: Reply): Option<JsonValue> {
    if r.Returned? then Some(r.body) else None
  }

  /** `String(r?.status) === 'true'`: a missing status reads as
      "undefined". Both `true` and "true" pass. */
  predicate Succeeded(r: Reply) {
    var st := GetOpt(Body(r), "status");
    st.Some? && JsString(st.value) == "true"
  }

  /** `r?.message || fallback`, as text. */
  function MessageOr(r: Reply, fallback: string): (m: string)
    ensures var v := GetOpt(Body(r), "message");
      && (v.None? || !Truthy(v.value) ==> m == fallback)
      && (v.Some? && Truthy(v.value) ==> m == JsString(v.value))
  {
    var v := GetOpt(Body(r), "message");
    if v.Some? && Truthy(v.value) then JsString(v.value) else fallback
  }

  /** What a route's `catch (e)` replies: `e.message || 'Server error'`. */
  function Caught(message: string): (m: string)
    ensures m != ""
    ensures message != "" ==> m == message
  {
    if message != "" then message else "Server error"
  }

  /** `r?.data?.[key]`. */
  function DataField(r: Reply, key: string): Option<JsonValue> {
    GetOpt(GetOpt(Body(r), "data"), key)
  }

  /** `r?.data?.k0 || r?.data?.k1 || ...`: the first truthy field among `keys`,
      None when there is none. */
  function FirstTruthy(r: Reply, keys: seq<string>): (v: Option<JsonValue>)
    ensures v.Some? ==> Truthy(v.value) && exists i :: IsFirstTruthy(r, keys, i)
    ensures forall i :: IsFirstTruthy(r, keys, i) ==> v == DataField(r, keys[i])
    ensures v.None? <==> forall i :: 0 <= i < |keys| ==> !TruthyField(r, keys[i])
  {
    if |keys| == 0 then None
    else if TruthyField(r, keys[0]) then
      assert IsFirstTruthy(r, keys, 0);
      FirstIsUnique(r, keys, 0);
      DataField(r, keys[0])
    else
      var rest := FirstTruthy(r, keys[1..]);
      assert forall i :: 1 <= i < |keys| ==> keys[i] == keys[1..][i - 1];
      FirstTruthyShift(r, keys);
      if rest.Some? then
        var k :| IsFirstTruthy(r, keys[1..], k);
        assert IsFirstTruthy(r, keys, k + 1);
        rest
      else rest
  }

  /** Field `keys[i]` is the first truthy one: it is truthy and every
      earlier field is not. */
  predicate IsFirstTruthy(r: Reply, keys: seq<string>, i: int) {
    && 0 <= i < |keys| && TruthyField(r, keys[i])
    && forall j :: 0 <= j < i ==> !TruthyField(r, keys[j])
  }

  /** `a || b || null` as text. */
  lemma FirstOfTwo(r: Reply, k0: string, k1: string)
    ensures var t := FirstTruthyText(r, [k0, k1]);
      && (TruthyField(r, k0) ==> t == Some(JsString(DataField(r, k0).value)))
      && (!TruthyField(r, k0) && TruthyField(r, k1) ==> t == Some(JsString(DataField(r, k1).value)))
      && (!TruthyField(r, k0) && !TruthyField(r, k1) ==> t == None)
  {
    FirstTextHead(r, [k0, k1]);
    assert [k0, k1][1..] == [k1];
    FirstTextHead(r, [k1]);
    assert [k1][1..] == [];
  }

  /** `a || b || c || null` as text. */
  lemma FirstOfThree(r: Reply, k0: string, k1: string, k2: string)
    ensures var t := FirstTruthyText(r, [k0, k1, k2]);
      && (TruthyField(r, k0) ==> t == Some(JsString(DataField(r, k0).value)))
      && (!TruthyField(r, k0) && TruthyField(r, k1) ==> t == Some(JsString(DataField(r, k1).value)))
      && (!TruthyField(r, k0) && !TruthyField(r, k1) && TruthyField(r, k2) ==>
            t == Some(JsString(DataField(r, k2).value)))
      && (!TruthyField(r, k0) && !TruthyField(r, k1) && !TruthyField(r, k2) ==> t == None)
  {
    FirstTextHead(r, [k0, k1, k2]);
    assert [k0, k1, k2][1..] == [k1, k2];
    FirstOfTwo(r, k1, k2);
  }

  /** The text of the first truthy field is the head's when it is truthy,
      otherwise that of the rest. */
  lemma FirstTextHead(r: Reply, keys: seq<string>)
    requires |keys| > 0
    ensures FirstTruthyText(r, keys) ==
      if TruthyField(r, keys[0]) then Some(JsString(DataField(r, keys[0]).value)) else FirstTruthyText(r, keys[1..])
  {
  }

  /** At most one field is the first truthy one. */
  lemma FirstIsUnique(r: Reply, keys: seq<string>, i: int)
    requires IsFirstTruthy(r, keys, i)
    ensures forall k :: IsFirstTruthy(r, keys, k) ==> k == i
  {
  }

  /** Past a falsy head, the first truthy field moves down by one. */
  lemma FirstTruthyShift(r: Reply, keys: seq<string>)
    requires |keys| > 0 && !TruthyField(r, keys[0])
    ensures forall i :: IsFirstTruthy(r, keys, i) <==> i > 0 && IsFirstTruthy(r, keys[1..], i - 1)
  {
    forall i | IsFirstTruthy(r, keys, i)
      ensures i > 0 && IsFirstTruthy(r, keys[1..], i - 1)
    {
      assert keys[1..][i - 1] == keys[i];
      forall j | 0 <= j < i - 1 ensures !TruthyField(r, keys[1..][j]) {
        assert keys[1..][j] == keys[j + 1];
      }
    }
    forall i | i > 0 && IsFirstTruthy(r, keys[1..], i - 1)
      ensures IsFirstTruthy(r, keys, i)
    {
      assert keys[1..][i - 1] == keys[i];
      forall j | 0 <= j < i ensures !TruthyField(r, keys[j]) {
        if j > 0 { assert keys[1..][j - 1] == keys[j]; }
      }
    }
  }

  /** A first truthy field as text (`v ? String(v) : null`). */
  function FirstTruthyText(r: Reply, keys: seq<string>): (t: Option<string>)
    ensures forall i :: IsFirstTruthy(r, keys, i) ==> t == Some(JsString(DataField(r, keys[i]).value))
    ensures (forall i :: 0 <= i < |keys| ==> !TruthyField(r, keys[i])) ==> t == None
  {
    var v := FirstTruthy(r, keys);
    if v.Some? then Some(JsString(v.value)) else None
  }

  predicate TruthyField(r: Reply, key: string) {
    var v := DataField(r, key);
    v.Some? && Truthy(v.value)
  }
}
