/** Withdrawals to a bank account: a draft is created, the account is
    checked at the gateway, the transfer is submitted, and its status is
    polled. The gateway's replies, the clock, the operator's id and the
    generated ids are inputs. */
module Withdrawals {
  import opened Wrappers
  import opened Js
  import opened Gateway
  import opened Bus
  import opened Db
  import Ids

  // ---------------------------------------------------------------------
  // The record
  // ---------------------------------------------------------------------

  /** The `status` column's ENUM; a new row is a draft. */
  datatype WdStatus = Draft | Checking | Ready | Submitted | Success | Failed | Canceled

  /** A row of `withdraws`. Amounts are unsigned columns; None is a NULL
      column. Times are milliseconds since the epoch. */
  datatype Withdraw = Withdraw(
    wdId: string,
    refId: string,
    createdBy: Option<nat>,
    approvedBy: Option<nat>,
    approvedAt: Option<int>,
    bankCode: string,
    bankName: Option<string>,
    accountNumber: string,
    accountName: Option<string>,
    nominal: nat,
    fee: nat,
    totalDebit: nat,
    providerTransferId: Option<string>,
    providerStatus: Option<string>,
    status: WdStatus,
    lastError: Option<string>,
    finishedAt: Option<int>)

  /** The table: rows keyed by the auto-increment `id`, which is always
      below the next one to hand out; `wd_id` and `ref_id` are each
      unique. */
  predicate ValidTable(rows: map<int, Withdraw>, nextId: int) {
    && 0 < nextId
    && (forall id :: id in rows ==> 0 < id < nextId)
    && (forall a, b :: a in rows && b in rows && rows[a].wdId == rows[b].wdId ==> a == b)
    && (forall a, b :: a in rows && b in rows && rows[a].refId == rows[b].refId ==> a == b)
  }

  predicate WdIdTaken(rows: map<int, Withdraw>, wdId: string) {
    exists id :: id in rows && rows[id].wdId == wdId
  }

  predicate RefIdTaken(rows: map<int, Withdraw>, refId: string) {
    exists id :: id in rows && rows[id].refId == refId
  }

  /** Changing a row without touching its two ids keeps the table valid. */
  lemma UpdateKeepsValid(rows: map<int, Withdraw>, nextId: int, id: int, w: Withdraw)
    requires ValidTable(rows, nextId) && id in rows
    requires w.wdId == rows[id].wdId && w.refId == rows[id].refId
    ensures ValidTable(rows[id := w], nextId)
  {
  }

  /** What one handler leaves behind: the table, the next id, the events it
      emitted, the gateway calls it made and its reply. */
  datatype Step<R> = Step(rows: map<int, Withdraw>, nextId: int, emitted: seq<Event>, calls: seq<Call>, reply: R)

  // ---------------------------------------------------------------------
  // POST /withdraw/create
  // ---------------------------------------------------------------------

  /** The fields of the create form as the handler reads them. */
  datatype WdForm = WdForm(bankCode: string, bankName: Option<string>, accountNumber: string, nominal: Option<int>)

  /** The trimmed texts (an empty bank name is null) and
      `Number(nominal || 0)`, None when it is NaN. */
  function ReadWdForm(body: JsonValue): (f: WdForm)
    ensures f.bankName.Some? ==> f.bankName.value != ""
    ensures f.nominal == NumberOr(Get(body, "nominal"), 0)
  {
    var name := FormText(body, "bank_name");
    WdForm(FormText(body, "bank_code"), if name == "" then None else Some(name),
           FormText(body, "account_number"), NumberOr(Get(body, "nominal"), 0))
  }

  /** The draft `Withdraw.create` inserts. */
  function NewDraft(wdId: string, refId: string, f: WdForm, nominal: nat, adminId: nat): Withdraw {
    Withdraw(wdId, refId, Some(adminId), None, None,
             f.bankCode, f.bankName, f.accountNumber, None,
             nominal, 0, nominal,
             None, None, Draft, None, None)
  }

  /** The handler of POST /withdraw/create; `wdId` and `refId` are the
      generated ids and `dbError` the message the database raises when it
      refuses a value: a NaN nominal passes the `nominal <= 0` test and
      reaches the insert. */
  function CreateSpec(rows: map<int, Withdraw>, nextId: int, f: WdForm, wdId: string, refId: string,
                      adminId: nat, dbError: string): Step<Result<(), string>>
  {
    if f.bankCode == "" || f.accountNumber == "" || (f.nominal.Some? && f.nominal.value <= 0) then
      Step(rows, nextId, [], [], Err("Data withdraw tidak valid"))
    else if f.nominal.None? then Step(rows, nextId, [], [], Err(Caught(dbError)))
    else if WdIdTaken(rows, wdId) || RefIdTaken(rows, refId) then Step(rows, nextId, [], [], Err(UniqueViolation))
    else
      Step(rows[nextId := NewDraft(wdId, refId, f, f.nominal.value, adminId)], nextId + 1,
           [DashboardUpdated], [], Ok(()))
  }

  /** Create refuses, changing nothing, an empty bank code, an empty account
      number and a nominal that is not positive, and fails on the insert for
      a NaN nominal; otherwise it inserts under a fresh id a draft by the
      operator with fee 0 and total debit equal to the nominal, and
      announces it once. */
  lemma CreateRule(rows: map<int, Withdraw>, nextId: int, f: WdForm, wdId: string, refId: string,
                   adminId: nat, dbError: string)
    requires ValidTable(rows, nextId)
    ensures var st := CreateSpec(rows, nextId, f, wdId, refId, adminId, dbError);
      && ValidTable(st.rows, st.nextId)
      && (f.bankCode == "" || f.accountNumber == "" || (f.nominal.Some? && f.nominal.value <= 0) ==>
            st.reply == Err("Data withdraw tidak valid"))
      && (f.bankCode != "" && f.accountNumber != "" && f.nominal.None? ==> st.reply == Err(Caught(dbError)))
      && (st.reply.Err? ==> st.rows == rows && st.nextId == nextId && st.emitted == [])
      && (st.reply.Ok? <==> f.bankCode != "" && f.accountNumber != "" && f.nominal.Some? && f.nominal.value > 0
                            && !WdIdTaken(rows, wdId) && !RefIdTaken(rows, refId))
      && (st.reply.Ok? ==>
            var w := st.rows[nextId];
            && nextId !in rows && st.rows == rows[nextId := w] && st.nextId == nextId + 1
            && w.status == Draft && w.fee == 0 && w.totalDebit == w.nominal && w.nominal > 0
            && Some(w.nominal as int) == f.nominal
            && w.wdId == wdId && w.refId == refId
            && w.bankCode == f.bankCode && w.bankName == f.bankName && w.accountNumber == f.accountNumber
            && w.createdBy == Some(adminId) && w.approvedBy.None? && w.approvedAt.None?
            && w.accountName.None? && w.providerTransferId.None? && w.providerStatus.None?
            && w.lastError.None? && w.finishedAt.None?
            && st.emitted == [DashboardUpdated])
      && st.calls == []
  {
  }

  /** With ids drawn by `withdrawId('WD')` and `withdrawId('WDREF')`, a
      created draft never carries the same text as both of its ids. */
  lemma CreatedIdsDiffer(rows: map<int, Withdraw>, nextId: int, f: WdForm, d1: Ids.Date, b1: seq<Ids.Byte>,
                         d2: Ids.Date, b2: seq<Ids.Byte>, adminId: nat, dbError: string)
    requires d1.Valid() && |b1| == 5 && d2.Valid() && |b2| == 5
    ensures var st := CreateSpec(rows, nextId, f, Ids.WithdrawId(Ids.DefaultWithdrawPrefix, d1, b1),
                                 Ids.WithdrawId("WDREF", d2, b2), adminId, dbError);
      st.reply.Ok? ==> st.rows[nextId].wdId != st.rows[nextId].refId
  {
    Ids.WithdrawIdsDiffer(d1, b1, d2, b2);
  }

  // ---------------------------------------------------------------------
  // POST /withdraw/:id/check
  // ---------------------------------------------------------------------

  const AccountNameKeys: seq<string> := ["account_name", "nama", "name", "nama_pemilik"]

  /** `String(accName || '').trim() || null` of the first truthy name
      field. */
  function AccountName(r: Reply): (name: Option<string>)
    ensures name.Some? ==> name.value != "" && !IsWhitespace(name.value[0]) && !IsWhitespace(name.value[|name.value| - 1])
    ensures (forall i :: 0 <= i < |AccountNameKeys| ==> !TruthyField(r, AccountNameKeys[i])) ==> name.None?
    ensures forall i :: IsFirstTruthy(r, AccountNameKeys, i) ==>
      var s := Trim(JsString(DataField(r, AccountNameKeys[i]).value));
      && (s == "" ==> name.None?)
      && (s != "" ==> name == Some(s))
  {
    var v := FirstTruthy(r, AccountNameKeys);
    var s := if v.Some? then Trim(JsString(v.value)) else "";
    TrimSpec(if v.Some? then JsString(v.value) else "");
    if s == "" then None else Some(s)
  }

  /** What the check handler makes of the account-check reply. */
  datatype AccountCheck = CheckThrew(error: string) | CheckRefused(message: string) | AccountFound(name: Option<string>)

  function ReadAccountCheck(r: Reply): (c: AccountCheck)
    ensures c.CheckThrew? <==> r.Threw?
    ensures c.AccountFound? <==> Succeeded(r)
    ensures c.CheckRefused? ==> c.message == MessageOr(r, "cek rekening gagal")
    ensures c.AccountFound? ==> c.name == AccountName(r)
  {
    if r.Threw? then CheckThrew(r.error)
    else if !Succeeded(r) then CheckRefused(MessageOr(r, "cek rekening gagal"))
    else AccountFound(AccountName(r))
  }

  /** The handler of POST /withdraw/:id/check; `ans` is the gateway's
      answer as `ReadAccountCheck` reads it and `now` the clock. */
  function CheckSpec(rows: map<int, Withdraw>, nextId: int, id: int, ans: AccountCheck, now: int)
    : Step<Result<Option<string>, string>>
  {
    if id !in rows then Step(rows, nextId, [], [], Err("Withdraw tidak ditemukan"))
    else
      var w := rows[id];
      var checking := w.(status := Checking);
      var call := [CheckAccount(w.bankCode, w.accountNumber)];
      match ans
      case CheckThrew(e) => Step(rows[id := checking], nextId, [], call, Err(Caught(e)))
      case CheckRefused(m) =>
        Step(rows[id := checking.(status := Failed, lastError := Some(m), finishedAt := Some(now))], nextId, [], call, Err(m))
      case AccountFound(name) =>
        Step(rows[id := checking.(status := Ready, accountName := name)], nextId, [DashboardUpdated], call, Ok(name))
  }

  /** A check moves any withdrawal, whatever its status, to checking before
      asking the gateway; a refusal then makes it failed with the message
      kept and the finish time set, an answer makes it ready with the
      account name read from it; a throw leaves it checking. Nothing but
      that row changes. */
  lemma CheckRule(rows: map<int, Withdraw>, nextId: int, id: int, ans: AccountCheck, now: int)
    requires ValidTable(rows, nextId)
    ensures var st := CheckSpec(rows, nextId, id, ans, now);
      && ValidTable(st.rows, st.nextId) && st.nextId == nextId
      && (id !in rows ==> st.rows == rows && st.calls == [] && st.reply == Err("Withdraw tidak ditemukan"))
      && (id in rows ==>
            var w, w2 := rows[id], st.rows[id];
            && st.rows == rows[id := w2]
            && st.calls == [CheckAccount(w.bankCode, w.accountNumber)]
            && w2.(status := w.status, lastError := w.lastError, finishedAt := w.finishedAt, accountName := w.accountName) == w
            && (ans.CheckThrew? ==> w2 == w.(status := Checking) && st.reply == Err(Caught(ans.error)))
            && (ans.CheckRefused? ==>
                  w2.status == Failed && w2.lastError == Some(ans.message) && w2.finishedAt == Some(now)
                  && st.reply == Err(ans.message))
            && (ans.AccountFound? ==> w2.status == Ready && w2.accountName == ans.name && st.reply == Ok(ans.name)))
      && (st.emitted != [] <==> id in rows && ans.AccountFound?)
      && (st.emitted != [] ==> st.emitted == [DashboardUpdated])
  {
  }

  // ---------------------------------------------------------------------
  // POST /withdraw/:id/submit
  // ---------------------------------------------------------------------

  /** The body's `note` as text when it is truthy. */
  function NoteField(body: JsonValue): Option<string> {
    var v := Get(body, "note");
    if v.Some? && Truthy(v.value) then Some(JsString(v.value)) else None
  }

  /** What the submit handler makes of the transfer reply: the provider id
      (`id` or `transfer_id`), `Number(fee || 0)` (None: NaN) and
      `String(status || 'submitted')`. */
  datatype TransferAnswer =
    | TransferThrew(error: string)
    | TransferRefused(message: string)
    | TransferAccepted(pid: Option<string>, fee: Option<int>, providerStatus: string)

  function ReadTransfer(r: Reply): (t: TransferAnswer)
    ensures t.TransferThrew? <==> r.Threw?
    ensures t.TransferAccepted? <==> Succeeded(r)
    ensures t.TransferRefused? ==> t.message == MessageOr(r, "submit transfer gagal")
    ensures t.TransferAccepted? ==>
      && (TruthyField(r, "id") ==> t.pid == Some(JsString(DataField(r, "id").value)))
      && (!TruthyField(r, "id") && TruthyField(r, "transfer_id") ==>
            t.pid == Some(JsString(DataField(r, "transfer_id").value)))
      && (!TruthyField(r, "id") && !TruthyField(r, "transfer_id") ==> t.pid == None)
      && t.fee == NumberOr(DataField(r, "fee"), 0)
      && (TruthyField(r, "status") ==> t.providerStatus == JsString(DataField(r, "status").value))
      && (!TruthyField(r, "status") ==> t.providerStatus == "submitted")
  {
    if r.Threw? then TransferThrew(r.error)
    else if !Succeeded(r) then TransferRefused(MessageOr(r, "submit transfer gagal"))
    else
      FirstOfTwo(r, "id", "transfer_id");
      var st := DataField(r, "status");
      TransferAccepted(FirstTruthyText(r, ["id", "transfer_id"]),
                       NumberOr(DataField(r, "fee"), 0),
                       if st.Some? && Truthy(st.value) then JsString(st.value) else "submitted")
  }

  /** `w.status === 'ready' || w.status === 'draft'`. */
  predicate Submittable(w: Withdraw) {
    w.status == Ready || w.status == Draft
  }

  /** `fee > 0 ? fee : w.fee`. */
  function NewFee(current: nat, fee: Option<int>): (f: nat)
    ensures fee.Some? && fee.value > 0 ==> f == fee.value
    ensures !(fee.Some? && fee.value > 0) ==> f == current
  {
    if fee.Some? && fee.value > 0 then fee.value else current
  }

  /** `Number(w.nominal) + Number(fee || 0)`: a NaN or zero fee adds
      nothing. A negative fee is added as it is. */
  function Debit(nominal: nat, fee: Option<int>): int {
    nominal + (if fee.Some? then fee.value else 0)
  }

  /** The handler of POST /withdraw/:id/submit; `note` is the body's
      `NoteField`, `adminId` the operator and `dbError` the message the
      database raises when the total debit would be negative (an unsigned
      column). */
  function SubmitSpec(rows: map<int, Withdraw>, nextId: int, id: int, note: Option<string>, adminId: nat,
                      now: int, ans: TransferAnswer, dbError: string): Step<Result<(), string>>
  {
    if id !in rows then Step(rows, nextId, [], [], Err("Withdraw tidak ditemukan"))
    else
      var w := rows[id];
      if !Submittable(w) then Step(rows, nextId, [], [], Err("Withdraw belum siap disubmit"))
      else
        var sent := w.(status := Submitted, approvedBy := Some(adminId), approvedAt := Some(now));
        var call := [CreateTransfer(w.refId, w.bankCode, w.accountNumber, w.accountName.GetOr(""),
                                    w.nominal, note.GetOr("Withdraw " + w.wdId))];
        match ans
        case TransferThrew(e) => Step(rows[id := sent], nextId, [], call, Err(Caught(e)))
        case TransferRefused(m) =>
          Step(rows[id := sent.(status := Failed, lastError := Some(m), finishedAt := Some(now))], nextId, [], call, Err(m))
        case TransferAccepted(pid, fee, ps) =>
          var total := Debit(w.nominal, fee);
          if total < 0 then Step(rows[id := sent], nextId, [], call, Err(Caught(dbError)))
          else
            var done := sent.(providerTransferId := pid, providerStatus := Some(ps),
                              fee := NewFee(w.fee, fee), totalDebit := total);
            Step(rows[id := done], nextId, [DashboardUpdated], call, Ok(()))
  }

  /** Submit changes nothing and asks nothing of the gateway unless the
      withdrawal is ready or a draft. */
  lemma SubmitGuard(rows: map<int, Withdraw>, nextId: int, id: int, note: Option<string>, adminId: nat,
                    now: int, ans: TransferAnswer, dbError: string)
    ensures var st := SubmitSpec(rows, nextId, id, note, adminId, now, ans, dbError);
      && ((id !in rows || !Submittable(rows[id])) <==> st.calls == [])
      && ((id !in rows || !Submittable(rows[id])) ==> st.rows == rows && st.emitted == [] && st.reply.Err?)
  {
  }

  /** A submit that passes the guard marks the withdrawal submitted and
      approved before the transfer is asked for; a refusal then makes it
      failed with the message kept; an acceptance replaces the fee only by a
      positive gateway fee, sets the total debit to the nominal plus the
      gateway fee, and keeps the provider id and status. Nothing but that row
      changes. */
  lemma SubmitOutcome(rows: map<int, Withdraw>, nextId: int, id: int, note: Option<string>, adminId: nat,
                      now: int, ans: TransferAnswer, dbError: string)
    requires ValidTable(rows, nextId)
    requires id in rows && Submittable(rows[id])
    ensures var st, w := SubmitSpec(rows, nextId, id, note, adminId, now, ans, dbError), rows[id];
      var w2 := st.rows[id];
      && ValidTable(st.rows, st.nextId)
      && st.rows == rows[id := w2]
      && w2.approvedBy == Some(adminId) && w2.approvedAt == Some(now)
      && w2.wdId == w.wdId && w2.refId == w.refId && w2.nominal == w.nominal
      && (ans.TransferThrew? ==> w2.status == Submitted && st.reply == Err(Caught(ans.error)))
      && (ans.TransferRefused? ==> w2.status == Failed && w2.lastError == Some(ans.message) && w2.finishedAt == Some(now))
      && (ans.TransferAccepted? && Debit(w.nominal, ans.fee) >= 0 ==>
            && w2.status == Submitted
            && w2.fee == (if ans.fee.Some? && ans.fee.value > 0 then ans.fee.value else w.fee)
            && w2.totalDebit as int == w.nominal + (if ans.fee.Some? then ans.fee.value else 0)
            && w2.providerTransferId == ans.pid
            && w2.providerStatus == Some(ans.providerStatus)
            && st.reply == Ok(()) && st.emitted == [DashboardUpdated])
      && (st.emitted != [] ==> st.reply == Ok(()))
  {
  }

  // ---------------------------------------------------------------------
  // POST /withdraw/:id/status
  // ---------------------------------------------------------------------

  /** `if (!w || !w.provider_transfer_id)`. */
  predicate HasTransferId(w: Withdraw) {
    w.providerTransferId.Some? && w.providerTransferId.value != ""
  }

  /** What the status handler makes of the transfer-status reply: the
      lower-cased `data.status`. */
  datatype PollAnswer = PollThrew(error: string) | PollRefused(message: string) | PollAnswered(word: string)

  function ReadPoll(r: Reply): (p: PollAnswer)
    ensures p.PollThrew? <==> r.Threw?
    ensures p.PollAnswered? <==> Succeeded(r)
    ensures p.PollRefused? ==> p.message == MessageOr(r, "cek status gagal")
    ensures p.PollAnswered? ==> p.word == ToLower(TextOr(DataField(r, "status")))
  {
    if r.Threw? then PollThrew(r.error)
    else if !Succeeded(r) then PollRefused(MessageOr(r, "cek status gagal"))
    else PollAnswered(ToLower(TextOr(DataField(r, "status"))))
  }

  /** The status the poll moves to: success or sukses give success, failed
      or gagal give failed, and any other word keeps the current status. */
  function NextStatus(current: WdStatus, word: string): (s: WdStatus)
    ensures word == "success" || word == "sukses" ==> s == Success
    ensures word == "failed" || word == "gagal" ==> s == Failed
    ensures word !in ["success", "sukses", "failed", "gagal"] ==> s == current
  {
    if word == "success" || word == "sukses" then Success
    else if word == "failed" || word == "gagal" then Failed
    else current
  }

  predicate Finished(s: WdStatus) {
    s == Success || s == Failed
  }

  /** The handler of POST /withdraw/:id/status. */
  function PollSpec(rows: map<int, Withdraw>, nextId: int, id: int, ans: PollAnswer, now: int): Step<Result<(), string>>
  {
    if id !in rows || !HasTransferId(rows[id]) then Step(rows, nextId, [], [], Err("Provider ID kosong"))
    else
      var w := rows[id];
      var call := [TransferStatus(w.providerTransferId.value)];
      match ans
      case PollThrew(e) => Step(rows, nextId, [], call, Err(Caught(e)))
      case PollRefused(m) => Step(rows, nextId, [], call, Err(m))
      case PollAnswered(word) =>
        var next := NextStatus(w.status, word);
        var polled := w.(providerStatus := Some(word), status := next,
                         finishedAt := if Finished(next) then Some(now) else w.finishedAt);
        Step(rows[id := polled], nextId, [DashboardUpdated], call, Ok(()))
  }

  /** The poll needs a provider id and an answer; it then records the word,
      moves the status as `NextStatus` says, and sets the finish time
      exactly when the new status is success or failed. It has no terminal
      guard: a succeeded withdrawal reported as failed becomes failed. */
  lemma PollRule(rows: map<int, Withdraw>, nextId: int, id: int, ans: PollAnswer, now: int)
    requires ValidTable(rows, nextId)
    ensures var st := PollSpec(rows, nextId, id, ans, now);
      && ValidTable(st.rows, st.nextId)
      && (!(id in rows && HasTransferId(rows[id])) ==> st.rows == rows && st.calls == [] && st.reply == Err("Provider ID kosong"))
      && (!(id in rows && HasTransferId(rows[id]) && ans.PollAnswered?) ==> st.rows == rows && st.emitted == [] && st.reply.Err?)
      && (id in rows && HasTransferId(rows[id]) && ans.PollAnswered? ==>
            var w, w2 := rows[id], st.rows[id];
            && st.rows == rows[id := w2]
            && st.calls == [TransferStatus(w.providerTransferId.value)]
            && w2.status == NextStatus(w.status, ans.word)
            && w2.providerStatus == Some(ans.word)
            && (Finished(w2.status) ==> w2.finishedAt == Some(now))
            && (!Finished(w2.status) ==> w2.finishedAt == w.finishedAt)
            && w2.(providerStatus := w.providerStatus, status := w.status, finishedAt := w.finishedAt) == w
            && st.emitted == [DashboardUpdated])
  {
  }

  /** There is no terminal guard: a withdrawal already succeeded, polled
      with the word failed, becomes failed. */
  lemma PollReopensFinished(rows: map<int, Withdraw>, nextId: int, id: int, now: int)
    requires id in rows && HasTransferId(rows[id]) && rows[id].status == Success
    ensures PollSpec(rows, nextId, id, PollAnswered("failed"), now).rows[id].status == Failed
  {
  }

  // ---------------------------------------------------------------------
  // The store
  // ---------------------------------------------------------------------

  class WithdrawStore {
    var rows: map<int, Withdraw>
    /** The next auto-increment id. */
    var nextId: int
    var events: seq<Event>
    var calls: seq<Call>

    ghost predicate Valid() reads this {
      ValidTable(rows, nextId)
    }

    constructor ()
      ensures Valid() && rows == map[] && nextId == 1 && events == [] && calls == []
    {
      rows := map[];
      nextId := 1;
      events := [];
      calls := [];
    }

    /** POST /withdraw/create; `f` is the body as `ReadWdForm` reads it. */
    method Create(f: WdForm, wdId: string, refId: string, adminId: nat, dbError: string) returns (r: Result<(), string>)
      requires Valid()
      modifies this
      ensures Valid()
      ensures var st := CreateSpec(old(rows), old(nextId), f, wdId, refId, adminId, dbError);
        rows == st.rows && nextId == st.nextId && events == old(events) + st.emitted && calls == old(calls) && r == st.reply
    {
      if f.bankCode == "" || f.accountNumber == "" || (f.nominal.Some? && f.nominal.value <= 0) {
        return Err("Data withdraw tidak valid");
      }
      if f.nominal.None? { return Err(Caught(dbError)); }
      if WdIdTaken(rows, wdId) || RefIdTaken(rows, refId) { return Err(UniqueViolation); }
      rows := rows[nextId := NewDraft(wdId, refId, f, f.nominal.value, adminId)];
      nextId := nextId + 1;
      events := events + [DashboardUpdated];
      r := Ok(());
    }

    /** `w.update({ status: 'checking' })`, then the gateway call. */
    method StartCheck(id: int)
      requires Valid() && id in rows
      modifies this
      ensures Valid() && nextId == old(nextId) && events == old(events)
      ensures rows == old(rows)[id := old(rows)[id].(status := Checking)]
      ensures calls == old(calls) + [CheckAccount(old(rows)[id].bankCode, old(rows)[id].accountNumber)]
    {
      var w := rows[id];
      UpdateKeepsValid(rows, nextId, id, w.(status := Checking));
      rows := rows[id := w.(status := Checking)];
      calls := calls + [CheckAccount(w.bankCode, w.accountNumber)];
    }

    /** POST /withdraw/:id/check; `ans` is the reply as `ReadAccountCheck`
        reads it. */
    method Check(id: int, ans: AccountCheck, now: int) returns (r: Result<Option<string>, string>)
      requires Valid()
      modifies this
      ensures Valid()
      ensures var st := CheckSpec(old(rows), old(nextId), id, ans, now);
        rows == st.rows && nextId == st.nextId && events == old(events) + st.emitted
        && calls == old(calls) + st.calls && r == st.reply
    {
      if id !in rows { return Err("Withdraw tidak ditemukan"); }
      StartCheck(id);
      var w := rows[id];
      match ans {
        case CheckThrew(e) =>
          r := Err(Caught(e));
        case CheckRefused(m) =>
          UpdateKeepsValid(rows, nextId, id, w.(status := Failed, lastError := Some(m), finishedAt := Some(now)));
          rows := rows[id := w.(status := Failed, lastError := Some(m), finishedAt := Some(now))];
          r := Err(m);
        case AccountFound(name) =>
          UpdateKeepsValid(rows, nextId, id, w.(status := Ready, accountName := name));
          rows := rows[id := w.(status := Ready, accountName := name)];
          events := events + [DashboardUpdated];
          r := Ok(name);
      }
    }

    /** The update to submitted, then the transfer request. */
    method StartSubmit(id: int, note: Option<string>, adminId: nat, now: int)
      requires Valid() && id in rows
      modifies this
      ensures Valid() && nextId == old(nextId) && events == old(events)
      ensures rows == old(rows)[id := old(rows)[id].(status := Submitted, approvedBy := Some(adminId), approvedAt := Some(now))]
      ensures var w := old(rows)[id];
        calls == old(calls) + [CreateTransfer(w.refId, w.bankCode, w.accountNumber, w.accountName.GetOr(""),
                                              w.nominal, note.GetOr("Withdraw " + w.wdId))]
    {
      var w := rows[id];
      var sent := w.(status := Submitted, approvedBy := Some(adminId), approvedAt := Some(now));
      UpdateKeepsValid(rows, nextId, id, sent);
      rows := rows[id := sent];
      calls := calls + [CreateTransfer(w.refId, w.bankCode, w.accountNumber, w.accountName.GetOr(""),
                                       w.nominal, note.GetOr("Withdraw " + w.wdId))];
    }

    /** POST /withdraw/:id/submit; `ans` is the reply as `ReadTransfer`
        reads it. */
    method Submit(id: int, note: Option<string>, adminId: nat, now: int, ans: TransferAnswer, dbError: string)
      returns (r: Result<(), string>)
      requires Valid()
      modifies this
      ensures Valid()
      ensures var st := SubmitSpec(old(rows), old(nextId), id, note, adminId, now, ans, dbError);
        rows == st.rows && nextId == st.nextId && events == old(events) + st.emitted
        && calls == old(calls) + st.calls && r == st.reply
    {
      if id !in rows { return Err("Withdraw tidak ditemukan"); }
      if !Submittable(rows[id]) { return Err("Withdraw belum siap disubmit"); }
      ghost var w0 := rows[id];
      StartSubmit(id, note, adminId, now);
      var w := rows[id];
      assert w.fee == w0.fee && w.nominal == w0.nominal;
      match ans {
        case TransferThrew(e) =>
          r := Err(Caught(e));
        case TransferRefused(m) =>
          UpdateKeepsValid(rows, nextId, id, w.(status := Failed, lastError := Some(m), finishedAt := Some(now)));
          rows := rows[id := w.(status := Failed, lastError := Some(m), finishedAt := Some(now))];
          r := Err(m);
        case TransferAccepted(pid, fee, ps) =>
          var total := Debit(w.nominal, fee);
          if total < 0 { return Err(Caught(dbError)); }
          var done := w.(providerTransferId := pid, providerStatus := Some(ps), fee := NewFee(w.fee, fee), totalDebit := total);
          UpdateKeepsValid(rows, nextId, id, done);
          rows := rows[id := done];
          events := events + [DashboardUpdated];
          r := Ok(());
      }
    }

    /** POST /withdraw/:id/status; `ans` is the reply as `ReadPoll` reads
        it. */
    method Poll(id: int, ans: PollAnswer, now: int) returns (r: Result<(), string>)
      requires Valid()
      modifies this
      ensures Valid()
      ensures var st := PollSpec(old(rows), old(nextId), id, ans, now);
        rows == st.rows && nextId == st.nextId && events == old(events) + st.emitted
        && calls == old(calls) + st.calls && r == st.reply
    {
      if id !in rows || !HasTransferId(rows[id]) { return Err("Provider ID kosong"); }
      var w := rows[id];
      calls := calls + [TransferStatus(w.providerTransferId.value)];
      match ans {
        case PollThrew(e) =>
          r := Err(Caught(e));
        case PollRefused(m) =>
          r := Err(m);
        case PollAnswered(word) =>
          var next := NextStatus(w.status, word);
          var polled := w.(providerStatus := Some(word), status := next,
                           finishedAt := if Finished(next) then Some(now) else w.finishedAt);
          UpdateKeepsValid(rows, nextId, id, polled);
          rows := rows[id := polled];
          events := events + [DashboardUpdated];
          r := Ok(());
      }
    }
  }
}
