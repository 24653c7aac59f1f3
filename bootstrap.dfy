/** Start-up bookkeeping: the first admin account, the single-admin rule
    and the default settings rows. The password hash is an input (bcrypt is
    not modelled). */
module Bootstrap {
  import opened Wrappers
  import opened Settings

  /** A row of `admins`; `isPrimary` is the TINYINT(1) column. */
  datatype AdminRow = AdminRow(
    id: nat,
    username: string,
    email: Option<string>,
    passwordHash: string,
    whatsapp: Option<string>,
    isPrimary: int)

  const DefaultUsername: string := "admin"
  const DefaultEmail: string := "admin@local"

  /** `Admin.destroy({ where: { is_primary: 0 } })`. */
  function WithoutZero(rows: seq<AdminRow>): (r: seq<AdminRow>)
    ensures forall i :: 0 <= i < |r| ==> r[i].isPrimary != 0
    ensures forall a :: a in rows && a.isPrimary != 0 ==> a in r
    ensures forall a :: a in r ==> a in rows
  {
    if |rows| == 0 then []
    else (if rows[0].isPrimary == 0 then [] else [rows[0]]) + WithoutZero(rows[1..])
  }

  /** Whether some row has `is_primary: 1`. */
  predicate HasPrimary(rows: seq<AdminRow>) {
    exists i :: 0 <= i < |rows| && rows[i].isPrimary == 1
  }

  /** The table after `enforceSingleAdmin`: when no row is primary the first
      row (if any) is made primary, then the rows with 0 are deleted. */
  function Enforced(rows: seq<AdminRow>): seq<AdminRow> {
    var promoted := if !HasPrimary(rows) && |rows| > 0 then rows[0 := rows[0].(isPrimary := 1)] else rows;
    WithoutZero(promoted)
  }

  /** After `enforceSingleAdmin` no remaining row has is_primary 0; a
      non-empty table stays non-empty and no primary row is deleted. */
  lemma EnforcedSpec(rows: seq<AdminRow>)
    ensures forall a :: a in Enforced(rows) ==> a.isPrimary != 0
    ensures |rows| > 0 ==> |Enforced(rows)| > 0
    ensures forall a :: a in rows && a.isPrimary == 1 ==> a in Enforced(rows)
    ensures HasPrimary(rows) ==> forall a :: a in Enforced(rows) ==> a in rows
  {
    if |rows| > 0 {
      if HasPrimary(rows) {
        var i :| 0 <= i < |rows| && rows[i].isPrimary == 1;
        assert rows[i] in Enforced(rows);
      } else {
        var p := rows[0 := rows[0].(isPrimary := 1)];
        assert p[0] in p;
        assert p[0] in Enforced(rows);
      }
    }
  }

  /** With the column holding only 0 and 1, as every write of this program
      does, the admins left all have is_primary 1. */
  lemma EnforcedAllPrimary(rows: seq<AdminRow>)
    requires forall a :: a in rows ==> a.isPrimary == 0 || a.isPrimary == 1
    ensures forall a :: a in Enforced(rows) ==> a.isPrimary == 1
  {
    var promoted := if !HasPrimary(rows) && |rows| > 0 then rows[0 := rows[0].(isPrimary := 1)] else rows;
    forall a | a in promoted ensures a.isPrimary == 0 || a.isPrimary == 1 {
      var i :| 0 <= i < |promoted| && promoted[i] == a;
      if i > 0 || HasPrimary(rows) { assert a == rows[i]; }
    }
  }

  /** Running `enforceSingleAdmin` again changes nothing. */
  lemma EnforcedIdempotent(rows: seq<AdminRow>)
    ensures Enforced(Enforced(rows)) == Enforced(rows)
  {
    var e := Enforced(rows);
    EnforcedSpec(rows);
    WithoutZeroKeeps(e);
    if |e| > 0 {
      assert e[0] in e;
    }
  }

  lemma {:induction false} WithoutZeroKeeps(rows: seq<AdminRow>)
    requires forall i :: 0 <= i < |rows| ==> rows[i].isPrimary != 0
    ensures WithoutZero(rows) == rows
  {
    if |rows| > 0 {
      WithoutZeroKeeps(rows[1..]);
      assert rows == [rows[0]] + rows[1..];
    }
  }

  class AdminTable {
    var rows: seq<AdminRow>
    /** The next value of the auto-increment `id`. */
    var nextId: nat

    constructor (initial: seq<AdminRow>, next: nat)
      ensures rows == initial && nextId == next
    {
      rows := initial;
      nextId := next;
    }

    /** `bootstrapPrimaryAdmin`: an empty table gets one primary admin
        `admin` / `admin@local` with no WhatsApp number; a non-empty table is
        left alone. */
    method BootstrapPrimaryAdmin(hash: string) returns (created: bool)
      modifies this
      ensures created <==> old(|rows|) == 0
      ensures created ==> rows == [AdminRow(old(nextId), DefaultUsername, Some(DefaultEmail), hash, None, 1)]
      ensures created ==> nextId == old(nextId) + 1
      ensures !created ==> rows == old(rows) && nextId == old(nextId)
    {
      created := |rows| == 0;
      if created {
        rows := rows + [AdminRow(nextId, DefaultUsername, Some(DefaultEmail), hash, None, 1)];
        nextId := nextId + 1;
      }
    }

    /** `a.update({ password_hash })` on the row at `i`. */
    method SetPasswordHash(i: nat, hash: string)
      requires i < |rows|
      modifies this
      ensures rows == old(rows)[i := old(rows)[i].(passwordHash := hash)] && nextId == old(nextId)
    {
      rows := rows[i := rows[i].(passwordHash := hash)];
    }

    /** `enforceSingleAdmin`. */
    method EnforceSingleAdmin()
      modifies this
      ensures rows == Enforced(old(rows)) && nextId == old(nextId)
    {
      if !HasPrimary(rows) && |rows| > 0 {
        rows := rows[0 := rows[0].(isPrimary := 1)];
      }
      rows := WithoutZero(rows);
    }
  }

  /** After a bootstrap on an empty table, exactly one admin exists and it
      is primary. */
  lemma BootstrapThenEnforce(id: nat, hash: string)
    ensures var rows := [AdminRow(id, DefaultUsername, Some(DefaultEmail), hash, None, 1)];
      Enforced(rows) == rows
  {
    var rows := [AdminRow(id, DefaultUsername, Some(DefaultEmail), hash, None, 1)];
    assert HasPrimary(rows) by { assert rows[0].isPrimary == 1; }
    WithoutZeroKeeps(rows);
  }

  /** The keys `ensureSettings` creates. */
  const SettingKeys: seq<string> :=
    ["site_name", "site_url", "api_url", "api_key_enc", "wa_admin", "webhook_secret", "invoice_exp_minutes"]

  /** The settings map after `ensureSettings` over `keys`: each missing key
      gets the value ''. */
  function Ensured(rows: map<string, Option<string>>, keys: seq<string>): (r: map<string, Option<string>>)
    ensures r.Keys == rows.Keys + set i | 0 <= i < |keys| :: keys[i]
    ensures forall k :: k in rows ==> r[k] == rows[k]
    ensures forall k :: k in r && k !in rows ==> r[k] == Some("")
  {
    if |keys| == 0 then rows
    else
      var last := keys[|keys| - 1];
      var before := Ensured(rows, keys[..|keys| - 1]);
      if last in before then before else before[last := Some("")]
  }

  /** `ensureSettings` is idempotent: a second run changes nothing. */
  lemma EnsuredIdempotent(rows: map<string, Option<string>>, keys: seq<string>)
    ensures Ensured(Ensured(rows, keys), keys) == Ensured(rows, keys)
  {
    var e := Ensured(rows, keys);
    var ee := Ensured(e, keys);
    assert ee.Keys == e.Keys;
  }

  /** `ensureSettings`: for each listed key in order, create the row with
      value '' when it does not exist. */
  method EnsureSettings(t: SettingsTable)
    modifies t
    ensures t.rows == Ensured(old(t.rows), SettingKeys)
  {
    var i := 0;
    while i < |SettingKeys|
      invariant 0 <= i <= |SettingKeys|
      invariant t.rows == Ensured(old(t.rows), SettingKeys[..i])
    {
      var k := SettingKeys[i];
      assert SettingKeys[..i + 1][..i] == SettingKeys[..i];
      if k !in t.rows {
        t.rows := t.rows[k := Some("")];
      }
      i := i + 1;
    }
    assert SettingKeys[..i] == SettingKeys;
  }
}
