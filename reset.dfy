/** The admin password reset over WhatsApp: a one-time code is sent to the
    configured admin number, and the code with a new password replaces the
    primary admin's password hash. The hash itself (bcrypt) is an input. */
module PasswordReset {
  import opened Wrappers
  import opened Js
  import Bootstrap
  import WhatsApp
  import Templates
  import Phone
  import Settings

  /** `String.prototype.length`: UTF-16 code units, two for a character
      outside the Basic Multilingual Plane. */
  function Utf16Length(s: string): (n: nat)
    ensures |s| <= n <= 2 * |s|
  {
    if |s| == 0 then 0 else Utf16Length(s[..|s| - 1]) + (if s[|s| - 1] as int > 0xFFFF then 2 else 1)
  }

  /** Text made of Basic Multilingual Plane characters has the length
      JavaScript reports for it. */
  lemma {:induction false} Utf16LengthBmp(s: string)
    requires forall i :: 0 <= i < |s| ==> s[i] as int <= 0xFFFF
    ensures Utf16Length(s) == |s|
  {
    if |s| > 0 {
      Utf16LengthBmp(s[..|s| - 1]);
    }
  }

  const MinPasswordLength: nat := 8

  /** `Admin.findOne({ where: { is_primary: 1 } })`: the first primary row. */
  function PrimaryIndex(rows: seq<Bootstrap.AdminRow>): (i: Option<nat>)
    ensures i.Some? ==> i.value < |rows| && rows[i.value].isPrimary == 1
                        && forall j :: 0 <= j < i.value ==> rows[j].isPrimary != 1
    ensures i.None? <==> !Bootstrap.HasPrimary(rows)
  {
    if |rows| == 0 then None
    else if rows[0].isPrimary == 1 then Some(0)
    else
      var rest := PrimaryIndex(rows[1..]);
      assert forall j :: 1 <= j < |rows| ==> rows[j] == rows[1..][j - 1];
      if rest.Some? then Some(rest.value + 1) else None
  }

  /** The two fields of the confirmation body: the code trimmed, the
      password as sent. */
  datatype ResetForm = ResetForm(otp: string, password: string)

  function ReadResetForm(body: JsonValue): ResetForm {
    ResetForm(FormText(body, "otp"), TextOr(Get(body, "new_password")))
  }

  /** The result of POST /reset/confirm: the admin rows, the stored codes and
      the reply. */
  datatype Outcome = Outcome(rows: seq<Bootstrap.AdminRow>, codes: map<string, int>, reply: Result<(), string>)

  /** POST /reset/confirm, with `hash` the bcrypt hash of the new password. */
  function ConfirmSpec(rows: seq<Bootstrap.AdminRow>, codes: map<string, int>, f: ResetForm, now: int, hash: string): Outcome {
    var (ok, left) := WhatsApp.VerifySpec(codes, f.otp, now);
    if !ok then Outcome(rows, left, Err("OTP invalid/expired"))
    else if Utf16Length(f.password) < MinPasswordLength then Outcome(rows, left, Err("Password minimal 8 karakter"))
    else
      var i := PrimaryIndex(rows);
      if i.None? then Outcome(rows, left, Err("Admin utama tidak ditemukan"))
      else Outcome(rows[i.value := rows[i.value].(passwordHash := hash)], left, Ok(()))
  }

  /** The reset succeeds exactly when the code is live, the password has at
      least eight characters and a primary admin exists; it then changes only
      that admin's hash. The code is used up whatever the outcome, and a
      failure changes no admin. */
  lemma ConfirmRule(rows: seq<Bootstrap.AdminRow>, codes: map<string, int>, f: ResetForm, now: int, hash: string)
    ensures var out := ConfirmSpec(rows, codes, f, now, hash);
      && out.codes == codes - {f.otp}
      && (out.reply.Ok? <==> (f.otp in codes && now <= codes[f.otp]
                              && Utf16Length(f.password) >= 8 && Bootstrap.HasPrimary(rows)))
      && (out.reply.Err? ==> out.rows == rows)
      && (out.reply.Ok? ==>
            var i := PrimaryIndex(rows).value;
            && |out.rows| == |rows|
            && out.rows[i].passwordHash == hash
            && out.rows[i] == rows[i].(passwordHash := hash)
            && (forall j :: 0 <= j < |rows| && j != i ==> out.rows[j] == rows[j]))
  {
  }

  /** The errors come in the order the handler checks them. */
  lemma ConfirmErrors(rows: seq<Bootstrap.AdminRow>, codes: map<string, int>, f: ResetForm, now: int, hash: string)
    ensures var r := ConfirmSpec(rows, codes, f, now, hash).reply;
      && (!(f.otp in codes && now <= codes[f.otp]) ==> r == Err("OTP invalid/expired"))
      && (f.otp in codes && now <= codes[f.otp] && Utf16Length(f.password) < 8 ==> r == Err("Password minimal 8 karakter"))
      && (f.otp in codes && now <= codes[f.otp] && Utf16Length(f.password) >= 8 && !Bootstrap.HasPrimary(rows)
          ==> r == Err("Admin utama tidak ditemukan"))
  {
  }

  /** A code resets the password at most once: confirming again with the
      same code fails and changes nothing. */
  lemma ConfirmOnce(rows: seq<Bootstrap.AdminRow>, codes: map<string, int>, f: ResetForm, t1: int, h1: string,
                    g: ResetForm, t2: int, h2: string)
    requires g.otp == f.otp
    ensures var first := ConfirmSpec(rows, codes, f, t1, h1);
      var second := ConfirmSpec(first.rows, first.codes, g, t2, h2);
      second.reply == Err("OTP invalid/expired") && second.rows == first.rows
  {
    WhatsApp.OtpSingleUse(codes, f.otp, t1, t2);
  }

  /** POST /reset/request and POST /reset/confirm over the live stores. */
  class ResetService {
    const admins: Bootstrap.AdminTable
    const otps: WhatsApp.OtpStore
    const wa: WhatsApp.WaService

    constructor (admins: Bootstrap.AdminTable, otps: WhatsApp.OtpStore, wa: WhatsApp.WaService)
      ensures this.admins == admins && this.otps == otps && this.wa == wa
    {
      this.admins := admins;
      this.otps := otps;
      this.wa := wa;
    }

    /** POST /reset/request: a new code, sent to the admin number of the
        settings. `n` is the random draw and `notify` the message of a send
        that throws. The reply is a success even when nothing could be
        sent. */
    method Request(settings: Settings.SettingsTable, n: int, now: int, notify: Option<string>)
      returns (r: Result<string, string>)
      requires 100000 <= n < 999999
      modifies otps, wa
      ensures otps.codes == old(otps.codes)[IntToString(n) := now + WhatsApp.OtpLifetime]
      ensures var e := Phone.Normalize(Settings.TrimmedSetting(settings.rows, Settings.AdminWaKey)).e164;
        var sent := wa.hasSocket && e.Some? && e.value != "";
        && wa.outbox == old(wa.outbox) + (if sent then [WhatsApp.Sent(WhatsApp.Jid(e.value), Templates.Otp(IntToString(n)))] else [])
        && r == (if sent && notify.Some? then Err(if notify.value != "" then notify.value else "Gagal kirim OTP")
                 else Ok("OTP dikirim ke WA admin"))
      ensures wa.state == old(wa.state) && wa.hasSocket == old(wa.hasSocket) && wa.events == old(wa.events)
    {
      var code := otps.Gen(n, now);
      var sent := wa.SendToAdmin(settings, Templates.Otp(code));
      if sent && notify.Some? {
        return Err(if notify.value != "" then notify.value else "Gagal kirim OTP");
      }
      r := Ok("OTP dikirim ke WA admin");
    }

    /** POST /reset/confirm. */
    method Confirm(f: ResetForm, now: int, hash: string) returns (r: Result<(), string>)
      modifies admins, otps
      ensures var out := ConfirmSpec(old(admins.rows), old(otps.codes), f, now, hash);
        admins.rows == out.rows && otps.codes == out.codes && r == out.reply
      ensures admins.nextId == old(admins.nextId)
    {
      var ok := otps.Verify(f.otp, now);
      if !ok { return Err("OTP invalid/expired"); }
      if Utf16Length(f.password) < MinPasswordLength { return Err("Password minimal 8 karakter"); }
      var i := PrimaryIndex(admins.rows);
      if i.None? { return Err("Admin utama tidak ditemukan"); }
      admins.SetPasswordHash(i.value, hash);
      r := Ok(());
    }
  }
}
