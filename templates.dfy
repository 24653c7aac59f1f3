/** WhatsApp message texts: the invoice link, the note fallbacks and the six
    message templates. Money and date formatting for the Indonesian locale
    are inputs (their text is given), so the templates are plain strings. */
module Templates {
  import opened Wrappers
  import opened Js

  // ---------------------------------------------------------------------
  // encodeURIComponent
  // ---------------------------------------------------------------------

  /** The characters `encodeURIComponent` leaves as they are. */
  predicate IsUnreserved(c: char) {
    ('A' <= c <= 'Z') || ('a' <= c <= 'z') || ('0' <= c <= '9')
    || c == '-' || c == '_' || c == '.' || c == '!' || c == '~'
    || c == '*' || c == '\'' || c == '(' || c == ')'
  }

  const UpperHexDigits: string := "0123456789ABCDEF"

  /** `%XX` for one byte, upper-case hex. */
  function PercentByte(b: nat): (r: string)
    requires b < 256
    ensures |r| == 3 && r[0] == '%'
  {
    ['%', UpperHexDigits[b / 16], UpperHexDigits[b % 16]]
  }

  /** The UTF-8 bytes of one Unicode scalar value. */
  function Utf8(cp: nat): (bs: seq<nat>)
    requires cp < 0x110000
    ensures 1 <= |bs| <= 4 && forall i :: 0 <= i < |bs| ==> bs[i] < 256
  {
    if cp < 0x80 then [cp]
    else if cp < 0x800 then [0xC0 + cp / 64, 0x80 + cp % 64]
    else if cp < 0x10000 then [0xE0 + cp / 4096, 0x80 + (cp / 64) % 64, 0x80 + cp % 64]
    else [0xF0 + cp / 262144, 0x80 + (cp / 4096) % 64, 0x80 + (cp / 64) % 64, 0x80 + cp % 64]
  }

  function PercentBytes(bs: seq<nat>): string
    requires forall i :: 0 <= i < |bs| ==> bs[i] < 256
  {
    if |bs| == 0 then "" else PercentByte(bs[0]) + PercentBytes(bs[1..])
  }

  function EncodeChar(c: char): string {
    if IsUnreserved(c) then [c] else PercentBytes(Utf8(c as int))
  }

  /** `encodeURIComponent`. Dafny characters are Unicode scalar values, so
      the lone surrogates for which JavaScript throws cannot occur. */
  function EncodeUriComponent(s: string): string {
    if |s| == 0 then "" else EncodeChar(s[0]) + EncodeUriComponent(s[1..])
  }

  /** What may appear in an encoded component: unreserved characters, '%'
      and upper-case hex digits. */
  predicate IsUriSafe(c: char) {
    IsUnreserved(c) || c == '%'
  }

  lemma {:induction false} PercentBytesSafe(bs: seq<nat>)
    requires forall i :: 0 <= i < |bs| ==> bs[i] < 256
    ensures forall i :: 0 <= i < |PercentBytes(bs)| ==> IsUriSafe(PercentBytes(bs)[i])
  {
    if |bs| > 0 {
      PercentBytesSafe(bs[1..]);
      var p := PercentByte(bs[0]);
      assert forall i :: 0 <= i < 3 ==> IsUriSafe(p[i]);
    }
  }

  /** The encoded text contains only unreserved characters and '%': no
      '&', '=', '#', '?', '/' or space can break out of the query value. */
  lemma {:induction false} EncodeIsUriSafe(s: string)
    ensures forall i :: 0 <= i < |EncodeUriComponent(s)| ==> IsUriSafe(EncodeUriComponent(s)[i])
  {
    if |s| > 0 {
      EncodeIsUriSafe(s[1..]);
      if !IsUnreserved(s[0]) {
        PercentBytesSafe(Utf8(s[0] as int));
      }
    }
  }

  /** Text made only of unreserved characters, such as a hex invoice token,
      is not changed; any other character is changed. */
  lemma {:induction false} EncodeIdentity(s: string)
    ensures EncodeUriComponent(s) == s <==> forall i :: 0 <= i < |s| ==> IsUnreserved(s[i])
  {
    if |s| > 0 {
      EncodeIdentity(s[1..]);
      if IsUnreserved(s[0]) {
        assert s == [s[0]] + s[1..];
      } else {
        EncodeGrows(s[1..]);
        var b := Utf8(s[0] as int);
        assert |PercentBytes(b)| >= 3 by {
          assert PercentBytes(b) == PercentByte(b[0]) + PercentBytes(b[1..]);
        }
      }
    }
  }

  lemma {:induction false} EncodeGrows(s: string)
    ensures |EncodeUriComponent(s)| >= |s|
  {
    if |s| > 0 {
      EncodeGrows(s[1..]);
      var b := Utf8(s[0] as int);
      if !IsUnreserved(s[0]) {
        assert PercentBytes(b) == PercentByte(b[0]) + PercentBytes(b[1..]);
      }
    }
  }

  // ---------------------------------------------------------------------
  // invoiceLink
  // ---------------------------------------------------------------------

  const NoLinkText: string := "(Link invoice belum diset admin)"

  /** `replace(/\/$/, '')`: at most one trailing slash is removed. */
  function DropTrailingSlash(s: string): (r: string)
    ensures |r| <= |s| && r == s[..|r|]
    ensures |s| - |r| <= 1
    ensures |s| > 0 && s[|s| - 1] == '/' ==> |r| == |s| - 1
  {
    if |s| > 0 && s[|s| - 1] == '/' then s[..|s| - 1] else s
  }

  /** `invoiceLink(siteUrl, token)`. */
  function InvoiceLink(siteUrl: string, token: string): string {
    var base := DropTrailingSlash(siteUrl);
    if base == "" then NoLinkText
    else base + "/p/invoice?token=" + EncodeUriComponent(token)
  }

  /** The placeholder text is returned exactly when the base URL, after the
      trailing slash is dropped, is empty; otherwise the link is the base,
      the invoice path and the encoded token. */
  lemma InvoiceLinkSpec(siteUrl: string, token: string)
    ensures InvoiceLink(siteUrl, token) == NoLinkText <==> DropTrailingSlash(siteUrl) == ""
    ensures DropTrailingSlash(siteUrl) != "" ==>
      InvoiceLink(siteUrl, token) == DropTrailingSlash(siteUrl) + "/p/invoice?token=" + EncodeUriComponent(token)
  {
    var base := DropTrailingSlash(siteUrl);
    if base != "" {
      var tail := EncodeUriComponent(token);
      assert InvoiceLink(siteUrl, token) == base + "/p/invoice?token=" + tail;
      LinkIsNotPlaceholder(base, tail);
    }
  }

  /** A link has a `?` where the placeholder text has none. */
  lemma LinkIsNotPlaceholder(base: string, tail: string)
    ensures base + "/p/invoice?token=" + tail != NoLinkText
  {
    var link := base + "/p/invoice?token=" + tail;
    assert link[|base| + 10] == '?';
    assert '?' !in NoLinkText;
  }

  // ---------------------------------------------------------------------
  // TPL
  // ---------------------------------------------------------------------

  /** The fields of an order that the templates read, with the amount and
      the expiry already formatted by the locale (None: no expiry). */
  datatype OrderText = OrderText(
    orderId: string,
    invoiceToken: string,
    gameId: string,
    nickname: string,
    amountText: string,
    expiresText: Option<string>)

  const Rule: string := "\U{2501}\U{2501}\U{2501}\U{2501}\U{2501}\U{2501}\U{2501}\U{2501}\U{2501}\U{2501}\U{2501}\U{2501}\U{2501}\U{2501}\U{2501}\U{2501}\U{2501}\U{2501}"

  /** `rupiah(n)` with the locale-formatted number given. */
  function Rupiah(amountText: string): string { "Rp " + amountText }

  /** `v || '-'`. */
  function OrDash(v: string): string { if v == "" then "-" else v }

  /** `note ? `_${note}_` : fallback`. */
  function NoteLine(note: string, fallback: string): string {
    if note != "" then "_" + note + "_" else fallback
  }

  const NoProcessingNote: string := "_Tidak ada catatan_"
  const NoDoneNote: string := "_Terima kasih_"
  const NoRejectNote: string := "_Tidak ada alasan_"

  /** The pieces of a message, in order. */
  function Concat(parts: seq<string>): string {
    if |parts| == 0 then "" else parts[0] + Concat(parts[1..])
  }

  /** Every piece of a message occurs in it. */
  lemma {:induction false} ConcatIncludes(parts: seq<string>, i: nat)
    requires i < |parts|
    ensures Includes(Concat(parts), parts[i])
  {
    if i == 0 {
      IncludesInfix("", parts[0], Concat(parts[1..]));
      assert "" + parts[0] + Concat(parts[1..]) == Concat(parts);
    } else {
      ConcatIncludes(parts[1..], i - 1);
      IncludesPrepend(parts[0], parts[i], Concat(parts[1..]));
    }
  }

  function InvoiceCreatedParts(siteUrl: string, o: OrderText): seq<string> {
    [ "\U{1F9FE} *INVOICE DIBUAT*\n" + Rule + "\n\U{1F9FE} *Order* : ", o.orderId,
      "\n\U{1F3AE} *Game*  : ", OrDash(o.gameId), " (", OrDash(o.nickname),
      ")\n\U{1F4B3} *Total* : ", Rupiah(o.amountText),
      "\n\U{23F0} *Expired*: ", o.expiresText.GetOr("-"),
      "\n\nSilakan lakukan pembayaran QRIS.\nPantau status invoice:\n\U{1F517} ",
      InvoiceLink(siteUrl, o.invoiceToken),
      "\n\nSetelah paid, admin akan proses manual. Terima kasih \U{1F64F}" ]
  }

  function PaidParts(siteUrl: string, o: OrderText): seq<string> {
    [ "\U{2705} *PEMBAYARAN BERHASIL*\n" + Rule + "\n\U{1F9FE} *Order* : ", o.orderId,
      "\n\U{1F4B3} *Total* : ", Rupiah(o.amountText),
      "\n\U{1F4CC} *Status*: *PAID*\n\n\U{23F3} Admin akan memproses top up secara *manual*.\nCek status invoice kapan saja:\n\U{1F517} ",
      InvoiceLink(siteUrl, o.invoiceToken),
      "\n\nTerima kasih sudah order \U{1F64F}" ]
  }

  function ProcessingParts(siteUrl: string, o: OrderText, note: string): seq<string> {
    [ "\U{23F3} *ORDER DIPROSES*\n" + Rule + "\n\U{1F9FE} *Order* : ", o.orderId,
      "\n\U{1F4B3} *Total* : ", Rupiah(o.amountText),
      "\n\U{1F4CC} *Status*: *PROCESSING*\n\n\U{1F4DD} Catatan Admin:\n",
      NoteLine(note, NoProcessingNote),
      "\n\nPantau invoice:\n\U{1F517} ", InvoiceLink(siteUrl, o.invoiceToken),
      "\n\nMohon tunggu ya \U{1F64F}" ]
  }

  function DoneParts(siteUrl: string, o: OrderText, note: string): seq<string> {
    [ "\U{2705} *ORDER SELESAI*\n" + Rule + "\n\U{1F9FE} *Order* : ", o.orderId,
      "\n\U{1F4B3} *Total* : ", Rupiah(o.amountText),
      "\n\U{1F4CC} *Status*: *DONE*\n\n\U{1F4DD} Catatan:\n",
      NoteLine(note, NoDoneNote),
      "\n\nInvoice:\n\U{1F517} ", InvoiceLink(siteUrl, o.invoiceToken),
      "\n\nTerima kasih! Kalau cocok, order lagi ya \U{2728}" ]
  }

  function RejectedParts(siteUrl: string, o: OrderText, note: string): seq<string> {
    [ "\U{274C} *ORDER DITOLAK*\n" + Rule + "\n\U{1F9FE} *Order* : ", o.orderId,
      "\n\U{1F4B3} *Total* : ", Rupiah(o.amountText),
      "\n\U{1F4CC} *Status*: *REJECTED*\n\n\U{1F4DD} Alasan:\n",
      NoteLine(note, NoRejectNote),
      "\n\nCek invoice:\n\U{1F517} ", InvoiceLink(siteUrl, o.invoiceToken),
      "\n\nJika butuh bantuan, balas pesan ini ya." ]
  }

  function OtpParts(code: string): seq<string> {
    [ "\U{1F510} *OTP RESET PASSWORD ADMIN*\n" + Rule + "\nKode OTP: *", code,
      "*\nBerlaku: *5 menit*\n\nJika kamu tidak meminta ini, abaikan pesan ini." ]
  }

  /** `TPL.invoiceCreated`. */
  function InvoiceCreated(siteUrl: string, o: OrderText): string { Concat(InvoiceCreatedParts(siteUrl, o)) }
  /** `TPL.paid`. */
  function Paid(siteUrl: string, o: OrderText): string { Concat(PaidParts(siteUrl, o)) }
  /** `TPL.processing`. */
  function Processing(siteUrl: string, o: OrderText, note: string): string { Concat(ProcessingParts(siteUrl, o, note)) }
  /** `TPL.done`. */
  function Done(siteUrl: string, o: OrderText, note: string): string { Concat(DoneParts(siteUrl, o, note)) }
  /** `TPL.rejected`. */
  function Rejected(siteUrl: string, o: OrderText, note: string): string { Concat(RejectedParts(siteUrl, o, note)) }
  /** `TPL.otp`. */
  function Otp(code: string): string { Concat(OtpParts(code)) }

  /** A non-empty note is shown between underscores, an empty one as the
      template's fallback. */
  lemma NoteLineSpec(note: string, fallback: string)
    ensures note != "" ==> NoteLine(note, fallback) == "_" + note + "_"
    ensures note == "" ==> NoteLine(note, fallback) == fallback
    ensures Includes(NoteLine(note, fallback), note)
  {
    if note != "" {
      IncludesInfix("_", note, "_");
    } else {
      assert StartsWith(fallback, note);
    }
  }

  /** The invoice-created message names the order and carries its link. */
  lemma InvoiceCreatedEmbeds(siteUrl: string, o: OrderText)
    ensures Includes(InvoiceCreated(siteUrl, o), o.orderId)
    ensures Includes(InvoiceCreated(siteUrl, o), InvoiceLink(siteUrl, o.invoiceToken))
  {
    ConcatIncludes(InvoiceCreatedParts(siteUrl, o), 1);
    ConcatIncludes(InvoiceCreatedParts(siteUrl, o), 11);
  }

  /** The paid message names the order and carries its link. */
  lemma PaidEmbeds(siteUrl: string, o: OrderText)
    ensures Includes(Paid(siteUrl, o), o.orderId)
    ensures Includes(Paid(siteUrl, o), InvoiceLink(siteUrl, o.invoiceToken))
  {
    ConcatIncludes(PaidParts(siteUrl, o), 1);
    ConcatIncludes(PaidParts(siteUrl, o), 5);
  }

  /** The processing message names the order, carries its link and the
      admin's note (or its fallback). */
  lemma ProcessingEmbeds(siteUrl: string, o: OrderText, note: string)
    ensures Includes(Processing(siteUrl, o, note), o.orderId)
    ensures Includes(Processing(siteUrl, o, note), NoteLine(note, NoProcessingNote))
    ensures Includes(Processing(siteUrl, o, note), InvoiceLink(siteUrl, o.invoiceToken))
  {
    ConcatIncludes(ProcessingParts(siteUrl, o, note), 1);
    ConcatIncludes(ProcessingParts(siteUrl, o, note), 5);
    ConcatIncludes(ProcessingParts(siteUrl, o, note), 7);
  }

  /** The done message names the order, carries its link and the note. */
  lemma DoneEmbeds(siteUrl: string, o: OrderText, note: string)
    ensures Includes(Done(siteUrl, o, note), o.orderId)
    ensures Includes(Done(siteUrl, o, note), NoteLine(note, NoDoneNote))
    ensures Includes(Done(siteUrl, o, note), InvoiceLink(siteUrl, o.invoiceToken))
  {
    ConcatIncludes(DoneParts(siteUrl, o, note), 1);
    ConcatIncludes(DoneParts(siteUrl, o, note), 5);
    ConcatIncludes(DoneParts(siteUrl, o, note), 7);
  }

  /** The rejected message names the order, carries its link and the
      reason. */
  lemma RejectedEmbeds(siteUrl: string, o: OrderText, note: string)
    ensures Includes(Rejected(siteUrl, o, note), o.orderId)
    ensures Includes(Rejected(siteUrl, o, note), NoteLine(note, NoRejectNote))
    ensures Includes(Rejected(siteUrl, o, note), InvoiceLink(siteUrl, o.invoiceToken))
  {
    ConcatIncludes(RejectedParts(siteUrl, o, note), 1);
    ConcatIncludes(RejectedParts(siteUrl, o, note), 5);
    ConcatIncludes(RejectedParts(siteUrl, o, note), 7);
  }

  /** The OTP message carries the code. */
  lemma OtpEmbedsCode(code: string)
    ensures Includes(Otp(code), code)
  {
    ConcatIncludes(OtpParts(code), 1);
  }
}
