/** The `settings` table as a key -> value map (None: a stored SQL NULL),
    with `getSetting`, `setSetting` and the three trimmed accessors. */
module Settings {
  import opened Wrappers
  import opened Js

  /** `String(value ?? '')`: null (and an absent value) becomes ''. */
  function StoredText(value: JsonValue): (r: string)
    ensures value.JNull? ==> r == ""
    ensures value.JStr? ==> r == value.s
  {
    if value.JNull? then "" else JsString(value)
  }

  const WebhookSecretKey: string := "webhook_secret"
  const AdminWaKey: string := "wa_admin"
  const SiteUrlKey: string := "site_url"

  class SettingsTable {
    /** One row per key; `None` is a NULL `value` column. */
    var rows: map<string, Option<string>>

    constructor (initial: map<string, Option<string>>)
      ensures rows == initial
    {
      rows := initial;
    }

    /** `getSetting(key, fallback)`: `s?.value ?? fallback`. A missing key
        and a NULL value give the fallback; any stored text, including
        '', is returned as it is. */
    method GetSetting(key: string, fallback: string) returns (r: string)
      ensures key in rows && rows[key].Some? ==> r == rows[key].value
      ensures key !in rows || rows[key].None? ==> r == fallback
    {
      if key in rows && rows[key].Some? {
        r := rows[key].value;
      } else {
        r := fallback;
      }
    }

    /** `setSetting(key, value)`: creates the row or updates it; no other
        key changes. */
    method SetSetting(key: string, value: JsonValue)
      modifies this
      ensures rows == old(rows)[key := Some(StoredText(value))]
    {
      rows := rows[key := Some(StoredText(value))];
    }

    /** `getSetting(key, '').trim()`. */
    method GetTrimmed(key: string) returns (r: string)
      ensures r == TrimmedSetting(rows, key)
    {
      var v := GetSetting(key, "");
      assert v == SettingOr(rows, key, "");
      r := Trim(v);
    }

    /** `getWebhookSecret()`. */
    method GetWebhookSecret() returns (r: string)
      ensures r == TrimmedSetting(rows, WebhookSecretKey)
    {
      r := GetTrimmed(WebhookSecretKey);
    }

    /** `getAdminWa()`. */
    method GetAdminWa() returns (r: string)
      ensures r == TrimmedSetting(rows, AdminWaKey)
    {
      r := GetTrimmed(AdminWaKey);
    }

    /** `getSiteUrl()`. */
    method GetSiteUrl() returns (r: string)
      ensures r == TrimmedSetting(rows, SiteUrlKey)
    {
      r := GetTrimmed(SiteUrlKey);
    }
  }

  /** The value a lookup gives: the stored text or the fallback. */
  function SettingOr(rows: map<string, Option<string>>, key: string, fallback: string): string {
    if key in rows && rows[key].Some? then rows[key].value else fallback
  }

  /** A trimmed accessor's value. */
  function TrimmedSetting(rows: map<string, Option<string>>, key: string): (r: string)
    ensures r == [] || (!IsWhitespace(r[0]) && !IsWhitespace(r[|r| - 1]))
    ensures key !in rows ==> r == ""
  {
    var r := Trim(SettingOr(rows, key, ""));
    TrimSpec(SettingOr(rows, key, ""));
    r
  }

  /** After `setSetting(k, v)`, `getSetting(k, f)` gives `String(v ?? '')`
      whatever the fallback, and every other key reads as before. */
  lemma SetThenGet(rows: map<string, Option<string>>, key: string, value: JsonValue, other: string, fallback: string)
    ensures SettingOr(rows[key := Some(StoredText(value))], key, fallback) == StoredText(value)
    ensures other != key ==>
      SettingOr(rows[key := Some(StoredText(value))], other, fallback) == SettingOr(rows, other, fallback)
  {
  }

  /** A stored empty string is returned as '', not as the fallback; a
      missing key gives the fallback. */
  lemma EmptyIsNotMissing(rows: map<string, Option<string>>, key: string, fallback: string)
    ensures key in rows && rows[key] == Some("") ==> SettingOr(rows, key, fallback) == ""
    ensures key !in rows ==> SettingOr(rows, key, fallback) == fallback
  {
  }

  /** The trimmed accessors give the same value when read twice: trimming
      what they return changes nothing. */
  lemma TrimmedSettingStable(rows: map<string, Option<string>>, key: string)
    ensures Trim(TrimmedSetting(rows, key)) == TrimmedSetting(rows, key)
  {
    TrimIdempotent(SettingOr(rows, key, ""));
  }
}
