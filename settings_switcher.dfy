/** `SetupSettingsSwitcher`: give a fixed set of settings values that embed one random
    token per test run, so that parallel runs do not share directories or lock files. */
module SettingsSwitcher {
  import opened Py
  import Tokens

  const Placeholder: string := "%(token)s"

  /** `template % {'token': token}`: `%(token)s` becomes the token and `%%` a percent
      sign; any other use of `%` raises. */
  function Format(template: string, token: string): Result<string>
    decreases |template|
  {
    if template == [] then Ok([])
    else if template[0] != '%' then Prepend(template[..1], Format(template[1..], token))
    else if |template| >= 2 && template[1] == '%' then Prepend("%", Format(template[2..], token))
    else if Placeholder <= template then Prepend(token, Format(template[|Placeholder|..], token))
    else Err("unsupported format character")
  }

  function Prepend(prefix: string, r: Result<string>): Result<string>
  {
    match r
    case Ok(s) => Ok(prefix + s)
    case Err(e) => Err(e)
  }

  /** Text without a percent sign is copied through unchanged. */
  lemma {:induction false} FormatLiteralPrefix(prefix: string, rest: string, token: string)
    requires '%' !in prefix
    ensures Format(prefix + rest, token) == Prepend(prefix, Format(rest, token))
  {
    if prefix == [] {
      assert prefix + rest == rest;
      PrependAssociates([], [], Format(rest, token));
    } else {
      var t := prefix + rest;
      assert t[0] == prefix[0] && t[..1] == prefix[..1] && t[1..] == prefix[1..] + rest;
      FormatLiteralPrefix(prefix[1..], rest, token);
      PrependAssociates(prefix[..1], prefix[1..], Format(rest, token));
      assert prefix[..1] + prefix[1..] == prefix;
    }
  }

  lemma PrependAssociates(a: string, b: string, r: Result<string>)
    ensures Prepend(a, Prepend(b, r)) == Prepend(a + b, r)
    ensures Prepend([], r) == r
  {
    if r.Ok? {
      assert a + (b + r.value) == (a + b) + r.value;
      assert [] + r.value == r.value;
    }
  }

  /** A literal followed by the placeholder becomes the literal followed by the token. */
  lemma FormatPlaceholder(prefix: string, token: string)
    requires '%' !in prefix
    ensures Format(prefix + Placeholder, token) == Ok(prefix + token)
  {
    FormatLiteralPrefix(prefix, Placeholder, token);
    assert Placeholder[|Placeholder|..] == [];
    assert token + [] == token;
  }

  /** The values the settings take: every key whose template formats, with the token in it. */
  function Switched(settingsVals: map<string, string>, token: string): map<string, Value>
  {
    map k | k in settingsVals && Format(settingsVals[k], token).Ok? :: Str(Format(settingsVals[k], token).value)
  }

  predicate AllFormat(settingsVals: map<string, string>, token: string)
  {
    forall k :: k in settingsVals ==> Format(settingsVals[k], token).Ok?
  }

  /** The dictionary `custom_before` hands to the switcher. */
  const CustomSwitchedSettings: map<string, string> := map[
    "DOCUMENT_IMPORT_STORAGE_DIR" := "document_import%(token)s",
    "DOCUMENT_SETTINGS_STORAGE_DIR" := "document_settings%(token)s",
    "ATTACHMENT_STORAGE_PREFIX" := "attachments%(token)s",
    "MAILER_LOCKFILE" := "send_mail%(token)s"]

  /** Each of `custom_before`'s settings becomes its name stem followed by the token. */
  lemma CustomSettingsCarryToken(token: string)
    ensures AllFormat(CustomSwitchedSettings, token)
    ensures Switched(CustomSwitchedSettings, token) == map[
      "DOCUMENT_IMPORT_STORAGE_DIR" := Str("document_import" + token),
      "DOCUMENT_SETTINGS_STORAGE_DIR" := Str("document_settings" + token),
      "ATTACHMENT_STORAGE_PREFIX" := Str("attachments" + token),
      "MAILER_LOCKFILE" := Str("send_mail" + token)]
  {
    CustomTemplatesAllFormat(token);
    var expected := map[
      "DOCUMENT_IMPORT_STORAGE_DIR" := Str("document_import" + token),
      "DOCUMENT_SETTINGS_STORAGE_DIR" := Str("document_settings" + token),
      "ATTACHMENT_STORAGE_PREFIX" := Str("attachments" + token),
      "MAILER_LOCKFILE" := Str("send_mail" + token)];
    var switched := Switched(CustomSwitchedSettings, token);
    assert switched.Keys == CustomSwitchedSettings.Keys == expected.Keys;
    forall k | k in switched
      ensures switched[k] == expected[k]
    {
      CustomTemplateValue(k, token);
    }
  }

  lemma CustomTemplateValue(k: string, token: string)
    requires k in CustomSwitchedSettings
    ensures Format(CustomSwitchedSettings[k], token) == Ok(
      if k == "DOCUMENT_IMPORT_STORAGE_DIR" then "document_import" + token
      else if k == "DOCUMENT_SETTINGS_STORAGE_DIR" then "document_settings" + token
      else if k == "ATTACHMENT_STORAGE_PREFIX" then "attachments" + token
      else "send_mail" + token)
  {
    CustomSwitchedKeys();
    if k == "DOCUMENT_IMPORT_STORAGE_DIR" {
      DocumentImportTemplate(token);
    } else if k == "DOCUMENT_SETTINGS_STORAGE_DIR" {
      DocumentSettingsTemplate(token);
    } else if k == "ATTACHMENT_STORAGE_PREFIX" {
      AttachmentsTemplate(token);
    } else {
      MailerLockfileTemplate(token);
    }
  }

  lemma CustomSwitchedKeys()
    ensures CustomSwitchedSettings.Keys ==
      {"DOCUMENT_IMPORT_STORAGE_DIR", "DOCUMENT_SETTINGS_STORAGE_DIR", "ATTACHMENT_STORAGE_PREFIX", "MAILER_LOCKFILE"}
  {
  }

  lemma CustomTemplatesAllFormat(token: string)
    ensures AllFormat(CustomSwitchedSettings, token)
  {
    DocumentImportTemplate(token);
    DocumentSettingsTemplate(token);
    AttachmentsTemplate(token);
    MailerLockfileTemplate(token);
    CustomSwitchedKeys();
  }

  lemma {:induction false} DocumentImportTemplate(token: string)
    ensures Format(CustomSwitchedSettings["DOCUMENT_IMPORT_STORAGE_DIR"], token) == Ok("document_import" + token)
  {
    FormatPlaceholder("document_import", token);
    assert "document_import" + Placeholder == "document_import%(token)s";
  }

  lemma {:induction false} DocumentSettingsTemplate(token: string)
    ensures Format(CustomSwitchedSettings["DOCUMENT_SETTINGS_STORAGE_DIR"], token) == Ok("document_settings" + token)
  {
    FormatPlaceholder("document_settings", token);
    assert "document_settings" + Placeholder == "document_settings%(token)s";
  }

  lemma {:induction false} AttachmentsTemplate(token: string)
    ensures Format(CustomSwitchedSettings["ATTACHMENT_STORAGE_PREFIX"], token) == Ok("attachments" + token)
  {
    FormatPlaceholder("attachments", token);
    assert "attachments" + Placeholder == "attachments%(token)s";
  }

  lemma {:induction false} MailerLockfileTemplate(token: string)
    ensures Format(CustomSwitchedSettings["MAILER_LOCKFILE"], token) == Ok("send_mail" + token)
  {
    FormatPlaceholder("send_mail", token);
    assert "send_mail" + Placeholder == "send_mail%(token)s";
  }

  /** Only switched keys differ between `before` and `after`, and each that differs
      holds its switched value. */
  ghost predicate PartlySwitched(before: Attrs, after: Attrs, switched: map<string, Value>)
  {
    after.Keys <= before.Keys + switched.Keys
    && forall k :: k in after ==>
      (k in switched && after[k] == switched[k]) || (k in before && after[k] == before[k])
  }

  class SetupSettingsSwitcher {
    var settingsVals: map<string, string>
    var token: string

    /** `__init__`: the token is drawn once, by `choose`. */
    constructor (settingsVals: map<string, string>, choose: nat -> Tokens.Index)
      ensures this.settingsVals == settingsVals
      ensures token == Tokens.RandomToken(128, choose) && |token| == 22
    {
      this.settingsVals := settingsVals;
      token := Tokens.RandomToken(128, choose);
    }

    /** `before`: set every listed setting to its template filled with the one token,
        in the dictionary's (unspecified) order; a template that does not format
        raises and leaves the settings set so far. */
    method Before(settings: Settings) returns (ok: bool)
      modifies settings
      ensures ok == AllFormat(settingsVals, token)
      ensures ok ==> settings.attrs == old(settings.attrs) + Switched(settingsVals, token)
      ensures PartlySwitched(old(settings.attrs), settings.attrs, Switched(settingsVals, token))
    {
      var keys := settingsVals.Keys;
      ghost var done: set<string> := {};
      while keys != {}
        invariant keys !! done && keys + done == settingsVals.Keys
        invariant forall k :: k in done ==> Format(settingsVals[k], token).Ok?
        invariant settings.attrs == old(settings.attrs) + (map k | k in done :: Switched(settingsVals, token)[k])
        decreases keys
      {
        var k :| k in keys;
        var value := Format(settingsVals[k], token);
        if value.Err? {
          return false;
        }
        settings.attrs := settings.attrs[k := Str(value.value)];
        keys := keys - {k};
        done := done + {k};
      }
      assert (map k | k in done :: Switched(settingsVals, token)[k]) == Switched(settingsVals, token);
      return true;
    }
  }
}
