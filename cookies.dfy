/**
 * Consent-gated cookie storage (src/utils/cookies.ts, src/types/cookies.ts).
 * The browser's cookie jar is a map from cookie name to value; JSON is an
 * encode/decode pair, and the round trips hold for a value that the pair
 * parses back to itself.
 */
module Cookies {
  import opened Wrappers
  import opened Book

  const ConfigKey: string := "book_config"
  const SettingsKey: string := "cookie_settings"
  const PreferencesKey: string := "user_preferences"
  const ConsentKey: string := "cookie_consent"

  datatype CookieSettings = CookieSettings(necessary: bool, preferences: bool, analytics: bool, marketing: bool)

  /** Only the necessary cookies are allowed until the user says otherwise. */
  const DefaultSettings := CookieSettings(true, false, false, false)

  /** What `JSON.parse` of a settings cookie yields: the keys it happens to contain. */
  datatype SettingsPatch = SettingsPatch(
    necessary: Option<bool>, preferences: Option<bool>, analytics: Option<bool>, marketing: Option<bool>)

  function FullPatch(s: CookieSettings): SettingsPatch {
    SettingsPatch(Some(s.necessary), Some(s.preferences), Some(s.analytics), Some(s.marketing))
  }

  /** `{ ...base, ...patch }`. */
  function Overlay(base: CookieSettings, p: SettingsPatch): CookieSettings {
    CookieSettings(p.necessary.GetOr(base.necessary), p.preferences.GetOr(base.preferences),
                   p.analytics.GetOr(base.analytics), p.marketing.GetOr(base.marketing))
  }

  /**
   * `JSON.stringify` and `JSON.parse` for the two kinds of value stored; a
   * decode of `None` is a parse that throws.
   */
  datatype Codecs = Codecs(
    encodeSettings: CookieSettings -> string,
    decodeSettings: string -> Option<SettingsPatch>,
    encodeConfig: ConfigUpdate -> string,
    decodeConfig: string -> Option<ConfigUpdate>)

  /** The stringified settings `s` are not empty and parse back to all four keys of `s`. */
  predicate SettingsRoundTripAt(c: Codecs, s: CookieSettings) {
    c.encodeSettings(s) != "" && c.decodeSettings(c.encodeSettings(s)) == Some(FullPatch(s))
  }

  /** The stringified config `u` is not empty and parses back to `u`. */
  predicate ConfigRoundTripAt(c: Codecs, u: ConfigUpdate) {
    c.encodeConfig(u) != "" && c.decodeConfig(c.encodeConfig(u)) == Some(u)
  }

  function FlagChar(b: bool): char {
    if b then '1' else '0'
  }

  /** A settings encoding: one character per flag. */
  function EncodeFlags(s: CookieSettings): string {
    [FlagChar(s.necessary), FlagChar(s.preferences), FlagChar(s.analytics), FlagChar(s.marketing)]
  }

  function DecodeFlags(t: string): Option<SettingsPatch> {
    if |t| == 4 then Some(SettingsPatch(Some(t[0] == '1'), Some(t[1] == '1'), Some(t[2] == '1'), Some(t[3] == '1')))
    else None
  }

  /** The settings round trip asks nothing impossible: this codec meets it for every value. */
  lemma SettingsCodecExists()
    ensures var c := Codecs(EncodeFlags, DecodeFlags, _ => "{}", _ => None);
      forall s :: SettingsRoundTripAt(c, s)
  {
  }

  /** The value of cookie `key` when it is set and not empty (`if (saved)`). */
  function Stored(jar: map<string, string>, key: string): (r: Option<string>)
    ensures r.Some? <==> key in jar && jar[key] != ""
    ensures r.Some? ==> r.value == jar[key]
  {
    if key in jar && jar[key] != "" then Some(jar[key]) else None
  }

  /**
   * loadCookieSettings: the stored keys over the defaults; a missing, empty or
   * unparsable cookie gives the defaults.
   */
  function LoadCookieSettings(jar: map<string, string>, c: Codecs): (s: CookieSettings)
    ensures Stored(jar, SettingsKey).None? ==> s == DefaultSettings
    ensures Stored(jar, SettingsKey).Some? && c.decodeSettings(Stored(jar, SettingsKey).value).None? ==>
      s == DefaultSettings
    ensures Stored(jar, SettingsKey).Some? && c.decodeSettings(Stored(jar, SettingsKey).value).Some? ==>
      var p := c.decodeSettings(Stored(jar, SettingsKey).value).value;
      && s.necessary == p.necessary.GetOr(true)
      && s.preferences == p.preferences.GetOr(false)
      && s.analytics == p.analytics.GetOr(false)
      && s.marketing == p.marketing.GetOr(false)
  {
    match Stored(jar, SettingsKey)
    case None => DefaultSettings
    case Some(saved) =>
      match c.decodeSettings(saved)
      case None => DefaultSettings
      case Some(p) => Overlay(DefaultSettings, p)
  }

  /** What saveCookieSettings writes: the settings with `necessary` forced on. */
  function ForcedNecessary(s: CookieSettings): (r: CookieSettings)
    ensures r.necessary
    ensures r.preferences == s.preferences && r.analytics == s.analytics && r.marketing == s.marketing
  {
    s.(necessary := true)
  }

  /** Saving settings and loading them gives them back, with `necessary` on. */
  lemma SettingsRoundTrip(jar: map<string, string>, c: Codecs, s: CookieSettings)
    requires SettingsRoundTripAt(c, ForcedNecessary(s))
    ensures LoadCookieSettings(jar[SettingsKey := c.encodeSettings(ForcedNecessary(s))], c) == ForcedNecessary(s)
  {
  }

  /** The config as saveConfigToCookies writes it: without the `files` key. */
  function WithoutFiles(u: ConfigUpdate): (r: ConfigUpdate)
    ensures r.files.None?
    ensures r.(files := u.files) == u
  {
    u.(files := None)
  }

  /** loadConfigFromCookies: nothing without the preferences consent or a parsable stored config. */
  function LoadConfigFromCookies(jar: map<string, string>, c: Codecs): (r: Option<ConfigUpdate>)
    ensures !LoadCookieSettings(jar, c).preferences ==> r.None?
    ensures Stored(jar, ConfigKey).None? ==> r.None?
  {
    if !LoadCookieSettings(jar, c).preferences then None
    else match Stored(jar, ConfigKey)
      case None => None
      case Some(saved) => c.decodeConfig(saved)
  }

  /** With the preferences consent, a saved config loads back without its files. */
  lemma ConfigRoundTrip(jar: map<string, string>, c: Codecs, u: ConfigUpdate)
    requires ConfigRoundTripAt(c, WithoutFiles(u)) && LoadCookieSettings(jar, c).preferences
    ensures LoadConfigFromCookies(jar[ConfigKey := c.encodeConfig(WithoutFiles(u))], c) == Some(WithoutFiles(u))
  {
    var jar' := jar[ConfigKey := c.encodeConfig(WithoutFiles(u))];
    assert Stored(jar', SettingsKey) == Stored(jar, SettingsKey);
  }

  /** `status.toString()`. */
  function ConsentText(b: bool): string {
    if b then "true" else "false"
  }

  /**
   * getConsentStatus: consent is given exactly when the stored consent is the text
   * written for `true`; a missing, empty or "false" cookie reads as no consent.
   */
  function GetConsentStatus(jar: map<string, string>): (r: bool)
    ensures r <==> Stored(jar, ConsentKey) == Some(ConsentText(true))
    ensures Stored(jar, ConsentKey).None? || Stored(jar, ConsentKey) == Some(ConsentText(false)) ==> !r
  {
    ConsentKey in jar && jar[ConsentKey] == "true"
  }

  lemma ConsentRoundTrip(jar: map<string, string>, b: bool)
    ensures GetConsentStatus(jar[ConsentKey := ConsentText(b)]) == b
    ensures ConsentKey !in jar ==> !GetConsentStatus(jar)
  {
  }

  /** The document's cookies, read and written by the functions of cookies.ts. */
  class CookieJar {
    var jar: map<string, string>
    const codecs: Codecs

    constructor(initial: map<string, string>, c: Codecs)
      ensures jar == initial && codecs == c
    {
      jar := initial;
      codecs := c;
    }

    method SaveCookieSettings(s: CookieSettings)
      modifies this
      ensures jar == old(jar)[SettingsKey := codecs.encodeSettings(ForcedNecessary(s))]
      ensures SettingsRoundTripAt(codecs, ForcedNecessary(s)) ==> LoadCookieSettings(jar, codecs) == ForcedNecessary(s)
    {
      jar := jar[SettingsKey := codecs.encodeSettings(ForcedNecessary(s))];
      if SettingsRoundTripAt(codecs, ForcedNecessary(s)) {
        SettingsRoundTrip(old(jar), codecs, s);
      }
    }

    method SaveConfigToCookies(u: ConfigUpdate)
      modifies this
      ensures !LoadCookieSettings(old(jar), codecs).preferences ==> jar == old(jar)
      ensures LoadCookieSettings(old(jar), codecs).preferences ==>
        jar == old(jar)[ConfigKey := codecs.encodeConfig(WithoutFiles(u))]
      ensures LoadCookieSettings(old(jar), codecs).preferences && ConfigRoundTripAt(codecs, WithoutFiles(u)) ==>
        LoadConfigFromCookies(jar, codecs) == Some(WithoutFiles(u))
    {
      if !LoadCookieSettings(jar, codecs).preferences {
        return;
      }
      var configToSave := WithoutFiles(u);
      if ConfigRoundTripAt(codecs, configToSave) {
        ConfigRoundTrip(jar, codecs, u);
      }
      jar := jar[ConfigKey := codecs.encodeConfig(configToSave)];
    }

    method SetConsentStatus(status: bool)
      modifies this
      ensures jar == old(jar)[ConsentKey := ConsentText(status)]
      ensures GetConsentStatus(jar) == status
    {
      jar := jar[ConsentKey := ConsentText(status)];
    }

    /** Removes every cookie, one name at a time. */
    method ClearAllCookies()
      modifies this
      ensures jar == map[]
    {
      var names := jar.Keys;
      while names != {}
        invariant jar.Keys == names
        decreases names
      {
        var name :| name in names;
        jar := jar - {name};
        names := names - {name};
      }
    }
  }
}
