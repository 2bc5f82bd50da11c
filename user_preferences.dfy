/**
 * `UserPreferences`: the theme and language settings, stored in a key-value preference
 * file and mirrored in two observable values. The preference file is modelled by two maps,
 * one per value type that the class reads and writes.
 */
module UserPreferences {
  import opened Wrappers

  datatype ThemeMode = LIGHT | DARK | SYSTEM

  datatype AppLanguage = ENGLISH | RUSSIAN

  const ThemeModeKey: string := "theme_mode"
  const LanguageKey: string := "app_language"

  const ThemeModeSystem: int := 0
  const ThemeModeLight: int := 1
  const ThemeModeDark: int := 2

  const LanguageEnglish: string := "en"
  const LanguageRussian: string := "ru"

  /** The stored int for a theme (the `when` in `setThemeMode`). */
  function EncodeTheme(mode: ThemeMode): (v: int)
    ensures ThemeModeSystem <= v <= ThemeModeDark
    ensures DecodeTheme(v) == mode
  {
    match mode
    case LIGHT => ThemeModeLight
    case DARK => ThemeModeDark
    case SYSTEM => ThemeModeSystem
  }

  /** The theme for a stored int (the `when` in `loadThemeMode`); unknown values mean SYSTEM. */
  function DecodeTheme(v: int): (mode: ThemeMode)
    ensures mode == SYSTEM || (v == ThemeModeLight || v == ThemeModeDark)
    ensures !(ThemeModeSystem <= v <= ThemeModeDark) ==> mode == SYSTEM
  {
    if v == ThemeModeLight then LIGHT
    else if v == ThemeModeDark then DARK
    else SYSTEM
  }

  /** The stored string for a language (the `when` in `setAppLanguage`). */
  function EncodeLanguage(language: AppLanguage): (v: string)
    ensures v == LanguageEnglish || v == LanguageRussian
    ensures DecodeLanguage(v) == language
  {
    match language
    case ENGLISH => LanguageEnglish
    case RUSSIAN => LanguageRussian
  }

  /** The language for a stored string (the `when` in `loadAppLanguage`); unknown means ENGLISH. */
  function DecodeLanguage(v: string): (language: AppLanguage)
    ensures language == RUSSIAN <==> v == LanguageRussian
  {
    if v == LanguageEnglish then ENGLISH
    else if v == LanguageRussian then RUSSIAN
    else ENGLISH
  }

  /** Re-encoding a decoded int gives it back exactly when it is one of the three codes. */
  lemma ThemeCodeRoundTrip(v: int)
    ensures EncodeTheme(DecodeTheme(v)) == v <==> ThemeModeSystem <= v <= ThemeModeDark
  {
  }

  /** Re-encoding a decoded string gives it back exactly when it is one of the two codes. */
  lemma LanguageCodeRoundTrip(v: string)
    ensures EncodeLanguage(DecodeLanguage(v)) == v <==> (v == LanguageEnglish || v == LanguageRussian)
  {
  }

  /** The two encodings are one-to-one. */
  lemma EncodingsInjective(a: ThemeMode, b: ThemeMode, x: AppLanguage, y: AppLanguage)
    ensures EncodeTheme(a) == EncodeTheme(b) ==> a == b
    ensures EncodeLanguage(x) == EncodeLanguage(y) ==> x == y
  {
  }

  /** `loadThemeMode`: `getInt(theme_mode, SYSTEM)` decoded. */
  function LoadThemeMode(ints: map<string, int>): (mode: ThemeMode)
    ensures ThemeModeKey !in ints ==> mode == SYSTEM
    ensures ThemeModeKey in ints ==> mode == DecodeTheme(ints[ThemeModeKey])
  {
    var value := if ThemeModeKey in ints then ints[ThemeModeKey] else ThemeModeSystem;
    DecodeTheme(value)
  }

  /**
   * `loadAppLanguage`: `getString(app_language, "en") ?: "en"` decoded. A stored null
   * (`None`) reads as "en" through the elvis operator.
   */
  function LoadAppLanguage(strings: map<string, Option<string>>): (language: AppLanguage)
    ensures LanguageKey !in strings ==> language == ENGLISH
    ensures LanguageKey in strings && strings[LanguageKey].None? ==> language == ENGLISH
    ensures LanguageKey in strings && strings[LanguageKey].Some? ==>
              language == DecodeLanguage(strings[LanguageKey].value)
  {
    var stored := if LanguageKey in strings then strings[LanguageKey] else Some(LanguageEnglish);
    DecodeLanguage(stored.GetOr(LanguageEnglish))
  }

  /** What was written is what is read back. */
  lemma StoreRoundTrip(ints: map<string, int>, strings: map<string, Option<string>>,
                       mode: ThemeMode, language: AppLanguage)
    ensures LoadThemeMode(ints[ThemeModeKey := EncodeTheme(mode)]) == mode
    ensures LoadAppLanguage(strings[LanguageKey := Some(EncodeLanguage(language))]) == language
  {
  }

  class UserPreferences {
    /** The int entries of the preference file. */
    var ints: map<string, int>
    /** The string entries of the preference file (a stored null is `None`). */
    var strings: map<string, Option<string>>
    /** The value behind the `themeMode` flow. */
    var themeMode: ThemeMode
    /** The value behind the `appLanguage` flow. */
    var appLanguage: AppLanguage

    /** The observable values agree with what the preference file holds. */
    ghost predicate Valid()
      reads this
    {
      themeMode == LoadThemeMode(ints) && appLanguage == LoadAppLanguage(strings)
    }

    /** Opening the preferences loads both values from the file. */
    constructor (ints: map<string, int>, strings: map<string, Option<string>>)
      ensures Valid()
      ensures this.ints == ints && this.strings == strings
    {
      this.ints := ints;
      this.strings := strings;
      themeMode := LoadThemeMode(ints);
      appLanguage := LoadAppLanguage(strings);
    }

    /** `setThemeMode`: writes the theme key only, then publishes the mode. */
    method SetThemeMode(mode: ThemeMode)
      requires Valid()
      modifies this
      ensures Valid()
      ensures themeMode == mode
      ensures ints == old(ints)[ThemeModeKey := EncodeTheme(mode)]
      ensures strings == old(strings) && appLanguage == old(appLanguage)
    {
      var value := EncodeTheme(mode);
      ints := ints[ThemeModeKey := value];
      themeMode := mode;
    }

    /** `setAppLanguage`: writes the language key only, then publishes the language. */
    method SetAppLanguage(language: AppLanguage)
      requires Valid()
      modifies this
      ensures Valid()
      ensures appLanguage == language
      ensures strings == old(strings)[LanguageKey := Some(EncodeLanguage(language))]
      ensures ints == old(ints) && themeMode == old(themeMode)
    {
      var value := EncodeLanguage(language);
      strings := strings[LanguageKey := Some(value)];
      appLanguage := language;
    }
  }
}
