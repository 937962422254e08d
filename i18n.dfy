// The language table and the text-direction helpers of the i18n setup
// (src/lib/i18n/index.ts). i18next itself, the language detector and the
// DOM updates of changeLanguage are not part of this model; the current
// i18next language is a parameter.
module I18n {
  import opened Wrappers

  datatype Direction = Ltr | Rtl

  datatype LanguageInfo = LanguageInfo(
    code: string,
    name: string,
    nativeName: string,
    flag: string,
    dir: Direction)

  /** SUPPORTED_LANGUAGES, keyed by language code. */
  const SupportedLanguages: map<string, LanguageInfo> := map[
    "en" := LanguageInfo("en", "English", "English", "\U{1F1FA}\U{1F1F8}", Ltr),
    "ar" := LanguageInfo("ar", "Arabic",
              "\U{0627}\U{0644}\U{0639}\U{0631}\U{0628}\U{064A}\U{0629}",
              "\U{1F1F8}\U{1F1E6}", Rtl),
    "fr" := LanguageInfo("fr", "French", "Fran\U{00E7}ais", "\U{1F1EB}\U{1F1F7}", Ltr)
  ]

  /** RTL_LANGUAGES. */
  const RtlLanguages: seq<string> := ["ar"]

  /** `language || getCurrentLanguage()`: an absent or empty argument falls back
    * to the current language. */
  function LanguageArgument(language: Option<string>, current: string): (r: string)
    ensures language.Some? && language.value != "" ==> r == language.value
    ensures language.None? || language.value == "" ==> r == current
  {
    if language.Some? && language.value != "" then language.value else current
  }

  /** isRTL: membership of the chosen language in RTL_LANGUAGES. */
  function IsRtl(language: Option<string>, current: string): (r: bool)
    ensures r <==> LanguageArgument(language, current) == "ar"
  {
    LanguageArgument(language, current) in RtlLanguages
  }

  /** getLanguageDirection. */
  function LanguageDirection(language: Option<string>, current: string): (r: Direction)
    ensures r == Rtl <==> IsRtl(language, current)
    ensures r == Rtl <==> LanguageArgument(language, current) == "ar"
  {
    if IsRtl(language, current) then Rtl else Ltr
  }

  /** Every entry of the table is stored under its own code, and its `dir`
    * agrees with what getLanguageDirection says for that code. */
  lemma SupportedDirectionsAgree(current: string)
    ensures forall c :: c in SupportedLanguages ==>
      SupportedLanguages[c].code == c &&
      SupportedLanguages[c].dir == LanguageDirection(Some(c), current)
  {
    forall c | c in SupportedLanguages
      ensures SupportedLanguages[c].code == c
      ensures SupportedLanguages[c].dir == LanguageDirection(Some(c), current)
    {
      assert c == "en" || c == "ar" || c == "fr";
      assert "en" != "ar" && "fr" != "ar";
    }
  }

  /** A non-empty code that is not supported is laid out left to right. */
  lemma UnsupportedIsLtr(code: string, current: string)
    requires code != "" && code !in SupportedLanguages
    ensures LanguageDirection(Some(code), current) == Ltr
  {
    assert "ar" in SupportedLanguages;
  }

  /** An absent or empty argument means the current language. */
  lemma FallbackToCurrent(current: string)
    ensures LanguageDirection(None, current) == LanguageDirection(Some(current), current)
    ensures LanguageDirection(Some(""), current) == LanguageDirection(Some(current), current)
    ensures IsRtl(None, current) <==> current == "ar"
  {
  }
}
