/**
 * The client's locale choice (src/i18n.ts): a saved choice wins when it
 * names a supported locale, else the browser language decides.
 */
module ClientLocale {
  import opened Wrappers
  import opened Text

  datatype Locale = Zh | En | Ja

  /** The `code` of each entry of `locales`. */
  function Code(l: Locale): string {
    match l
    case Zh => "zh"
    case En => "en"
    case Ja => "ja"
  }

  /** `locales.some(l => l.code === s)`, with the locale it names. */
  function Supported(s: string): (r: Option<Locale>)
    ensures r.Some? ==> Code(r.value) == s
    ensures r.None? ==> forall l :: Code(l) != s
  {
    if s == "zh" then Some(Zh) else if s == "en" then Some(En) else if s == "ja" then Some(Ja) else None
  }

  /**
   * `detectLocale()`, with `localStorage.getItem('locale')` and
   * `navigator.language` as parameters.
   */
  function DetectLocale(saved: Option<string>, browserLang: string): (l: Locale)
    ensures saved.Some? && Supported(saved.value).Some? ==> l == Supported(saved.value).value
    ensures (saved.None? || Supported(saved.value).None?) ==>
      l == (if StartsWith(ToLower(browserLang), "zh") then Zh
            else if StartsWith(ToLower(browserLang), "ja") then Ja
            else En)
  {
    if Present(saved) && Supported(saved.value).Some? then Supported(saved.value).value
    else
      var lang := ToLower(browserLang);
      if StartsWith(lang, "zh") then Zh
      else if StartsWith(lang, "ja") then Ja
      else En
  }

  /** A saved locale is honoured exactly when it is one of the three codes. */
  lemma SavedLocaleHonoured(saved: string, browserLang: string)
    ensures (exists l :: Code(l) == saved && DetectLocale(Some(saved), browserLang) == l)
        <==> Supported(saved).Some?
  {
    if Supported(saved).Some? {
      var l := Supported(saved).value;
      assert Code(l) == saved && DetectLocale(Some(saved), browserLang) == l;
    }
  }

  /** Upper-case browser tags are recognised: `zh-CN` and `ZH-tw` both give `zh`. */
  lemma BrowserTagCaseInsensitive(rest: string)
    ensures DetectLocale(None, "ZH" + rest) == Zh && DetectLocale(None, "Zh" + rest) == Zh
    ensures DetectLocale(None, "JA" + rest) == Ja
  {
    assert ToLower("ZH" + rest)[..2] == "zh";
    assert ToLower("Zh" + rest)[..2] == "zh";
    assert ToLower("JA" + rest)[..2] == "ja";
  }
}
