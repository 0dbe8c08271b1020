/** The two interface languages and the helpers both language hooks share. */
module Locale {
  import opened Wrappers

  datatype Language = En | Ar

  /** The storage key under which both hooks persist the chosen language. */
  const LanguageKey: string := "ux-analyzer-language"

  /** The language code as it is written to storage. */
  function Code(l: Language): string {
    match l
    case En => "en"
    case Ar => "ar"
  }

  /** A stored code is accepted only when it is exactly "en" or "ar". */
  function FromCode(s: string): (r: Option<Language>)
    ensures r.Some? <==> (s == "en" || s == "ar")
    ensures r.Some? ==> Code(r.value) == s
  {
    if s == "en" then Some(En)
    else if s == "ar" then Some(Ar)
    else None
  }

  lemma CodeRoundTrip(l: Language)
    ensures FromCode(Code(l)) == Some(l)
  {
  }

  /** `language === 'en' ? 'ar' : 'en'`. */
  function Toggle(l: Language): (r: Language)
    ensures r != l
  {
    if l == En then Ar else En
  }

  lemma ToggleTwice(l: Language)
    ensures Toggle(Toggle(l)) == l
  {
  }

  /** The document direction: right-to-left exactly for Arabic. */
  function Direction(l: Language): (r: string)
    ensures r == "rtl" <==> l == Ar
    ensures r == "ltr" <==> l == En
  {
    match l
    case Ar => "rtl"
    case En => assert "ltr"[0] != "rtl"[0]; "ltr"
  }

  /** The language a string store holds under `LanguageKey`, if it holds an
      accepted code there. */
  function SavedLanguage(saved: map<string, string>): (r: Option<Language>)
    ensures r.Some? <==> LanguageKey in saved && (saved[LanguageKey] == "en" || saved[LanguageKey] == "ar")
  {
    if LanguageKey in saved then FromCode(saved[LanguageKey]) else None
  }

  /** A language written under `LanguageKey` is the one read back. */
  lemma SavedLanguageRoundTrip(saved: map<string, string>, l: Language)
    ensures SavedLanguage(saved[LanguageKey := Code(l)]) == Some(l)
  {
    CodeRoundTrip(l);
  }
}
