/** The `LanguageProvider` context of src/context/LanguageProvider.tsx: the
    language and translations state, its three effects, `toggleLanguage`
    and `t`. */
module LanguageProvider {
  import opened Wrappers
  import opened Locale
  import opened Translation

  /** What `localStorage.getItem` gives for a key: "" for a missing entry,
      which `!savedLanguage` treats alike. */
  function StoredOrEmpty(saved: map<string, string>, key: string): string {
    if key in saved then saved[key] else ""
  }

  /** The provider's state, the browser's string store and the `dir`
      attribute of the document element. */
  class Provider {
    var language: Language
    var translations: Catalog
    var saved: map<string, string>
    var direction: string

    /** `useState("en")` and empty translation trees; the document keeps
        whatever direction it had. */
    constructor (saved: map<string, string>, direction: string)
      ensures language == En && translations == EmptyCatalog
      ensures this.saved == saved && this.direction == direction
    {
      language := En;
      translations := EmptyCatalog;
      this.saved := saved;
      this.direction := direction;
    }

    /** The first effect: with nothing saved, "en" is written and used; a
        saved "en" or "ar" is adopted; any other value is ignored. */
    method InitLanguage()
      modifies this
      ensures StoredOrEmpty(old(saved), LanguageKey) == "" ==>
                saved == old(saved)[LanguageKey := "en"] && language == En
      ensures StoredOrEmpty(old(saved), LanguageKey) != "" ==>
                saved == old(saved) && language == SavedLanguage(old(saved)).GetOr(old(language))
      ensures LanguageKey in saved
      ensures translations == old(translations) && direction == old(direction)
    {
      var savedLanguage := StoredOrEmpty(saved, LanguageKey);
      if savedLanguage == "" {
        saved := saved[LanguageKey := "en"];
        savedLanguage := "en";
      }
      var adopted := FromCode(savedLanguage);
      if adopted.Some? {
        language := adopted.value;
      }
    }

    /** The second effect, run on every language change. */
    method ApplyDirection()
      modifies this
      ensures direction == Direction(language)
      ensures direction == "rtl" <==> language == Ar
      ensures language == old(language) && translations == old(translations) && saved == old(saved)
    {
      direction := Direction(language);
    }

    /** The third effect: the locale files arrive. */
    method LoadTranslations(loaded: Catalog)
      modifies this
      ensures translations == loaded
      ensures language == old(language) && saved == old(saved) && direction == old(direction)
    {
      translations := loaded;
    }

    /** `toggleLanguage`: flip the language and persist it. */
    method ToggleLanguage()
      modifies this
      ensures language == Toggle(old(language))
      ensures saved == old(saved)[LanguageKey := Code(language)]
      ensures SavedLanguage(saved) == Some(language)
      ensures translations == old(translations) && direction == old(direction)
    {
      var newLanguage := Toggle(language);
      language := newLanguage;
      saved := saved[LanguageKey := Code(newLanguage)];
      SavedLanguageRoundTrip(old(saved), newLanguage);
    }

    /** `t(key, replacements)` in the current language. */
    method T(key: string, replacements: seq<(string, string)>) returns (r: string)
      ensures r == Translate(translations, language, key, replacements)
    {
      r := Resolve(translations, language, key, replacements);
    }
  }
}
