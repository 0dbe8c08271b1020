/** The `useI18n` hook of src/hooks/useI18n.tsx: the `language` state, the
    mount effect that adopts a saved language, `toggleLanguage` and `t`. */
module UseI18n {
  import opened Wrappers
  import opened Locale
  import opened Translation

  /** The state one `useI18n()` call works on: its `language` state, the
      browser's string store and the module-level `translations` object. */
  class I18nHook {
    var language: Language
    var saved: map<string, string>
    var translations: Catalog

    /** `useState<Language>('en')`. */
    constructor (saved: map<string, string>, translations: Catalog)
      ensures language == En
      ensures this.saved == saved && this.translations == translations
    {
      language := En;
      this.saved := saved;
      this.translations := translations;
    }

    /** The mount effect: a saved "en" or "ar" is adopted; anything else,
        and an empty store, leaves the language as it is. */
    method AdoptSavedLanguage()
      modifies this
      ensures language == SavedLanguage(old(saved)).GetOr(old(language))
      ensures saved == old(saved) && translations == old(translations)
    {
      var stored := SavedLanguage(saved);
      if stored.Some? {
        language := stored.value;
      }
    }

    /** The locale files arrive and replace the module-level object. */
    method LoadTranslations(loaded: Catalog)
      modifies this
      ensures translations == loaded
      ensures language == old(language) && saved == old(saved)
    {
      translations := loaded;
    }

    /** `toggleLanguage`: switch between English and Arabic and persist the
        new choice, so that the next mount adopts it. */
    method ToggleLanguage()
      modifies this
      ensures language == Toggle(old(language))
      ensures saved == old(saved)[LanguageKey := Code(language)]
      ensures SavedLanguage(saved) == Some(language)
      ensures translations == old(translations)
    {
      var newLanguage := Toggle(language);
      language := newLanguage;
      saved := saved[LanguageKey := Code(newLanguage)];
      SavedLanguageRoundTrip(old(saved), newLanguage);
    }

    /** `t(key, replacements)` in the current language. The provider in
        LanguageProvider.tsx keeps its own copy of this function, so the
        provider class carries its own `T` as well. */
    method T(key: string, replacements: seq<(string, string)>) returns (r: string)
      ensures r == Translate(translations, language, key, replacements)
    {
      r := Resolve(translations, language, key, replacements);
    }
  }
}
