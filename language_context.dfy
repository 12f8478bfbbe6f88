/**
 * The language provider of contexts/language-context.tsx: the chosen
 * language as React state, its restoration from the saved settings on
 * mount, and the flat translation function `t(key)`, which looks the key
 * up in the table of the current language and falls back to the key
 * itself (never to English).
 */
module LanguageContext {
  import opened Wrappers
  import opened ReactContext
  import Translation

  /** A flat table maps dotted keys to display strings. */
  type FlatTable = map<string, string>

  /** The three values of the `Language` union type. */
  predicate IsLanguage(language: string)
  {
    language == "en" || language == "hi" || language == "raj"
  }

  const OutsideProvider := "useLanguage must be used within a LanguageProvider"

  /**
   * `translations[language][key] || key`. Indexing with a language that has
   * no table reads a property of `undefined` and throws: that is `None`.
   * An entry that is missing or the empty string (falsy) gives the key.
   */
  function FlatLookup(tables: map<string, FlatTable>, language: string, key: string): (r: Option<string>)
    ensures r.None? <==> language !in tables
    ensures language in tables && key in tables[language] && tables[language][key] != "" ==>
              r == Some(tables[language][key])
    ensures language in tables && (key !in tables[language] || tables[language][key] == "") ==>
              r == Some(key)
  {
    if language !in tables then None
    else if key in tables[language] && tables[language][key] != "" then Some(tables[language][key])
    else Some(key)
  }

  /** A result is the key or a non-empty entry of the current language, never a string from another table. */
  lemma FlatLookupIsKeyOrOwnEntry(tables: map<string, FlatTable>, language: string, key: string)
    requires language in tables
    ensures var r := FlatLookup(tables, language, key).value;
            r == key || (key in tables[language] && tables[language][key] == r && r != "")
  {
  }

  /** Each language of the union type has a table, so `t` never throws for it. */
  lemma LanguagesAreTotal(language: string, key: string)
    requires IsLanguage(language)
    ensures FlatLookup(Tables, language, key).Some?
  {
    assert language in Tables;
  }

  // An excerpt of the three flat tables: the status, problem type and
  // priority entries the dashboard builds keys for, and the profile title.

  const En: FlatTable := map[
    "status.pending" := "pending",
    "status.inProgress" := "in progress",
    "status.resolved" := "resolved",
    "priority.high" := "high",
    "priority.medium" := "medium",
    "priority.low" := "low",
    "priority.priority" := "Priority",
    "problemType.potholes" := "Potholes",
    "problemType.streetlights" := "Streetlights",
    "problemType.garbage" := "Garbage",
    "problemType.waterIssues" := "Water Issues",
    "problemType.other" := "Other",
    "profile.title" := "Profile Information"
  ]

  const Hi: FlatTable := map[
    "status.pending" := "लंबित",
    "status.inProgress" := "प्रगति में",
    "status.resolved" := "हल की गई",
    "priority.high" := "उच्च",
    "priority.medium" := "मध्यम",
    "priority.low" := "कम",
    "priority.priority" := "प्राथमिकता",
    "problemType.potholes" := "गड्ढे",
    "problemType.streetlights" := "स्ट्रीट लाइट",
    "problemType.garbage" := "कचरा",
    "problemType.waterIssues" := "पानी की समस्याएं",
    "problemType.other" := "अन्य",
    "profile.title" := "प्रोफ़ाइल जानकारी"
  ]

  /** The Rajasthani table has no profile entries. */
  const Raj: FlatTable := map[
    "status.pending" := "लंबित",
    "status.inProgress" := "प्रगति में",
    "status.resolved" := "हल होई",
    "priority.high" := "उच्च",
    "priority.medium" := "मध्यम",
    "priority.low" := "कम",
    "priority.priority" := "प्राथमिकता",
    "problemType.potholes" := "गड्ढे",
    "problemType.streetlights" := "स्ट्रीट लाइट",
    "problemType.garbage" := "कचरा",
    "problemType.waterIssues" := "पानी की समस्याएं",
    "problemType.other" := "अन्य"
  ]

  const Tables: map<string, FlatTable> := map["en" := En, "hi" := Hi, "raj" := Raj]

  /**
   * Unlike the static `t` of utils/translation.ts, the flat lookup does not
   * fall back to English: a key missing from the Rajasthani table is shown raw.
   */
  lemma RajProfileTitleIsRaw()
    ensures FlatLookup(Tables, "raj", "profile.title") == Some("profile.title")
    ensures FlatLookup(Tables, "en", "profile.title") == Some("Profile Information")
  {
    assert "profile.title" !in Raj by {
      assert "profile.title" != "status.pending";
    }
  }

  /** React state of the provider: the language, initially English. */
  class LanguageProvider {
    var language: string
    const translations: map<string, FlatTable>

    constructor(translations: map<string, FlatTable>)
      ensures language == "en" && this.translations == translations
    {
      language := "en";
      this.translations := translations;
    }

    /**
     * The mount effect: a saved settings object whose `language` is present
     * and truthy replaces the language; the value is not checked against
     * the union type. Without settings nothing changes.
     */
    method Mount(saved: Option<Translation.SavedSettings>)
      modifies this
      ensures saved.Some? && saved.value.language.Some? && saved.value.language.value != "" ==>
                language == saved.value.language.value
      ensures !(saved.Some? && saved.value.language.Some? && saved.value.language.value != "") ==>
                language == old(language)
    {
      if saved.Some? && saved.value.language.Some? && saved.value.language.value != "" {
        language := saved.value.language.value;
      }
    }

    /** `setLanguage`, typed to the union. */
    method SetLanguage(l: string)
      requires IsLanguage(l)
      modifies this
      ensures language == l
      ensures forall key :: T(key) == FlatLookup(translations, l, key)
    {
      language := l;
    }

    /** `t(key)` of the context value; `None` is the TypeError of a language without a table. */
    function T(key: string): (r: Option<string>)
      reads this
      ensures r.None? <==> language !in translations
    {
      FlatLookup(translations, language, key)
    }
  }

  /** A provider over the real tables stays total as long as only `SetLanguage` changes it. */
  method SwitchKeepsTotal(p: LanguageProvider, l: string, key: string) returns (r: string)
    requires p.translations == Tables && IsLanguage(l)
    modifies p
    ensures p.language == l
    ensures p.T(key) == Some(r)
  {
    p.SetLanguage(l);
    LanguagesAreTotal(l, key);
    r := p.T(key).value;
  }

  /**
   * A saved language that is not one of the three makes every `t` call throw:
   * the restored value is never checked.
   */
  method UncheckedSavedLanguage(key: string) returns (p: LanguageProvider)
    ensures p.T(key).None?
  {
    p := new LanguageProvider(Tables);
    p.Mount(Some(Translation.SavedSettings(Some("fr"))));
    assert "fr" !in Tables;
  }

  /** `useLanguage`: the context value, or the error thrown outside a provider. */
  function UseLanguage(context: Option<LanguageProvider>): (r: Result<LanguageProvider>)
    ensures context.None? <==> r == Err(OutsideProvider)
    ensures context.Some? ==> r == Ok(context.value)
  {
    UseContext(context, OutsideProvider)
  }
}
