/** Static interface strings: a table from language code to a table from
    key to text, looked up in the requested language, then in English,
    then falling back to the key itself. */
module Translations {
  import opened Wrappers

  /** `translations`: language code (`en`, `hi`, `te`, `ta`, `bn`) to
      key to text. */
  type Table = map<string, map<string, string>>

  /** The languages the table carries, English first. */
  const Languages: seq<string> := ["en", "hi", "te", "ta", "bn"]

  /** `table[language][key]` when it is truthy: the language and the key
      exist and the text is non-empty. */
  function Entry(table: Table, language: string, key: string): (r: Option<string>)
    ensures r.Some? <==> language in table && key in table[language] && table[language][key] != ""
    ensures r.Some? ==> r.value == table[language][key]
  {
    if language in table && key in table[language] && table[language][key] != "" then Some(table[language][key])
    else None
  }

  /** `getTranslation`; the language defaults to English. */
  function GetTranslation(table: Table, key: string, language: string := "en"): (r: string)
    ensures Entry(table, language, key).Some? ==> r == Entry(table, language, key).value
    ensures Entry(table, language, key).None? && Entry(table, "en", key).Some? ==> r == Entry(table, "en", key).value
    ensures Entry(table, language, key).None? && Entry(table, "en", key).None? ==> r == key
  {
    match Entry(table, language, key)
    case Some(text) => text
    case None => Entry(table, "en", key).GetOr(key)
  }

  /** `t`, the same lookup under a shorter name. */
  function T(table: Table, key: string, language: string := "en"): (r: string)
    ensures r == GetTranslation(table, key, language)
  {
    GetTranslation(table, key, language)
  }

  /** The result is the requested language's text, the English text, or
      the key; it is empty only for an empty key. */
  lemma TranslationSource(table: Table, key: string, language: string)
    ensures var r := GetTranslation(table, key, language);
            || (language in table && key in table[language] && r == table[language][key])
            || ("en" in table && key in table["en"] && r == table["en"][key])
            || r == key
    ensures GetTranslation(table, key, language) == "" ==> key == ""
  {
  }

  /** Asking for a language the table lacks, or a key the language lacks,
      is the same as asking in English. */
  lemma FallsBackToEnglish(table: Table, key: string, language: string)
    requires language !in table || key !in table[language]
    ensures GetTranslation(table, key, language) == GetTranslation(table, key)
  {
  }

  /** Omitting the language means English. */
  lemma DefaultIsEnglish(table: Table, key: string)
    ensures T(table, key) == GetTranslation(table, key, "en")
    ensures T(table, key) == T(table, key, "en")
  {
  }

  /** A key English lacks is shown as itself in every language that also
      lacks it. */
  lemma MissingKeyIsShownAsKey(table: Table, key: string, language: string)
    requires "en" !in table || key !in table["en"]
    requires language !in table || key !in table[language]
    ensures GetTranslation(table, key, language) == key
  {
  }

  /** A few rows of the table: `dashboard` and `schemes` in English and
      Hindi, and a Hindi entry left empty. */
  const Sample: Table := map[
    "en" := map["dashboard" := "Dashboard", "schemes" := "Schemes", "logout" := "Logout"],
    "hi" := map["dashboard" := "डैशबोर्ड", "schemes" := "योजनाएं", "logout" := ""]]

  lemma SampleLookups()
    ensures T(Sample, "dashboard", "hi") == "डैशबोर्ड"
    ensures T(Sample, "dashboard", "ta") == "Dashboard"
    ensures T(Sample, "logout", "hi") == "Logout"
    ensures T(Sample, "unknownKey", "hi") == "unknownKey"
  {
    assert "logout" in Sample["hi"] && Sample["hi"]["logout"] == "";
  }
}
