/**
 * Interface-text translation with fallbacks: the requested language's entry, else the English
 * one, else the key itself. The translation table (language code to key to text) is a parameter;
 * its contents are data.
 */
module Translations {

  type Table = map<string, map<string, string>>

  /** A present, non-empty entry: JavaScript treats an empty string like a missing one. */
  predicate HasEntry(table: Table, language: string, key: string)
  {
    language in table && key in table[language] && table[language][key] != ""
  }

  /** The language to use: the one requested, else the stored one, else English. */
  function CurrentLanguage(requested: string, stored: string): (l: string)
    ensures requested != "" ==> l == requested
    ensures requested == "" && stored != "" ==> l == stored
    ensures requested == "" && stored == "" ==> l == "en"
    ensures l != ""
  {
    if requested != "" then requested else if stored != "" then stored else "en"
  }

  function TranslateKey(table: Table, key: string, language: string): (t: string)
    ensures HasEntry(table, language, key) ==> t == table[language][key]
    ensures !HasEntry(table, language, key) && HasEntry(table, "en", key) ==> t == table["en"][key]
    ensures !HasEntry(table, language, key) && !HasEntry(table, "en", key) ==> t == key
    ensures key != "" ==> t != ""
  {
    if HasEntry(table, language, key) then table[language][key]
    else if HasEntry(table, "en", key) then table["en"][key]
    else key
  }

  /** A language the table does not know behaves exactly like English. */
  lemma UnknownLanguageFallsBackToEnglish(table: Table, key: string, language: string)
    requires language !in table
    ensures TranslateKey(table, key, language) == TranslateKey(table, key, "en")
  {
  }

  /** The result is always one of the table's texts for the key, or the key itself. */
  lemma TranslationComesFromTableOrKey(table: Table, key: string, language: string)
    ensures var t := TranslateKey(table, key, language);
      t == key || exists l :: l in table && key in table[l] && table[l][key] == t
  {
    var t := TranslateKey(table, key, language);
    if HasEntry(table, language, key) {
      assert language in table && key in table[language] && table[language][key] == t;
    } else if HasEntry(table, "en", key) {
      assert "en" in table && key in table["en"] && table["en"][key] == t;
    }
  }
}
