/**
 * DictionaryInformation: the name and the two languages of a dictionary a
 * provider offers, and the string form listings print.
 */
module DictionaryInformations {

  import opened Errors

  datatype DictionaryInformation = DictionaryInformation(name: string, sourceLanguage: string, targetLanguage: string)
  {
    /** `__toString()`: the name, a space, the source language, " => ", the target language. */
    function ToString(): string {
      name + " " + sourceLanguage + " => " + targetLanguage
    }
  }

  /** The position of the first space in `s`. */
  function FirstSpace(s: string): (r: Option<nat>)
    ensures r.Some? ==> r.value < |s| && s[r.value] == ' ' && forall i :: 0 <= i < r.value ==> s[i] != ' '
    ensures r.None? ==> ' ' !in s
  {
    if s == [] then None
    else if s[0] == ' ' then Some(0)
    else
      match FirstSpace(s[1..])
      case None => None
      case Some(i) => Some(i + 1)
  }

  /**
   * Reads a string form back: the name ends at the first space, the source
   * language at the next one, which must open " => ".
   */
  function Parse(s: string): Option<DictionaryInformation> {
    match FirstSpace(s)
    case None => None
    case Some(i) =>
      match ParseLanguages(s[i + 1..])
      case None => None
      case Some(languages) => Some(DictionaryInformation(s[..i], languages.0, languages.1))
  }

  /** The part after the name: the source language up to the next space, which must open " => ". */
  function ParseLanguages(rest: string): Option<(string, string)> {
    match FirstSpace(rest)
    case None => None
    case Some(j) =>
      if j + 4 <= |rest| && rest[j..j + 4] == " => " then Some((rest[..j], rest[j + 4..])) else None
  }

  /** A space right after a space-free prefix is the first space. */
  lemma {:induction false} FirstSpaceAfter(a: string, b: string)
    requires ' ' !in a && b != [] && b[0] == ' '
    ensures FirstSpace(a + b) == Some(|a|)
  {
    if a != [] {
      assert (a + b)[1..] == a[1..] + b;
      FirstSpaceAfter(a[1..], b);
    }
  }

  lemma LanguagesBack(sourceLanguage: string, targetLanguage: string)
    requires ' ' !in sourceLanguage
    ensures ParseLanguages(sourceLanguage + " => " + targetLanguage) == Some((sourceLanguage, targetLanguage))
  {
    var rest := sourceLanguage + " => " + targetLanguage;
    FirstSpaceAfter(sourceLanguage, " => " + targetLanguage);
    var j := |sourceLanguage|;
    assert rest[j..j + 4] == " => " && rest[..j] == sourceLanguage && rest[j + 4..] == targetLanguage;
  }

  /**
   * The string form keeps all three parts: when neither the name nor the
   * source language holds a space, parsing it gives the information back.
   */
  lemma ParseToString(info: DictionaryInformation)
    requires ' ' !in info.name && ' ' !in info.sourceLanguage
    ensures Parse(info.ToString()) == Some(info)
  {
    var s := info.ToString();
    var languages := info.sourceLanguage + " => " + info.targetLanguage;
    assert s == info.name + (" " + languages);
    FirstSpaceAfter(info.name, " " + languages);
    assert s[|info.name| + 1..] == languages && s[..|info.name|] == info.name;
    LanguagesBack(info.sourceLanguage, info.targetLanguage);
  }
}
