/** The shared vocabulary of the application: the supported languages, the
    shape of a translation result, and a small string helper. */
module Types {
  import opened Wrappers

  /** The thirteen target languages offered to the user. */
  datatype Language =
    | English | Spanish | French | German | Italian | Chinese | Japanese
    | Korean | Russian | Portuguese | Hindi | Arabic | Vietnamese

  /** The string value of each enum member, as it appears in storage keys,
      prompts and messages. */
  function LanguageName(l: Language): (name: string)
    ensures |name| > 0
  {
    match l
    case English => "English"
    case Spanish => "Spanish"
    case French => "French"
    case German => "German"
    case Italian => "Italian"
    case Chinese => "Chinese (Simplified)"
    case Japanese => "Japanese"
    case Korean => "Korean"
    case Russian => "Russian"
    case Portuguese => "Portuguese"
    case Hindi => "Hindi"
    case Arabic => "Arabic"
    case Vietnamese => "Vietnamese"
  }

  /** Distinct languages have distinct names (their first letters already
      differ), so the storage keys built from them are distinct too. */
  lemma NameInjective(a: Language, b: Language)
    requires LanguageName(a) == LanguageName(b)
    ensures a == b
  {
    assert LanguageName(a)[0] == LanguageName(b)[0];
  }

  /** The language the application starts with. */
  const DefaultLanguage: Language := Vietnamese

  /** What either translation backend yields on success. */
  datatype ScanReply = ScanReply(
    originalText: string,
    translatedText: string,
    detectedLanguage: Option<string>)

  /** `t` occurs in `s` starting at position `i`. */
  predicate OccursAt(s: string, t: string, i: nat)
  {
    i + |t| <= |s| && s[i..i + |t|] == t
  }

  /** `t` is a substring of `s`. */
  predicate Contains(s: string, t: string)
  {
    exists i: nat | i <= |s| :: OccursAt(s, t, i)
  }

  /** A string built as `a + t + b` contains `t`. */
  lemma ContainsMiddle(a: string, t: string, b: string)
    ensures Contains(a + t + b, t)
  {
    var s := a + t + b;
    assert s[|a|..|a| + |t|] == t;
    assert OccursAt(s, t, |a|);
  }
}
