/**
 * The `Language` enumeration and the language context, which holds only the
 * most recently detected language.
 */
module Languages {
  import opened Wrappers
  import opened TextCase

  datatype Language = English | Arabic | Hindi | Tagalog | Urdu | German | Unknown

  /** The string each member stands for. */
  function Value(l: Language): string {
    match l
    case English => "english"
    case Arabic => "arabic"
    case Hindi => "hindi"
    case Tagalog => "tagalog"
    case Urdu => "urdu"
    case German => "german"
    case Unknown => "unknown"
  }

  const AllLanguages: seq<Language> := [English, Arabic, Hindi, Tagalog, Urdu, German, Unknown]

  /** The member whose string value is `s`, if any. */
  function FromValue(s: string): (r: Option<Language>)
    ensures r.Some? ==> Value(r.value) == s
    ensures r.None? ==> forall l: Language :: Value(l) != s
  {
    if s == "english" then Some(English)
    else if s == "arabic" then Some(Arabic)
    else if s == "hindi" then Some(Hindi)
    else if s == "tagalog" then Some(Tagalog)
    else if s == "urdu" then Some(Urdu)
    else if s == "german" then Some(German)
    else if s == "unknown" then Some(Unknown)
    else None
  }

  /**
   * Seven members, each listed once, with seven distinct string values:
   * the value determines the member.
   */
  lemma AllLanguagesComplete()
    ensures |AllLanguages| == 7
    ensures forall l: Language :: l in AllLanguages
    ensures forall i, j :: 0 <= i < j < |AllLanguages| ==> Value(AllLanguages[i]) != Value(AllLanguages[j])
    ensures forall l: Language :: FromValue(Value(l)) == Some(l)
  {
    forall l: Language
      ensures l in AllLanguages
    {
      match l
      case English => assert AllLanguages[0] == l;
      case Arabic => assert AllLanguages[1] == l;
      case Hindi => assert AllLanguages[2] == l;
      case Tagalog => assert AllLanguages[3] == l;
      case Urdu => assert AllLanguages[4] == l;
      case German => assert AllLanguages[5] == l;
      case Unknown => assert AllLanguages[6] == l;
    }
  }

  /** Every value is already lower-case, so case-folded comparison against a member is plain comparison. */
  lemma ValuesAreLowerCase(l: Language)
    ensures IsLower(Value(l))
    ensures Lower(Value(l)) == Value(l)
  {
    LowerOfLower(Value(l));
  }

  /** Case-folded equality with a member's value holds exactly when the folded text is that value. */
  lemma FoldedMatch(spoken: string, l: Language)
    ensures Lower(spoken) == Lower(Value(l)) <==> Lower(spoken) == Value(l)
  {
    ValuesAreLowerCase(l);
  }

  /** The context's state: the detected language, and nothing else. */
  datatype LanguageContextState = LanguageContextState(detectedLanguage: Language)

  function InitialLanguageContext(): (c: LanguageContextState)
    ensures c.detectedLanguage == Unknown
  {
    LanguageContextState(Unknown)
  }

  function SetDetectedLanguage(c: LanguageContextState, l: Language): (r: LanguageContextState)
    ensures r.detectedLanguage == l
  {
    c.(detectedLanguage := l)
  }
}
