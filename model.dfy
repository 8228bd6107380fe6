/**
 * The option enumerations of the demo (src/model.rs): the grammatical types
 * and dictionary languages a user may pick, with the names shown in the menus
 * and the identifiers used as path segments of the word API, and the `Word`
 * record the API returns.
 */
module Model {
  import opened Strings

  datatype GrammaticalType = Random | Noun | Verb | Adjective | Adverb

  /** Rust's implicit discriminant: the variant's position in the declaration. */
  function Ordinal(t: GrammaticalType): (n: nat)
    ensures n < 5
  {
    match t
    case Random => 0
    case Noun => 1
    case Verb => 2
    case Adjective => 3
    case Adverb => 4
  }

  /** The name shown in the menu: a capitalised word. */
  function TypeName(t: GrammaticalType): (r: string)
    ensures |r| > 0 && 'A' <= r[0] <= 'Z'
    ensures IsLowerIdent(r[1..])
  {
    match t
    case Random => "Random"
    case Noun => "Noun"
    case Verb => "Verb"
    case Adjective => "Adjective"
    case Adverb => "Adverb"
  }

  /** The API path segment: the menu name, lower-cased. */
  function ApiName(t: GrammaticalType): (r: string)
    ensures IsLowerIdent(r)
    ensures r == Lower(TypeName(t))
  {
    match t
    case Random => "random"
    case Noun => "noun"
    case Verb => "verb"
    case Adjective => "adjective"
    case Adverb => "adverb"
  }

  /** Every variant, each once, in declaration order. */
  function AllTypes(): (r: seq<GrammaticalType>)
    ensures |r| == 5
    ensures forall i :: 0 <= i < |r| ==> Ordinal(r[i]) == i
  {
    [Random, Noun, Verb, Adjective, Adverb]
  }

  /** `Display` for a grammatical type writes its API name. */
  function DisplayType(t: GrammaticalType): (r: string)
    ensures IsLowerIdent(r)
    ensures r == Lower(TypeName(t))
  {
    ApiName(t)
  }

  datatype LanguageCode = English

  /** The dictionary language's code, the API path segment. */
  function Code(l: LanguageCode): (r: string)
    ensures IsLowerIdent(r) && |r| == 2
  {
    match l
    case English => "en"
  }

  /** The language's name shown in the menu. */
  function LanguageName(l: LanguageCode): (r: string)
    ensures |r| > 0 && 'A' <= r[0] <= 'Z'
  {
    match l
    case English => "English"
  }

  /** The country whose flag icon stands for the language. */
  function FlagCode(l: LanguageCode): (r: string)
    ensures IsLowerIdent(r) && |r| == 2
  {
    match l
    case English => "us"
  }

  /** Every language, in declaration order. */
  function AllLanguages(): (r: seq<LanguageCode>)
    ensures forall l :: l in r
    ensures |r| == 1
  {
    var r := [English];
    assert forall l :: l in r by { forall l ensures l in r { assert l == English; } }
    r
  }

  /** `Display` for a language writes its code. */
  function DisplayLanguage(l: LanguageCode): (r: string)
    ensures IsLowerIdent(r) && Lower(r) == r
  {
    LowerFixesIdent(Code(l));
    Code(l)
  }

  datatype Word = Word(word: string, definition: string, pronunciation: string)

  /** The derived `Default`: every field empty. */
  function DefaultWord(): (w: Word)
    ensures w.word == [] && w.definition == [] && w.pronunciation == []
  {
    Word("", "", "")
  }

  /** The ordinal tells the variants apart. */
  lemma OrdinalInjective(a: GrammaticalType, b: GrammaticalType)
    ensures Ordinal(a) == Ordinal(b) ==> a == b
  {
  }

  /** `AllTypes` lists every variant exactly once. */
  lemma AllTypesOnce(t: GrammaticalType)
    ensures multiset(AllTypes())[t] == 1
  {
    var r := AllTypes();
    assert r == [r[0]] + [r[1]] + [r[2]] + [r[3]] + [r[4]];
    assert multiset(r) == multiset{r[0], r[1], r[2], r[3], r[4]};
    assert Ordinal(r[Ordinal(t)]) == Ordinal(t);
    OrdinalInjective(r[Ordinal(t)], t);
  }

  /** Distinct variants have distinct menu names and distinct API names. */
  lemma NamesInjective(a: GrammaticalType, b: GrammaticalType)
    requires a != b
    ensures TypeName(a) != TypeName(b)
    ensures ApiName(a) != ApiName(b)
  {
  }

  /** The API names, and the language codes, are valid path segments. */
  lemma PathSegmentsHaveNoSlash(t: GrammaticalType, l: LanguageCode)
    ensures '/' !in ApiName(t) && Lower(ApiName(t)) == ApiName(t)
    ensures '/' !in Code(l) && Lower(Code(l)) == Code(l)
  {
    LowerFixesIdent(ApiName(t));
    LowerFixesIdent(Code(l));
  }
}
