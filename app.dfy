/**
 * The word-fetch flow of the demo (src/app.rs): building the request URI,
 * turning the response into a word or an error message, the two result
 * cells the `Demo` component updates, and the choice of what it shows.
 *
 * The HTTP GET and the JSON decoding are abstracted as `server`, which maps
 * the request URI to what came back.
 */
module App {
  import opened Wrappers
  import opened Strings
  import opened Model

  /** What the GET plus the decode of the body as a list of words produced. */
  datatype Outcome =
    | TransportErr(msg: string)
    | DecodeErr(msg: string)
    | Decoded(words: seq<Word>)

  const NoWordsMessage: string := "No words found in response"
  const ParsePrefix: string := "Failed to parse JSON: "

  /** `{base}/{lang}/{type}` with both selectors lower-cased. */
  function Uri(base: string, dictLang: string, wordType: string): (r: string)
    ensures '/' !in dictLang && '/' !in wordType ==>
      Segments(r) == Segments(base) + [Lower(dictLang), Lower(wordType)]
    ensures |base| < |r| && r[..|base|] == base
  {
    LowerKeepsSlash(dictLang);
    LowerKeepsSlash(wordType);
    var r := base + "/" + Lower(dictLang) + "/" + Lower(wordType);
    if '/' !in dictLang && '/' !in wordType then
      SegmentsOfPath(base, Lower(dictLang), Lower(wordType));
      r
    else
      r
  }

  /** `get_word`: the first decoded word, or a message saying why there is none. */
  function GetWord(base: string, dictLang: string, wordType: string, server: string -> Outcome): (r: Result<Word, string>)
    ensures var o := server(Uri(base, dictLang, wordType));
      && (r.Ok? <==> o.Decoded? && |o.words| > 0)
      && (r.Ok? ==> r.value == o.words[0])
      && (o.TransportErr? ==> r == Err(o.msg))
      && (o.Decoded? && o.words == [] ==> r == Err(NoWordsMessage))
      && (o.DecodeErr? ==> r == Err(ParsePrefix + o.msg))
  {
    match server(Uri(base, dictLang, wordType))
    case TransportErr(e) => Err(e)
    case Decoded(words) =>
      if |words| > 0 then Ok(words[0]) else Err(NoWordsMessage)
    case DecodeErr(e) => Err(ParsePrefix + e)
  }

  /** The URI the demo requests: its selection's code and API name, unchanged by lower-casing. */
  lemma RequestUri(base: string, lang: LanguageCode, t: GrammaticalType)
    ensures '/' !in Code(lang) && '/' !in ApiName(t)
    ensures Uri(base, Code(lang), ApiName(t)) == base + "/" + Code(lang) + "/" + ApiName(t)
    ensures Segments(Uri(base, Code(lang), ApiName(t))) == Segments(base) + [Code(lang), ApiName(t)]
  {
    PathSegmentsHaveNoSlash(t, lang);
  }

  /** Only the first decoded word matters; the rest of the list is ignored. */
  lemma FirstWordWins(base: string, dictLang: string, wordType: string, w: Word, rest: seq<Word>, server: string -> Outcome)
    requires server(Uri(base, dictLang, wordType)) == Decoded([w] + rest)
    ensures GetWord(base, dictLang, wordType, server) == Ok(w)
  {
  }

  /** A server answering `/en/noun` with one cat gives the demo that cat. */
  lemma NounExample(base: string, server: string -> Outcome)
    requires server(base + "/en/noun") == Decoded([Word("cat", "a feline", "/k\U{e6}t/")])
    ensures GetWord(base, Code(English), ApiName(Noun), server) == Ok(Word("cat", "a feline", "/k\U{e6}t/"))
  {
    RequestUri(base, English, Noun);
    assert base + "/" + "en" + "/" + "noun" == base + "/en/noun";
  }

  /** The two result cells of the demo. */
  datatype ResultState = ResultState(wordData: Option<Word>, error: Option<string>)

  const Initial := ResultState(None, None)

  /** What happens to the cells: a fetch starts, or one resolves. */
  datatype Event = Start | Resolved(result: Result<Word, string>)

  /** Starting clears the error; success sets the word; failure sets the error. */
  function Step(s: ResultState, e: Event): ResultState {
    match e
    case Start => s.(error := None)
    case Resolved(Ok(w)) => s.(wordData := Some(w))
    case Resolved(Err(m)) => s.(error := Some(m))
  }

  /** Events applied in order, whether or not the fetches overlap. */
  function Run(s: ResultState, events: seq<Event>): ResultState
    decreases |events|
  {
    if events == [] then s else Run(Step(s, events[0]), events[1..])
  }

  /** One fetch that starts and resolves before the next one starts. */
  function Fetch(s: ResultState, r: Result<Word, string>): ResultState {
    Step(Step(s, Start), Resolved(r))
  }

  /** Fetches one after another, with the given results. */
  function Fetches(s: ResultState, results: seq<Result<Word, string>>): ResultState
    decreases |results|
  {
    if results == [] then s else Fetches(Fetch(s, results[0]), results[1..])
  }

  /** The word of the last successful result, or `init` if none succeeded. */
  function LastSuccess(results: seq<Result<Word, string>>, init: Option<Word>): Option<Word>
    decreases |results|
  {
    if results == [] then init
    else match results[|results| - 1]
      case Ok(w) => Some(w)
      case Err(_) => LastSuccess(results[..|results| - 1], init)
  }

  /** What the demo shows. */
  datatype Display = ShowError(message: string) | ShowWord(word: Word) | Fallback

  /** The render match over `(error, word_data)`: an error wins, then the word, else the fallback alert. */
  function Render(error: Option<string>, wordData: Option<Word>): (d: Display)
    ensures d.ShowError? <==> error.Some?
    ensures error.Some? ==> d.message == error.value
    ensures d.ShowWord? <==> error.None? && wordData.Some?
    ensures d.ShowWord? ==> d.word == wordData.value
    ensures d.Fallback? <==> error.None? && wordData.None?
  {
    match (error, wordData)
    case (Some(err), _) => ShowError(err)
    case (None, Some(word)) => ShowWord(word)
    case (None, None) => Fallback
  }

  /** Once a word is held it is never dropped, however the events interleave. */
  lemma {:induction false} WordNeverCleared(s: ResultState, events: seq<Event>)
    requires s.wordData.Some?
    ensures Run(s, events).wordData.Some?
    decreases |events|
  {
    if events != [] {
      WordNeverCleared(Step(s, events[0]), events[1..]);
    }
  }

  /** A word held after a run was held before it or came from a successful resolution. */
  lemma {:induction false} WordComesFromSuccess(s: ResultState, events: seq<Event>)
    ensures var w := Run(s, events).wordData;
      w == s.wordData || (w.Some? && Resolved(Ok(w.value)) in events)
    decreases |events|
  {
    if events != [] {
      WordComesFromSuccess(Step(s, events[0]), events[1..]);
    }
  }

  /** Sequential fetches are the run of their start and resolve events. */
  function FetchEvents(results: seq<Result<Word, string>>): seq<Event>
    decreases |results|
  {
    if results == [] then [] else [Start, Resolved(results[0])] + FetchEvents(results[1..])
  }

  lemma {:induction false} FetchesAreRuns(s: ResultState, results: seq<Result<Word, string>>)
    ensures Fetches(s, results) == Run(s, FetchEvents(results))
    decreases |results|
  {
    if results != [] {
      var evs := FetchEvents(results);
      assert evs[0] == Start && evs[1..][0] == Resolved(results[0]);
      assert evs[1..][1..] == FetchEvents(results[1..]);
      FetchesAreRuns(Fetch(s, results[0]), results[1..]);
    }
  }

  /** Fetching one more result is a last step after the others. */
  lemma {:induction false} FetchesSnoc(s: ResultState, results: seq<Result<Word, string>>, r: Result<Word, string>)
    ensures Fetches(s, results + [r]) == Fetch(Fetches(s, results), r)
    decreases |results|
  {
    if results == [] {
      assert [] + [r] == [r];
    } else {
      assert (results + [r])[1..] == results[1..] + [r];
      FetchesSnoc(Fetch(s, results[0]), results[1..], r);
    }
  }

  /** After sequential fetches the held word is the last one fetched successfully. */
  lemma {:induction false} WordIsLastSuccess(s: ResultState, results: seq<Result<Word, string>>)
    ensures Fetches(s, results).wordData == LastSuccess(results, s.wordData)
    decreases |results|
  {
    if results != [] {
      var n := |results| - 1;
      assert results == results[..n] + [results[n]];
      FetchesSnoc(s, results[..n], results[n]);
      WordIsLastSuccess(s, results[..n]);
    }
  }

  /** After at least one sequential fetch the error is that of the last fetch, if it failed. */
  lemma {:induction false} ErrorIsLastFailure(s: ResultState, results: seq<Result<Word, string>>)
    requires results != []
    ensures var last := results[|results| - 1];
      Fetches(s, results).error == if last.Err? then Some(last.error) else None
  {
    var n := |results| - 1;
    assert results == results[..n] + [results[n]];
    FetchesSnoc(s, results[..n], results[n]);
  }

  /** After at least one sequential fetch the demo shows exactly the last fetch's outcome. */
  lemma ShowsLastOutcome(s: ResultState, results: seq<Result<Word, string>>)
    requires results != []
    ensures var last := results[|results| - 1];
      var f := Fetches(s, results);
      Render(f.error, f.wordData) == match last
        case Ok(w) => ShowWord(w)
        case Err(m) => ShowError(m)
  {
    var n := |results| - 1;
    assert results == results[..n] + [results[n]];
    FetchesSnoc(s, results[..n], results[n]);
  }

  /** From the initial cells, the fallback alert is shown between sequential fetches exactly when none has happened yet. */
  lemma FallbackOnlyBeforeFirstFetch(results: seq<Result<Word, string>>)
    ensures var f := Fetches(Initial, results);
      Render(f.error, f.wordData).Fallback? <==> results == []
  {
    if results != [] {
      ShowsLastOutcome(Initial, results);
    }
  }

  /**
   * The fallback alert is also what shows while the first fetch is in flight,
   * and again when a fetch starts after the only fetches so far have failed.
   */
  lemma FallbackWhileInFlight(m: string)
    ensures var f := Run(Initial, [Start]);
      Render(f.error, f.wordData) == Fallback
    ensures var f := Run(Initial, [Start, Resolved(Err(m)), Start]);
      Render(f.error, f.wordData) == Fallback
  {
    assert [Start][1..] == [];
    var evs := [Start, Resolved(Err(m)), Start];
    var failed := Step(Step(Initial, Start), Resolved(Err(m)));
    assert evs[1..] == [Resolved(Err(m)), Start] && evs[1..][1..] == [Start];
    assert Run(Initial, evs) == Run(failed, [Start]);
    assert Run(failed, [Start]) == Step(failed, Start);
  }

  /** A success then a failure leaves both cells set: the stale word stays beside the error. */
  lemma StaleWordBesideError(w: Word, m: string)
    ensures var f := Fetches(Initial, [Ok(w), Err(m)]);
      f.wordData == Some(w) && f.error == Some(m) && Render(f.error, f.wordData) == ShowError(m)
  {
    var s1 := Fetch(Initial, Ok(w));
    assert [Ok(w), Err(m)][1..] == [Err(m)];
    assert Fetches(Initial, [Ok(w), Err(m)]) == Fetches(s1, [Err(m)]);
    assert Fetches(s1, [Err(m)]) == Fetches(Fetch(s1, Err(m)), []);
  }

  /**
   * Two overlapping fetches where the earlier one fails last-but-one and the
   * later one succeeds last: the earlier failure outlives the later success,
   * and the page shows the error.
   */
  lemma EarlierErrorOutlivesLaterSuccess(w: Word, m: string)
    ensures var f := Run(Initial, [Start, Start, Resolved(Err(m)), Resolved(Ok(w))]);
      f == ResultState(Some(w), Some(m)) && Render(f.error, f.wordData) == ShowError(m)
  {
    var evs := [Start, Start, Resolved(Err(m)), Resolved(Ok(w))];
    assert evs[1..] == [Start, Resolved(Err(m)), Resolved(Ok(w))];
    assert evs[1..][1..] == [Resolved(Err(m)), Resolved(Ok(w))];
    assert evs[1..][1..][1..] == [Resolved(Ok(w))];
    assert evs[1..][1..][1..][1..] == [];
    var s1 := Step(Initial, Start);
    var s2 := Step(s1, Start);
    var failed := Step(s2, Resolved(Err(m)));
    assert Run(Initial, evs) == Run(s1, evs[1..]);
    assert Run(s1, evs[1..]) == Run(s2, evs[1..][1..]);
    assert Run(s2, evs[1..][1..]) == Run(failed, [Resolved(Ok(w))]);
    assert Run(failed, [Resolved(Ok(w))]) == Step(failed, Resolved(Ok(w)));
  }

  /** The `Demo` component's result cells, updated in place. */
  class Demo {
    var wordData: Option<Word>
    var error: Option<string>

    ghost function State(): ResultState
      reads this
    {
      ResultState(wordData, error)
    }

    /** Both cells start empty. */
    constructor ()
      ensures State() == Initial
    {
      wordData := None;
      error := None;
    }

    /** Reads the selection, clears the error and returns the URI about to be requested. */
    method StartFetch(base: string, lang: LanguageCode, t: GrammaticalType) returns (uri: string)
      modifies this`error
      ensures error == None && wordData == old(wordData)
      ensures State() == Step(old(State()), Start)
      ensures uri == base + "/" + Code(lang) + "/" + ApiName(t)
    {
      PathSegmentsHaveNoSlash(t, lang);
      var wordType := ApiName(t);
      var dictLang := Code(lang);
      error := None;
      uri := Uri(base, dictLang, wordType);
    }

    /** A fetch succeeded: the word replaces the old one; the error is left as it is. */
    method ResolveOk(w: Word)
      modifies this`wordData
      ensures wordData == Some(w) && error == old(error)
      ensures State() == Step(old(State()), Resolved(Ok(w)))
    {
      wordData := Some(w);
    }

    /** A fetch failed: the error is set; a word already held stays. */
    method ResolveErr(msg: string)
      modifies this`error
      ensures error == Some(msg) && wordData == old(wordData)
      ensures State() == Step(old(State()), Resolved(Err(msg)))
    {
      error := Some(msg);
    }

    /** One whole fetch for the selection, resolved before any other starts. */
    method FetchWord(base: string, lang: LanguageCode, t: GrammaticalType, server: string -> Outcome)
      returns (shown: Display)
      modifies this
      ensures State() == Fetch(old(State()), GetWord(base, Code(lang), ApiName(t), server))
      ensures shown == match GetWord(base, Code(lang), ApiName(t), server)
        case Ok(w) => ShowWord(w)
        case Err(m) => ShowError(m)
    {
      var uri := StartFetch(base, lang, t);
      var r := GetWord(base, Code(lang), ApiName(t), server);
      match r {
        case Ok(w) => ResolveOk(w);
        case Err(m) => ResolveErr(m);
      }
      shown := Render(error, wordData);
    }
  }
}
