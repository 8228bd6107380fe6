# Random word API demo — verified model

A Dafny model of the logic inside the landing page of the Random Word API
demo, a Leptos front-end. The page fetches one random word, with its
definition and pronunciation, from a REST API and shows it. The user picks
a grammatical type and a dictionary language.

- `Model` (`model.dfy`) models `src/model.rs`. It holds the closed
  enumerations `GrammaticalType` and `LanguageCode`, their menu names, API
  identifiers and flag codes, their `all()` lists and `Display` impls, and
  the `Word` record.
- `App` (`app.dfy`) models `src/app.rs`:
  - `get_word` is `Uri` plus `GetWord`. The HTTP GET and the JSON decode
    become an abstract `server: string -> Outcome`.
  - The `Demo` component's two result signals are the class `Demo`.
    `word_data` and `error` are its fields. `StartFetch`, `ResolveOk` and
    `ResolveErr` are the three writes the `Effect` and `fetch_word` closures
    make. These two closures have the same body, so one method models both.
  - The render match over `(error, word_data)` is `Render`.
- `Step`, `Run` and `Fetches` are the functional specification of the
  result cells. The lemmas about them say what the cells hold after any
  sequence of fetches.
- `Strings` (`strings.dfy`) holds ASCII lower-casing (`to_lowercase`) and
  splitting on `/`. Splitting the whole URI gives its `/`-separated pieces,
  scheme and authority included; the model uses it to say that the last two
  pieces of the request URI are the language and the type.
- `Wrappers` (`wrappers.dfy`) holds Rust's `Option` and `Result`.

A reader might expect a word and an error never to be held together. In
the code, a failed fetch sets `error` and leaves `word_data` alone
(src/app.rs:237-239, src/app.rs:254-256). So after a success and then a
failure, both cells are set. `StaleWordBesideError` exhibits this state.
Render gives the error precedence (src/app.rs:266), so between sequential
fetches the stale word is never shown: `ShowsLastOutcome` proves that after
sequential fetches the page shows exactly the last fetch's outcome.

With overlapping fetches the cells do not follow the last resolution. The
word is the last successful resolution; the error is the last failure since
the latest start. So an earlier failure outlives a later success:
`EarlierErrorOutlivesLaterSuccess` proves that starting A, starting B,
failing A and then succeeding B leaves the page on A's error.

The fallback alert, whose text says it should never appear
(src/app.rs:290-297), is the page's state while the first request is in
flight, and it comes back when a fetch starts after only failures.
`FallbackWhileInFlight` exhibits both states.

## Model

| member | source | states |
|---|---|---|
| Model.Ordinal | src/model.rs:10-22 | each variant's declaration position is below the number of variants (5) |
| Model.TypeName | src/model.rs:25-38 | the menu name is a capital letter followed by lower-case letters |
| Model.ApiName | src/model.rs:40-53 | the API name is non-empty lower-case ASCII and equals the menu name lower-cased |
| Model.NamesInjective | src/model.rs:25-53 | distinct variants have distinct menu names and distinct API names |
| Model.AllTypes | src/model.rs:55-68 | `all()` has five entries, and entry i is the variant declared i-th |
| Model.AllTypesOnce | src/model.rs:55-68 | every variant occurs exactly once in `all()` |
| Model.DisplayType | src/model.rs:71-75 | `Display` writes the lower-cased menu name, a lower-case identifier |
| Model.Code | src/model.rs:88-97 | the language code is two lower-case ASCII letters |
| Model.PathSegmentsHaveNoSlash | src/model.rs:40-97 | API names and language codes contain no `/` and are unchanged by lower-casing |
| Model.LanguageName | src/model.rs:99-108 | the language's menu name starts with a capital letter |
| Model.FlagCode | src/model.rs:110-119 | the flag code is two lower-case ASCII letters |
| Model.AllLanguages | src/model.rs:121-130 | `all()` has exactly one entry, and every language is in it |
| Model.DisplayLanguage | src/model.rs:133-137 | `Display` writes a lower-case identifier that lower-casing leaves unchanged |
| Model.DefaultWord | src/model.rs:139-144 | the derived default word has empty word, definition and pronunciation |
| App.Uri | src/app.rs:8-13 | the URI starts with the base; when neither selector contains `/`, its `/`-separated pieces are the base's followed by the lower-cased language and type |
| App.GetWord | src/app.rs:7-25 | Ok exactly when a non-empty list was decoded, and then the first word; a transport error passes its message through; an empty list gives "No words found in response"; a decode error gives "Failed to parse JSON: " followed by the decoder's message |
| App.RequestUri | src/app.rs:227-233 | for the demo's selection, the URI is base/code/api-name with both segments unchanged, and its last two `/`-separated pieces are exactly those |
| App.FirstWordWins | src/app.rs:16-19 | a decoded list gives its first word whatever follows it |
| App.NounExample | src/app.rs:7-25 | a server answering `{base}/en/noun` with one word makes English/Noun return that word |
| App.Render | src/app.rs:265-300 | an error is shown iff there is one, whatever the word; the word only when there is no error; the fallback alert iff both cells are empty |
| App.WordNeverCleared | src/app.rs:220-257 | once a word is held, no sequence of starts and resolutions drops it, even interleaved |
| App.WordComesFromSuccess | src/app.rs:233-257 | the held word is the initial one or the value of some successful resolution |
| App.FetchesAreRuns | src/app.rs:244-257 | sequential fetches are the run of their start and resolve events |
| App.WordIsLastSuccess | src/app.rs:244-257 | after sequential fetches the word is the last successfully fetched one, or the earlier word if none succeeded |
| App.ErrorIsLastFailure | src/app.rs:244-257 | after one or more sequential fetches the error is the last fetch's message if it failed, and none if it succeeded |
| App.ShowsLastOutcome | src/app.rs:244-300 | after one or more sequential fetches the page shows the last fetch's word or error, never a stale word |
| App.FallbackOnlyBeforeFirstFetch | src/app.rs:220-300 | from empty cells, between sequential fetches, the fallback alert is shown iff no fetch has happened yet |
| App.FallbackWhileInFlight | src/app.rs:227-300 | the fallback alert is shown while the first fetch is in flight, and again when a fetch starts after a failed first fetch |
| App.StaleWordBesideError | src/app.rs:233-266 | a success followed by a failure leaves both cells set, and the error is shown |
| App.EarlierErrorOutlivesLaterSuccess | src/app.rs:244-266 | two overlapping fetches where the earlier fails and the later succeeds last leave both cells set, and the page shows the earlier error |
| App.Demo.constructor | src/app.rs:220-221 | both result cells start empty |
| App.Demo.StartFetch | src/app.rs:244-247 | clears the error, keeps the word, and returns base/code/api-name as the request URI |
| App.Demo.ResolveOk | src/app.rs:250-253 | stores the word and leaves the error as it was |
| App.Demo.ResolveErr | src/app.rs:254-256 | stores the error and leaves a held word in place |
| App.Demo.FetchWord | src/app.rs:244-259 | one fetch run to completion moves the cells by start then resolve, and the page then shows that fetch's word or error |

## Left out

- The HTTP GET (`reqwest::get`) and the serde JSON decode are foreign I/O and library calls. They are the `server` parameter. HTTP status codes are not modelled separately: whatever the body decodes to is the outcome.
- `api_url()`, `REPO_URL` and build.rs read environment variables or are constants. The base URL is a parameter.
- Leptos signals, `Effect::new`, `spawn_local` and context plumbing are reactive and asynchronous scheduling. Each fetch is a `StartFetch` followed later by a `ResolveOk` or `ResolveErr`. `Run` allows any interleaving of these events, and `WordNeverCleared` and `WordComesFromSuccess` hold for all of them. With overlapping fetches the word is the last successful resolution and the error is the last failure since the latest start, so an earlier failure can outlive a later success (`EarlierErrorOutlivesLaterSuccess`); overlapping fetches are not characterised beyond these lemmas.
- The selection signals `gramm_type` and `dict_lang` and their setters are not fields. The current selection is an argument of `StartFetch` and `FetchWord`.
- All `view!` markup is static presentation: `Navbar`, `Landing`, `Footer`, `App`, the dropdown buttons, icons and CSS classes. Only the three-way choice in the render match is modelled.
- `Lower` models `str::to_lowercase` for ASCII only. Every string the demo lower-cases is an ASCII constant.
