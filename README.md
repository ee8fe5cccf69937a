# shortlink, modelled in Dafny

shortlink is a link shortener. A user stores a URL under a short alias (the
*shortform*). Requesting `/<shortform>` later redirects to the URL. When no
alias matches, a full-text search over the stored descriptions offers the
nearest shortcuts.

This project models three parts of the system:

- **The shortcut index** (`shortcut/shortcut.go`, module `Shortcuts`). It covers the `Shortcut` record and `FromFields`, which rebuilds a record from a search hit. It also covers `NormalizeURL`, which fills in the scheme `http` when a URL has none. The index class `Shortcuts.Index` keeps its documents in a map keyed by ShortForm. The source indexes each document under its ShortForm as the document id, so adding a shortform that already exists replaces the old document. `FindShortcut` searches in two tiers. The first is an exact term query on ShortForm, which the keyword analyzer treats as a single whole-string token; a hit here makes `sole` true. The second is a full-text query, run only when the first tier finds nothing. An error from either tier is passed on with no results.
- **The description fetcher** (`fetcher/fetcher.go`, module `Fetcher`). `FindDescription` tries up to three GETs. It scans the first page that arrives: the token after a `title` token goes into the description, and so does the `content` of meta tags named author, description, keywords or creator. The strings are joined with newlines. If every GET fails, the result is `""`.
- **The request handlers** (`shortlink.go`, module `Shortlink`). `Get` either answers 500, redirects with 303 to an exact match, or shows the form with the partial matches. `Post` runs its checks in a fixed order and then adds the shortcut.

Module `Urls` stands for the URL library. A parsed URL is a record. Parsing and serialisation are a pair of functions (`UrlCodec`) whose insides are not modelled. `RenderStable` is an assumption, taken as a hypothesis by the lemmas and ensures that need it: a URL that was serialised with a scheme reads back with a scheme and serialises to the same text. net/url breaks it. Its parser lower-cases the scheme, but its serialiser writes the scheme as stored (`Urls.SchemeFoldingBreaksRenderStable` shows that this alone is enough). It also refuses to parse some texts it serialises, since a path written where the host goes gives a %-escaped host such as `http://a%20b`. Module `ShortcutScenarios` restates the expectations of `shortcut/shortcut_test.go` as client methods of the index.

The environment enters as parameters:

- the full-text tier's answer in the engine's relevance order (`fuzzy: SearchResponse`). As the engine returns only what it stores, the answer is required to name stored documents only (`Index.FromStore`);
- a failure of the engine on the exact tier (`exactFault`);
- the URL library (`codec`), fixed when an index is created and shared by everything that normalises against that index;
- a failure of the engine's write when a shortcut is added (`writeFault`);
- the network: `get(url, i)` is the outcome of the i-th GET of `url`. A fetched page is the token sequence the HTML tokenizer reports before its error token.

Three behaviours of the code worth stating:

- A second add under the same ShortForm replaces the first document; it does not create a duplicate, because the document id is the ShortForm (shortcut/shortcut.go:95).
- A URL that fails to parse is not passed through unchanged. The Go code discards the parse error and dereferences the nil result (shortcut/shortcut.go:48-49), so only the parse-success path is modelled.
- The stored URL is normalised twice: `Post` normalises it (shortlink.go:120), and then `AddShortcut` normalises it again (shortcut/shortcut.go:93). `Post` proves that the stored URL equals the redirect target only under `RenderStable`.

A non-empty ShortForm is not guaranteed. `Post` takes the first `shortform` form value as it is (shortlink.go:96-101), so it accepts `shortform=` and answers with the redirect. The write under the empty document id that follows may be rejected by the engine, and `AddShortcut` discards that error (shortcut/shortcut.go:95). `Shortlink.PostEmptyShortForm` shows both outcomes.

## Model

| member | source | states |
|---|---|---|
| `Shortcuts.StoredFields` | shortcut/shortcut.go:105-107 | a stored shortcut exposes exactly the three fields URL, ShortForm and Description that both searches request |
| `Shortcuts.FromFields` | shortcut/shortcut.go:28-39 | URL and ShortForm are copied from the hit; Description is copied when it is a string and is "" otherwise; the hit must hold string URL and ShortForm fields (the type assertions panic otherwise) |
| `Shortcuts.FromFieldsInvertsStoredFields` | shortcut/shortcut.go:28-39 | reading back a stored shortcut's fields gives the same shortcut |
| `Shortcuts.FromFieldsWithoutDescription` | shortcut/shortcut.go:34-36 | a hit with no Description field decodes with description "" |
| `Shortcuts.WithDefaultScheme` | shortcut/shortcut.go:49-51 | the scheme is never empty afterwards; an empty scheme becomes "http"; a non-empty scheme such as ftp leaves the URL unchanged; no other part of the URL changes |
| `Shortcuts.WithDefaultSchemeIdempotent` | shortcut/shortcut.go:49-51 | defaulting the scheme twice is the same as defaulting it once |
| `Shortcuts.NormalizeURL` | shortcut/shortcut.go:47-53 | the result is always the serialisation of a URL that has a scheme (the parsed URL with its scheme defaulted) |
| `Shortcuts.NormalizeURLKeepsScheme` | shortcut/shortcut.go:47-53 | a URL that parses with a scheme is only re-serialised |
| `Shortcuts.NormalizeURLDefaultsScheme` | shortcut/shortcut.go:47-53 | a URL without a scheme comes out as the same parsed URL with scheme http |
| `Shortcuts.NormalizedURLHasScheme` | shortcut/shortcut.go:47-53 | read back, a normalised URL always has a scheme (given RenderStable) |
| `Shortcuts.NormalizeURLIdempotent` | shortcut/shortcut.go:47-53 | normalising the text of a URL twice gives the same text as normalising it once (given RenderStable) |
| `Urls.SchemeFoldingBreaksRenderStable` | shortcut/shortcut.go:48-52 | a library whose parser lower-cases the scheme while its serialiser writes the scheme as stored, as net/url's do, does not satisfy RenderStable |
| `Shortcuts.Index.constructor` | shortcut/shortcut.go:74-89 | a freshly created index is empty and valid, and normalises with the given URL library |
| `Shortcuts.Index.StoredUrlHasScheme` | shortcut/shortcut.go:92-95 | because every add stores a normalised URL, every stored URL reads back with a scheme (given RenderStable) |
| `Shortcuts.Index.TermSearch` | shortcut/shortcut.go:105-108 | the exact tier's answer is an engine fault, or the hits are exactly the stored fields of the documents whose whole ShortForm equals the query; there is at most one hit |
| `Shortcuts.Index.ExactHitIsTheDocument` | shortcut/shortcut.go:95 | because documents are stored under their ShortForm, the document under key q is the only stored document with ShortForm q |
| `Shortcuts.Index.AddShortcut` | shortcut/shortcut.go:92-97 | returns the normalised URL; when the engine's write succeeds, stores the shortcut under its ShortForm with that URL and its ShortForm and Description unchanged, replacing any old document there, and no other key changes; when the write fails, its error is discarded, the store is unchanged and the normalised URL is still returned; the index stays valid (every document under its own ShortForm, every URL a serialised URL with a scheme) |
| `Shortcuts.Index.FindShortcut` | shortcut/shortcut.go:103-129 | sole holds iff the exact tier had a hit; the results are then exactly the documents whose ShortForm equals the query, nonempty, and independent of the fuzzy answer; otherwise sole is false and the results follow the fuzzy hits one for one, decoded by FromFields; every result is a stored document, given a fuzzy answer drawn from the store; an error at either tier gives no results, sole false, and that error |
| `Fetcher.JoinConcat` | fetcher/fetcher.go:50 | joining two non-empty batches of strings puts exactly one separator between their joins |
| `Fetcher.LastValueWithoutKey` | fetcher/fetcher.go:30-37 | when no attribute has the key, the value kept for it is "" |
| `Fetcher.LastValueIsLastMatch` | fetcher/fetcher.go:31-37 | the value kept for an attribute key is that of the last attribute with that key (the last content and the last name win) |
| `Fetcher.MetaAttributes` | fetcher/fetcher.go:30-38 | the attribute loop leaves content and name equal to the values of the last content and the last name attribute |
| `Fetcher.MetaContribution` | fetcher/fetcher.go:39-45 | a meta tag adds at most one string, and only its last content attribute's value, non-empty, when its last name is author, description, keywords or creator |
| `Fetcher.MetaContributionIff` | fetcher/fetcher.go:39-45 | a meta tag contributes exactly its content when the content is non-empty and the name is author, description, keywords or creator; otherwise it contributes nothing |
| `Fetcher.Collected` | fetcher/fetcher.go:22-49 | the scan collects no more strings than there are tokens |
| `Fetcher.CollectedIgnoresOtherTokens` | fetcher/fetcher.go:25-47 | tokens whose atom is neither title nor meta contribute nothing |
| `Fetcher.CollectedConcat` | fetcher/fetcher.go:22-49 | the collected strings keep document order: across a prefix with no title token, the result is the prefix's strings followed by the rest's |
| `Fetcher.DescriptionOfSplitPage` | fetcher/fetcher.go:22-50 | the description of a page whose first part has no title token is the first part's description, one newline, then the rest's, when both parts contribute |
| `Fetcher.TitleConsumesNextToken` | fetcher/fetcher.go:26-28 | a title token, start or end tag alike, appends the Data of the next token, and that token is never examined, even when it is a descriptive meta tag |
| `Fetcher.ScanTokens` | fetcher/fetcher.go:22-49 | the token loop, which advances twice in the title branch and appends "" when a title token ends the stream, computes Collected |
| `Fetcher.FindDescription` | fetcher/fetcher.go:13-55 | the retry loop returns the description DescriptionFrom gives from attempt 0 |
| `Fetcher.DescriptionAllFailed` | fetcher/fetcher.go:14-54 | when all three GETs fail, the description is "" |
| `Fetcher.DescriptionFirstFetch` | fetcher/fetcher.go:14-50 | the first successful GET decides the description, which is its scan joined with newlines, even when that is empty; no later GET is used |
| `Fetcher.DescriptionAtMostThreeAttempts` | fetcher/fetcher.go:14 | only the first three GETs matter: two networks that answer them alike give the same description |
| `Fetcher.EndTitleSwallowsMeta` | fetcher/fetcher.go:25-28 | on `<title>Foo</title><meta name="description" content="bar">` the scan as written yields ["Foo", "meta"], and the content "bar" is lost |
| `Fetcher.IntendedCollected` | fetcher/fetcher.go:22-49 | the corrected scan collects no more strings than there are tokens |
| `Fetcher.IntendedKeepsEveryMeta` | fetcher/fetcher.go:39-45 | with the corrected scan, the content of every descriptive meta tag appears in the result |
| `Fetcher.IntendedEndTitlePage` | fetcher/fetcher.go:25-45 | on the page above, the corrected scan yields ["Foo", "bar"] |
| `Shortlink.SuppliedShortForm` | shortlink.go:92-102 | the route variable wins; without it the first form value is used; there is no shortform exactly when neither is present |
| `Shortlink.SuppliedDescription` | shortlink.go:116-119 | the first description form value, or "" when the form has none |
| `Shortlink.StoredDescription` | shortlink.go:116-125 | a supplied non-empty description is kept; without an attempt key the supplied one is kept; only an empty description with an attempt key is replaced by the fetcher's result for the normalised URL |
| `Shortlink.ShortcutHandler.constructor` | shortlink.go:24-30 | the handler serves the given index |
| `Shortlink.ShortcutHandler.Get` | shortlink.go:33-50 | a lookup error answers 500 with its message; an exact match answers 303 to that shortcut's URL, so results[0] always exists, and given RenderStable that target has a scheme; otherwise the form is shown for the route's shortform with the fuzzy results in order, each a stored shortcut |
| `Shortlink.ShortcutHandler.Post` | shortlink.go:88-133 | no shortform in the route or the form: 400 "Shortcut was not supplied"; an existing exact alias, with a failed lookup counting as none: 400 "Shortcut already exists."; no url, checked only after that: 400 "URL was not supplied"; the index is unchanged in all three cases. Otherwise: a 303 redirect to the normalised first url, and the index gains the chosen shortform. Its description is the first description value or "", replaced by the fetcher's result only when it is empty and an attempt key is present. A failed engine write leaves the index unchanged and still answers with the redirect. Given RenderStable and a successful write, the stored URL equals the redirect target |
| `Shortlink.PostEmptyShortForm` | shortlink.go:96-101 | a form value `shortform=` is accepted and answered with the redirect; the empty ShortForm is stored exactly when the engine accepts the write |
| `ShortcutScenarios.SeededIndex` | shortcut/shortcut_test.go:76-109 | the four test shortcuts are stored under their shortforms with normalised URLs |
| `ShortcutScenarios.RetrieveRed` | shortcut/shortcut_test.go:20-26 | "red" gives one sole result with the normalised reddit.com URL |
| `ShortcutScenarios.RetrieveBlueAndBlueFull` | shortcut/shortcut_test.go:28-42 | "blue" and "blue-is-more-violet-than-red" each match only their own shortcut, both sole, with the same URL |
| `ShortcutScenarios.RetrieveByDescriptionWords` | shortcut/shortcut_test.go:44-58 | "page of" and "internet page" are no aliases; a fuzzy answer naming the reddit document alone gives, for each, one non-sole result, that document, with the normalised reddit.com URL |
| `ShortcutScenarios.RetrieveFront` | shortcut/shortcut_test.go:60-66 | a fuzzy answer of two documents gives two non-sole results in the engine's order, reddit.com first |
| `ShortcutScenarios.RetrieveDuplicate` | shortcut/shortcut_test.go:68-74 | two shortcuts sharing a description are both returned when the fuzzy answer names both |
| `ShortcutScenarios.RetrieveNothing` | shortcut/shortcut.go:112-128 | a query that matches in neither tier gives an empty result, sole false, and no error |
| `ShortcutScenarios.RetrieveWithStoreFault` | shortcut/shortcut.go:108-111 | a store fault gives an error and no results, even for an existing alias |

## Left out

- Bleve's analyzers, its query-string syntax, term vectors and relevance ranking are the engine's own logic. The full-text tier is therefore the answer `fuzzy` handed to `FindShortcut`. Which documents a full-text query matches, and in which order, is the engine's: the scenarios fix the answer the tests expect ("page of" and "internet page" match only the reddit document). "front" (shortcut/shortcut_test.go:65) is the test that depends on ranking, since it expects reddit.com first of two; the model checks only that the handlers keep the engine's order.
- `NewIndex` and `setUpBleve` touch the disk (`os.Stat`, opening or creating the index file) and fail through `log.Fatal`. The model keeps only the fact that a new index is empty.
- URL parsing and serialisation belong to the URL library and are the abstract `UrlCodec`. The parse error that `NormalizeURL` discards, and the nil dereference that follows it, are not modelled.
- Shortcuts.NormalizeURLIdempotent: proved only for a URL library that satisfies RenderStable, because idempotence depends on how the library parses and serialises; net/url does not satisfy it (a scheme written in upper case comes back lower-cased).
- Shortlink.ShortcutHandler.Post: the second normalisation inside `AddShortcut` (shortcut/shortcut.go:93) parses text that net/url itself produced, and that parse can fail even when the user's URL parsed. The url `a b` normalises to `http://a%20b`, which net/url refuses because of the escape in the host. The nil dereference that follows (shortcut/shortcut.go:49) panics in the goroutine after the 303 was sent and stops the server. The model has no parse error, so it does not capture this; its guarantees about the stored URL hold only under RenderStable.
- Shortlink.ShortcutHandler.Post: the add runs in a goroutine after the response in the source; here it runs sequentially as the last step. The race between the existence check and the add is not modelled.
- The HTTP layer (`http.Get`, closing bodies, writing responses) and the HTML tokenizer are replaced by the `get` function, by token sequences and by `Response` values.
- Templates, `ShowForm` rendering, `ShowEmptyForm`, `ServeOpenSearchDescription`, routing, flags and `main` only present data or start the server. `log.Print` does nothing the model could observe.
- `Shortcut.Type` (shortcut/shortcut.go:23-25) makes the engine use the "Shortcut" document mapping (shortcut/shortcut.go:68), whose keyword analyzer for ShortForm (shortcut/shortcut.go:58-60) is what makes the exact tier a whole-string match. It enters the model only through `TermSearch`, which assumes that mapping.
- server.go is an older copy of the handlers in shortlink.go, so the handlers are modelled once, from shortlink.go.

## Findings

| source | as written | input that shows it | evidently intended | confidence | as-written member | corrected member |
|---|---|---|---|---|---|---|
| fetcher/fetcher.go:25-28 | `switch tk.DataAtom` with `case atom.Title` also matches the `</title>` end tag. That tag then consumes the next token and appends that token's Data | `<title>Foo</title><meta name="description" content="bar">` gives "Foo\nmeta", and "bar" is lost | read the title text after the `<title>` start tag only, so that a following meta tag is still examined; the result is "Foo\nbar" | high, not executed | `Fetcher.EndTitleSwallowsMeta` | `Fetcher.IntendedKeepsEveryMeta` |

`FindDescription` keeps the scan as written, because it models the source. `Fetcher.IntendedCollected` is the corrected scan, and `Fetcher.IntendedKeepsEveryMeta` and `Fetcher.IntendedEndTitlePage` are proved about it.
