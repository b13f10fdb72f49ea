# ppg-local-search, modelled in Dafny

ppg-local-search is a browser extension. It crawls the GOV.UK Planning Practice Guidance,
builds a full-text index of the guidance pages, and adds a search box to the guidance
contents page. This project models the three parts that do the work and proves what they
promise:

- **The service worker** (`background.js`) runs `startIndexingProcess`. It guards against
  concurrent runs and a missing lunr library. It then fetches the contents page, has the
  offscreen document extract the guidance links, and resolves them against the site's origin.
  It fetches and parses every page, and stores the index and the documents map. Along the way
  it reports progress through `updateStatus`. Its module-level state (`isIndexing`,
  `indexingStatus`, `creatingOffscreenDocument`, the badge, storage and the messages sent) is
  the class `Background.ServiceWorker`. Its methods perform a run step by step and are proved
  equal to the specification functions of the `Crawl` module. Lemmas there prove what a run
  guarantees:
  - only its last notification says `done`;
  - it ends with an `Error: ` notification exactly when nothing is stored;
  - an index is stored only after every link was attempted, from a non-empty list of complete
    documents in crawl order, with a documents map keyed by their ids;
  - a lost offscreen connection ends the loop and makes the run throw.
- **The offscreen document** (`offscreen.js`). `handleMessages` answers `parse-html`
  requests. For `extract-links` it lists the `/guidance/` hrefs of the contents page in
  document order. For `extract-content` it builds a `{title, body}` record from a guidance
  page: title fallbacks, wrapper fallbacks, block accumulation and white-space clean-up. It
  gives `null` when both parts are empty.
- **The search widget** (`content.js`). `loadIndexFromStorage` checks that both stored values
  are present, loads the index, and sets the status line, placeholder and input state for each
  outcome. `handleSearchInput` builds the boosted phrase query for multi-word input and shows
  at most twenty hits, titled from the documents map.

`basics.dfy` holds Option/Result and a subsequence predicate. `text.dfy` holds the ECMAScript
string built-ins the code relies on:
- white space as `\s` matches it, `trim`, and `replace(/\s+/g, ' ')`;
- `split(/\s+/)` with empty pieces filtered out, and `join`;
- `startsWith`, `includes`, ASCII `toLowerCase`, and decimal formatting.

Modelling choices:
- Every value that comes from outside is a parameter: the network, DOMParser, the offscreen
  channel, chrome.storage and lunr. A guidance page's outcome is a function of its attempt
  number, and building plus storing the index is an `Outcome`.
- A status notification is modelled by the template that words it (`Crawl.Status`), and
  `Crawl.StatusText` gives the exact text. The worker stores the `Status`; `indexingStatus` is
  its text.
- `setupOffscreenDocument` is modelled phase by phase. Its `await` points are where another
  call can interleave.

Three behaviours of the code that a reader might not expect:
- A missing reply ("Offscreen document did not respond.") does not abort the crawl. Only
  errors whose message includes "Connection to offscreen lost" or "message port closed" do
  (background.js:179); `Crawl.NoReplyDoesNotAbort` proves the first case. The offscreen
  relay itself never words an error as "Connection to offscreen lost".
- The index and the documents map are written by one `chrome.storage.local.set` call
  (background.js:211-214). The model treats this as one outcome.
- The second empty-links check (background.js:143-145) can never fire. The check at 140
  already throws whenever no absolute link was built, because the relative links are
  non-empty there (118-120). So the model has only the first of the two messages.

## Model

| member | source | states |
|---|---|---|
| Text.HasPrefix | background.js:125 | `startsWith`: the string begins with the prefix, for the '/' and `/guidance/` filters |
| Text.Contains | background.js:179 | `includes`: the string holds the other as a contiguous part |
| Text.ContainsChars | background.js:179 | a string that includes another holds every character of it |
| Text.Trim | offscreen.js:32 | `trim()` leaves no white space at either end and never lengthens the string |
| Text.TrimIsSlice | offscreen.js:32 | `trim()` removes the leading and the trailing white space and nothing else: the result is the slice between them, interior spacing included |
| Text.TrimKeepsText | offscreen.js:32 | trimming removes white space only: the non-white-space characters are unchanged |
| Text.TrimOfTrimmed | offscreen.js:75 | trimming an already trimmed string changes nothing |
| Text.Collapse | offscreen.js:75 | the regex replacement yields an empty string only from an empty one, and keeps whether the string starts with white space |
| Text.CollapseSingleSpaced | offscreen.js:75 | after the replacement every run of white space is one plain space |
| Text.CollapseKeepsText | offscreen.js:75 | the replacement keeps every non-white-space character, in order |
| Text.Normalize | offscreen.js:75 | the cleaned-up body neither starts nor ends with white space |
| Text.NormalizeSingleSpaced | offscreen.js:75 | the cleaned-up body has no white space except single plain spaces between words |
| Text.NormalizeKeepsText | offscreen.js:75 | the clean-up keeps exactly the non-white-space characters of the raw body |
| Text.NormalizeIdempotent | offscreen.js:75 | cleaning up a cleaned-up body changes nothing |
| Text.Words | content.js:156 | `split(/\s+/)` with empty pieces filtered out, piece by piece from the left |
| Text.Join | content.js:159 | `join(sep)`: the pieces with `sep` between neighbours |
| Text.TakeWord | content.js:156 | the first piece of a split is the longest white-space-free prefix, non-empty when the string starts with a non-space |
| Text.WordsAreWords | content.js:156 | `split(/\s+/)` without empty pieces yields non-empty pieces free of white space |
| Text.WordsKeepText | content.js:156 | the pieces, concatenated, are exactly the non-white-space characters of the input |
| Text.WordsOfJoin | content.js:156 | splitting the space-joined pieces gives the same pieces back (round trip) |
| Text.NormalizeIsJoinedWords | content.js:156 | joining the pieces with single spaces equals collapsing and trimming the input |
| Text.LowerChar | content.js:156 | lower-casing never turns white space into a non-space or back |
| Text.Lower | content.js:156 | `toLowerCase()` keeps the length and lower-cases each character in place |
| Text.NatToString | background.js:138 | a `${n}` count is a non-empty string of decimal digits |
| Text.NatToStringValue | background.js:138 | the digits of a `${n}` count denote n, with no leading zero unless n is 0 |
| Text.AfterLastSlashShape | background.js:159 | `url.substring(url.lastIndexOf('/') + 1)` is a slash-free suffix that follows a slash unless it is the whole URL |
| Text.AfterSlashSegment | background.js:159 | whatever precedes the last slash is dropped: the result is the final segment |
| Offscreen.ExtractLinks | offscreen.js:21-24 | the links are at most as many as the anchors, each is non-empty and starts with `/guidance/`, and a string is a link exactly when some anchor's href is that string and starts with `/guidance/` |
| Offscreen.ExtractLinksInOrder | offscreen.js:21-24 | the links keep the anchors' document order: they are a subsequence of the present hrefs |
| Offscreen.ExtractLinksCounts | offscreen.js:21-24 | duplicates are kept: each `/guidance/` href is listed exactly as often as the anchors carry it |
| Offscreen.TitleOf | offscreen.js:28-32 | the title is the trimmed text (in the sense of TrimIsSlice) of the first of `h1.govuk-heading-xl`, any `h1` and the document title that exists |
| Offscreen.WrapperOf | offscreen.js:36-40 | the wrapper is `.gem-c-govspeak` when present, otherwise one of the three fallbacks, and none exactly when all four selectors find nothing |
| Offscreen.WrapperOfFirstFound | offscreen.js:36-40 | the wrapper is the first found of `.gem-c-govspeak`, `main#content div.govspeak`, `main#content` and `main`, in that order |
| Offscreen.RawBody | offscreen.js:43-72 | the body before clean-up: the accumulated blocks, or the wrapper's trimmed text when it has no blocks, or the trimmed page text without a wrapper, or empty |
| Offscreen.ContentOf | offscreen.js:26-85 | the extract-content result: null when title and body are both empty, else the record of both (properties in ContentNullIffBothEmpty) |
| Offscreen.JoinBlocksKeepsText | offscreen.js:58-62 | accumulating the trimmed blocks with blank lines keeps exactly their non-white-space text |
| Offscreen.AccumulateBlocks | offscreen.js:58-62 | the `forEach` loop builds each block's trimmed text followed by a blank line, in order |
| Offscreen.ContentNullIffBothEmpty | offscreen.js:74-85 | the result is `null` exactly when title and body are both empty; otherwise it carries both, and the body is single-spaced and trimmed with the raw body's text |
| Offscreen.ExtractContent | offscreen.js:26-85 | the extract-content branch computes the record of the title and wrapper fallbacks and the block or text fallback, cleaned up |
| Offscreen.HandleMessage | offscreen.js:6-100 | messages for another target, or of another type, are not handled and get no reply. A parse-html message is handled and replied to: a parser error becomes a failure reply, extract-links gives the link list, extract-content gives the record or null, and any other task gives null |
| Crawl.StatusText | background.js:97-220 | the exact text of each status notification the run sends |
| Crawl.ErrorTextIffFailed | background.js:175-220 | a status text starts with "Error: " exactly when it reports a failed run; the "Error on k/n" page notice does not |
| Crawl.AttemptNamesSegment | background.js:158-178 | a page notice reads "Verb k/n: segment", naming the page by its URL's last segment |
| Crawl.Relay | background.js:62-90 | only a reply with `success` yields data, exactly the reply's data. An error thrown on the way passes through unchanged; a missing reply and a failed reply become errors of their own |
| Crawl.NoReplyDoesNotAbort | background.js:73-75 | a missing reply throws "Offscreen document did not respond.", and the page loop treats it as an error on that page that does not abort the crawl (background.js:175-181) |
| Crawl.ResolveUrl | background.js:124-131 | `new URL(path, origin)` for a path starting with '/': a single-slash path is appended to the origin, "//host..." keeps only the scheme, and "//" with no host throws |
| Crawl.ResolveAll | background.js:123-136 | the resolution loop: each '/'-path that resolves, in order |
| Crawl.ResolveAllBounded | background.js:123-136 | resolution gives no more links than paths, and every link comes from a path that starts with '/' and resolves |
| Crawl.ResolveAllSingleSlash | background.js:123-136 | without "//" paths, the links are the origin followed by each '/'-path, in input order, others dropped |
| Crawl.Step | background.js:154-182 | one attempt: the notice naming verb, number, total and page; the document kept, if any; and whether it aborts |
| Crawl.Pages | background.js:153-183 | the loop over the first n links, stopping after an attempt that lost the connection |
| Crawl.Harvest | background.js:162-173 | the documents attempts 0 to n - 1 keep, in order |
| Crawl.ConnectionLost | background.js:179 | an error aborts the crawl exactly when its message includes "Connection to offscreen lost" or "message port closed" |
| Crawl.PagesBound | background.js:153-183 | the loop counts at most one attempt per link, and exactly one per link when it did not abort |
| Crawl.PagesCount | background.js:153-183 | without an abort, every link was attempted and none lost the connection. With one, the loop stopped right after the first attempt that lost it |
| Crawl.NoticesShape | background.js:153-183 | the notice list has one entry per attempt, the j-th being attempt j's notice |
| Crawl.PagesUpdates | background.js:153-183 | the loop's notifications are exactly the per-attempt notices of the attempts it made, in order |
| Crawl.PagesDocs | background.js:162-173 | the loop keeps exactly the documents harvested from the attempts it made |
| Crawl.HarvestComplete | background.js:165-166 | every kept document has a non-empty title and body, at most one per attempt |
| Crawl.HarvestIds | background.js:165-166 | the documents' ids are their URLs, in crawl order (a subsequence of the links) |
| Crawl.DocsMap | background.js:209-210 | the documents map: each id to the title of its document, later documents overriding earlier ones |
| Crawl.DocsMapKeys | background.js:209-210 | the documents map's keys are exactly the documents' ids |
| Crawl.DocsMapLast | background.js:209-210 | each id maps to the title of the last document carrying it |
| Crawl.TryBlock | background.js:107-216 | what the `try` block sends, throws and stores for each outcome of the contents fetch |
| Crawl.ListingTry | background.js:114-215 | the same from the link extraction on |
| Crawl.CrawlTry | background.js:138-215 | the same from "Found N links" on |
| Crawl.Finish | background.js:192-215 | the same after the page loop |
| Crawl.IndexingRun | background.js:102-222 | a whole run: the start notice, the `try` block, and the `catch` block's error notice when it threw |
| Crawl.FinishShape | background.js:195-215 | after the loop the run either throws with nothing stored and no final notice, or stores the index and sends "Indexing complete" last, marked done |
| Crawl.CrawlShape | background.js:138-215 | the same holds from "Found N links" on |
| Crawl.ListingShape | background.js:114-215 | the same holds from the link extraction on |
| Crawl.TryBlockShape | background.js:107-216 | the same holds for the whole `try` block |
| Crawl.RunEndsDone | background.js:102-220 | only a run's last notification says done, and it is an error notification exactly when nothing was stored |
| Crawl.ThrownIsReported | background.js:217-220 | an error the `try` block throws becomes the run's last notification, "Error: " and its message, and nothing is stored |
| Crawl.ListingFailureReported | background.js:107-220 | a contents page that is not ok, or whose fetch threw, gives exactly the start notice and one done "Error: Failed to fetch contents page: …" (or the thrown message) notice, storing nothing |
| Crawl.AbortReasons | background.js:118-196 | no or empty relative links, no link that resolves, a lost connection, and no complete document each end the run with their own distinct error notification, storing nothing |
| Crawl.SuccessfulRun | background.js:107-215 | a stored index means that every link was attempted with no lost connection, and that persisting succeeded. The index holds the non-empty harvest of complete documents in crawl order, at most one per link; the map's keys are their ids, each a crawled URL |
| Crawl.LostConnectionAborts | background.js:175-181 | a lost connection on attempt j ends the loop after j + 1 attempts and makes the run throw the abort message, storing nothing |
| Crawl.DocumentPage | background.js:165-174 | a page that yields a document neither errors nor aborts, and is reported as processed |
| Crawl.ThreePagesLoop | background.js:153-183 | three links whose second answers 404: pages one and three are processed and kept, page two is skipped |
| Crawl.ThreePagesSecondMissing | background.js:138-215 | the same run, whole: the exact notification sequence and the stored two documents |
| Background.ResolveLinks | background.js:123-136 | the resolution loop computes the resolved links of the '/'-paths, in order |
| Background.DocumentsMap | background.js:209-210 | the `forEach` builds the documents map of the documents |
| Background.PagesStayAborted | background.js:179-181 | once the loop aborts, no later link is attempted |
| Background.ServiceWorker.constructor | background.js:4-23 | a fresh worker is idle, reads "Ready.", shows no badge, has no creation pending (so the single-flight invariant holds), and holds what storage already holds |
| Background.ServiceWorker.UpdateStatus | background.js:235-242 | the status becomes the text, one notification is sent, and the badge shows "IDX" unless done |
| Background.ServiceWorker.Begin | background.js:95-103 | a run in progress makes the call a no-op; a missing lunr sends one "Error: Lunr library missing." done notice; otherwise isIndexing is set and "Starting" is sent |
| Background.ServiceWorker.ScriptEnd | background.js:271-276 | at the end of the script, a worker without lunr that still reads "Ready." sends the "Error: Lunr library missing." done notice; otherwise nothing changes |
| Background.ServiceWorker.AttemptPage | background.js:154-182 | one loop iteration: the documents, count, notice and abort decision are one specified step |
| Background.ServiceWorker.FetchPages | background.js:148-183 | the page loop sends the specified notices and ends with the specified documents, count and abort flag, keeping the status and badge in line with the last notice |
| Background.ServiceWorker.FinishIndexing | background.js:195-215 | after the loop: the abort or empty-corpus error, or "Building", then a persist error or the stored index and the final done notice |
| Background.ServiceWorker.CrawlPages | background.js:138-215 | from "Found N links" on, the worker does what the specification of that part of the `try` block says |
| Background.ServiceWorker.Try | background.js:107-216 | the `try` block sends the specified notices, throws the specified error and stores only on success |
| Background.ServiceWorker.ParseListing | background.js:114-215 | from the link extraction on, the worker follows the specification |
| Background.ServiceWorker.Crawl | background.js:107-222 | the `try` block, then one "Error: reason" done notice if it threw, then isIndexing is cleared |
| Background.ServiceWorker.StartIndexing | background.js:93-232 | a whole call: nothing happens while indexing, the lunr error is sent when lunr is missing, and otherwise the specified run happens and leaves storage untouched unless it succeeded, the worker idle again |
| Background.ServiceWorker.SetupBegin | background.js:40-42 | a set-up awaits the pending creation exactly when one is pending |
| Background.ServiceWorker.SetupResumeAsWritten | background.js:42-47 | as written, a set-up resumed after finding no document starts a creation even if another is pending |
| Background.ServiceWorker.SetupResume | background.js:42-47 | corrected: a resumed set-up starts a creation only when the document is missing and none is pending, so it keeps at most one creation in flight |
| Background.ServiceWorker.CreationSettled | background.js:48-56 | a settled creation clears `creatingOffscreenDocument`, the document exists afterwards if creation succeeded, and the single-flight invariant is kept |
| Background.OverlappingSetupsAsWritten | background.js:39-59 | two overlapping set-ups as written leave two creations in flight, breaking the single-flight invariant |
| Background.OverlappingSetups | background.js:39-59 | with the correction, the same overlap makes exactly one creation |
| Content.LoadStatus | content.js:93-132 | the status line for each outcome of the storage read and the index load |
| Content.LoadPlaceholder | content.js:93-132 | the search box placeholder for the same four outcomes |
| Content.Terms | content.js:156 | the query terms: the lower-cased query split at white space, empty pieces dropped |
| Content.PhrasePart | content.js:159 | the phrase part of a multi-term query, quoting the typed query three times with boosts 100, 50 and none |
| Content.QueryFor | content.js:156-163 | the query searched: the typed query for at most one term, else the phrase part followed by the joined terms |
| Content.TitleFor | content.js:170-172 | a hit's link text: the documents map's title for its ref, or the ref without an entry |
| Content.ItemsFor | content.js:169-172 | one link item per hit, in order |
| Content.Display | content.js:134-196 | what the results area shows for the loaded index and the typed value |
| Content.Top | content.js:169 | `slice(0, 20)` keeps the first min(20, n) hits, in order |
| Content.TermsAreWords | content.js:156 | the query terms are non-empty and free of white space, and hold exactly the lower-cased query's non-white-space text |
| Content.QueryShape | content.js:156-163 | a query with at most one term is searched as typed. A longer one is the phrase part followed by the terms joined by spaces, which is the lower-cased query collapsed and trimmed, and which splits back into the terms |
| Content.QueryQuotesRaw | content.js:158-160 | a multi-term query starts with the trimmed query exactly as typed, quoted and boosted by 100, not lower-cased |
| Content.ItemsShape | content.js:169-172 | one item per hit, in order, linking to the hit's ref and titled from the documents map, or by the ref when it has no entry |
| Content.DisplayCases | content.js:134-196 | with no index, "not loaded" whatever was typed, and never with one; nothing exactly when loaded and the trimmed query is under three characters. Once the query is long enough: the error message exactly when the search fails, "No matches found." exactly when it finds nothing, and otherwise the links of the first 1 to 20 hits in rank order, titled from the map |
| Content.StoredTitles | content.js:170-172 | a stored document's link is titled with its title when it is the last one stored under its id, and a ref with no stored id is shown as itself |
| Content.SearchWidget.constructor | content.js:40-55 | the injected widget starts disabled, "Initializing...", with the "Search guidance..." placeholder and no results |
| Content.SearchWidget.UpdateStatus | content.js:84-91 | the status changes only when the status element exists |
| Content.SearchWidget.LoadIndexFromStorage | content.js:93-132 | the map is taken when both values are present and the index only when it loads. Status and placeholder follow the four outcomes, and the box is enabled only on a successful load |
| Content.SearchWidget.RenderHits | content.js:168-190 | the `forEach` renders one item per hit, in order |
| Content.SearchWidget.HandleSearchInput | content.js:134-196 | the results area shows exactly what `Display` specifies for the typed value |
| Content.Startup | content.js:198-200 | the box ends up enabled exactly when the widget was added and the index loaded; the index loads either way |

## Left out

- chrome.* calls, `fetch`, DOMParser, `querySelector` and `clients.matchAll` are not modelled. Their results are parameters: page outcomes, a `Page` of selector results, storage reads, and `present` for `hasOffscreenDocument`.
- lunr is not modelled: building the index (`lunr(...)`), `JSON.stringify`/`JSON.parse`, `Index.load`, scoring and ranking. The stored index is the list of documents it was built from; `index.search` is a parameter returning ranked refs or an error.
- The score span (`result.score.toFixed(2)`) is not modelled, because floating-point formatting is outside the model.
- Crawl.ResolveUrl: agrees with `new URL(path, origin)` against an origin with no path only for a path that starts with one '/' and holds no backslash, no dot segment and no character the URL parser percent-encodes. It differs for `///x` (the model throws, the parser skips the extra slashes and takes `x` as the host), for `//host` (the parser adds a trailing '/'), and for `/\host` (the parser reads the backslash as '/'). The links the offscreen document extracts all start with `/guidance/`, so only the missing normalisation (dot segments, percent-encoding) can matter for them.
- Text.Lower: lower-cases ASCII letters only; other characters are kept, where `toLowerCase` maps the full Unicode case tables.
- Content.SearchWidget.HandleSearchInput: `rawQuery.length` counts UTF-16 code units, but the model counts characters. The two differ only for characters outside the Basic Multilingual Plane.
- The `finally` block's `closeDocument` call (background.js:223-230) is not modelled, nor is the `setupOffscreenDocument` call inside each parse: `StartIndexing` does not change `offscreenOpen`, `creating` or `pending`, which only the set-up phases and `CreationSettled` change. The offscreen document's lifetime across a run is therefore not tied to the run.
- The `typeof` checks on `documents` (background.js:185-193) are not modelled: they only log, and every document pushed has all three fields.
- The `onMessage` listener, `getIndexStatus`, the `onStartup` badge reset and the initial storage check (background.js:245-269) are outside this model. The storage check's callback runs after the script ends, and its three texts ("Error checking storage.", "Index loaded from storage. Ready.", "Index not built yet.") are not statuses of the modelled run. The script-end lunr check that follows it (background.js:271-276) is `Background.ServiceWorker.ScriptEnd`. Also outside the model: `popup.js`, `hasOffscreenDocument`'s client scan, and the DOM construction in `injectSearchUI` beyond the widget's initial state.
- Background.ServiceWorker.StartIndexing: modelled as one call that runs to its end without another call interleaving. The guard at background.js:95 is modelled, but true concurrency across `await` points is not. Only `setupOffscreenDocument` is modelled phase by phase.
- Console logging and the warning on a closed message port (background.js:85-87) are not modelled, since neither changes any state.

## Findings

| source | as written | input that shows it | evidently intended | confidence | as-written member | corrected member |
|---|---|---|---|---|---|---|
| background.js:40-47 | After `await hasOffscreenDocument(path)` answers false, a document is created without looking at `creatingOffscreenDocument` again | Two `setupOffscreenDocument` calls that overlap: both test `creatingOffscreenDocument` while it is null, both await `hasOffscreenDocument` and get false, and both call `createDocument` | A call that resumes while another creation is pending awaits that creation instead of starting a second one | not executed; latent, because one run awaits each parse and `isIndexing` keeps runs apart | Background.OverlappingSetupsAsWritten | Background.ServiceWorker.SetupResume |
