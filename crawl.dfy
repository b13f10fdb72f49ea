/** What one run of `startIndexingProcess` (background.js) does, as specification functions:
    the status notifications it sends, in order, and what it writes to storage. The network,
    the offscreen document and storage are inputs: the listing page's outcome, each guidance
    page's outcome by attempt number, and whether building and storing the index succeeded.
    The class in the Background module performs the run step by step and is proved to agree. */
module Crawl {
  import opened Basics
  import opened Text
  import Offscreen

  const ContentsUrl := "https://www.gov.uk/government/collections/planning-practice-guidance"
  /** `new URL(ContentsUrl).origin` */
  const Origin := "https://www.gov.uk"

  const LunrMissing := "Lunr library missing."
  const NoResponse := "Offscreen document did not respond."
  const NoRelativeLinks := "Could not extract valid relative guidance links array using offscreen document."
  const NoAbsoluteLinks := "No valid absolute guidance links could be constructed from relative paths."
  const LostConnection := "Lost connection to offscreen document during page processing. Aborting."
  const NoDocuments := "No documents could be successfully processed for indexing body/title."

  datatype Document = Document(id: string, title: string, body: string)

  /** A value of the `documentsMap` stored beside the index. */
  datatype DocInfo = DocInfo(title: string)

  /** What a successful run stores: the index, represented by the documents it was built
      from (lunr and its serialisation are not modelled), and the `documentsMap`. */
  datatype Stored = Stored(indexed: seq<Document>, docs: map<string, DocInfo>)

  /** How a page attempt is reported. */
  datatype Verb = Skipping | ErrorOn | Processing

  /** The status texts of a run (and the initial "Ready."), by the template that words them;
      `StatusText` gives the words. */
  datatype Status =
    | Ready
    | Starting
    | ParsingListing
    | Found(links: nat)
    | Attempt(verb: Verb, k: nat, total: nat, url: string)
    | Building(documents: nat)
    | Complete(documents: nat)
    | Failed(message: string)

  function VerbText(v: Verb): string {
    match v
    case Skipping => "Skipping"
    case ErrorOn => "Error on"
    case Processing => "Processing"
  }

  /** The status text `updateStatus` is called with. An attempt names the page by the part
      of its URL after the last '/' (`url.substring(url.lastIndexOf('/') + 1)`). */
  function StatusText(s: Status): string {
    match s
    case Ready => "Ready."
    case Starting => "Starting: Fetching contents page..."
    case ParsingListing => "Parsing contents page for links..."
    case Found(n) => "Found " + NatToString(n) + " links. Fetching pages..."
    case Attempt(v, k, total, url) =>
      VerbText(v) + " " + NatToString(k) + "/" + NatToString(total) + ": " + AfterLastSlash(url)
    case Building(n) => "Building index for " + NatToString(n) + " documents..."
    case Complete(n) => "Indexing complete (" + NatToString(n) + " docs). Ready."
    case Failed(msg) => "Error: " + msg
  }

  /** A notification reads as a failure (begins "Error: ") exactly when it reports one; the
      "Error on k/n" page notice does not. */
  lemma ErrorTextIffFailed(s: Status)
    ensures HasPrefix(StatusText(s), "Error: ") <==> s.Failed?
  {
    var t := StatusText(s);
    match s
    case Failed(msg) => assert t[..7] == "Error: ";
    case Attempt(v, k, total, url) =>
      assert t[..|VerbText(v)|] == VerbText(v);
      if v == ErrorOn { MissesPrefix(t, "Error: ", 5); } else { MissesPrefix(t, "Error: ", 0); }
    case _ => MissesPrefix(t, "Error: ", 0);
  }

  lemma MissesPrefix(s: string, p: string, i: nat)
    requires i < |p| && (i < |s| ==> s[i] != p[i])
    ensures !HasPrefix(s, p)
  {
  }

  /** A page notice names the page by the last segment of its URL: for a guidance URL
      ending `/guidance/flood-risk`, the notice ends `: flood-risk`. */
  lemma AttemptNamesSegment(v: Verb, k: nat, total: nat, prefix: string, segment: string)
    requires '/' !in segment
    ensures StatusText(Attempt(v, k, total, prefix + "/" + segment))
      == VerbText(v) + " " + NatToString(k) + "/" + NatToString(total) + ": " + segment
  {
    AfterSlashSegment(prefix, segment);
  }

  /** A status notification `{text, done}`; `done` also clears the "IDX" badge. */
  datatype Update = Update(status: Status, done: bool)

  /** What `chrome.runtime.sendMessage` to the offscreen document gave: no reply, a reply, or
      an error thrown by the offscreen set-up or by the send itself. */
  datatype ChannelReply = NoReply | Replied(response: Offscreen.Response) | Threw(message: string)

  datatype ListingOutcome =
    | ListingNotOk(statusText: string)   // the response was not 2xx
    | ListingThrew(message: string)      // `fetch` or `response.text()` threw
    | ListingReplied(reply: ChannelReply) // the page was fetched and sent for parsing

  datatype PageOutcome =
    | PageNotOk(statusText: string)
    | PageThrew(message: string)
    | PageReplied(reply: ChannelReply)

  // ---------------------------------------------------------------- parseHtmlViaOffscreen

  /** `parseHtmlViaOffscreen`: the reply's data, or the message of the error it throws. */
  function Relay(r: ChannelReply): (res: Result<Offscreen.Data>)
    ensures res.Success? <==> r.Replied? && r.response.Ok?
    ensures res.Success? ==> res.value == r.response.data
    ensures r.Threw? ==> res == Failure(r.message)
  {
    match r
    case NoReply => Failure(NoResponse)
    case Threw(msg) => Failure(msg)
    case Replied(Ok(d)) => Success(d)
    case Replied(Failed(e)) => Failure("Offscreen parsing failed: " + (if e == "" then "Unknown error" else e))
  }

  // ---------------------------------------------------------------- link resolution

  /** The scheme of an origin, colon included ("https:"). */
  function SchemeOf(origin: string): string {
    if origin == [] then []
    else if origin[0] == ':' then ":"
    else [origin[0]] + SchemeOf(origin[1..])
  }

  /** The host of the part of a URL after "//": up to the first '/', '?' or '#'. */
  function HostOf(s: string): string {
    if s == [] || s[0] == '/' || s[0] == '?' || s[0] == '#' then [] else [s[0]] + HostOf(s[1..])
  }

  /** `new URL(path, origin).href` for a path that starts with '/'. A single-slash path is
      appended to the origin; a "//host/..." path names another host under the origin's
      scheme, and "//" without a host makes the constructor throw (None). */
  function ResolveUrl(origin: string, path: string): Option<string>
    requires HasPrefix(path, "/")
  {
    if HasPrefix(path, "//") then
      (if HostOf(path[2..]) == [] then None else Some(SchemeOf(origin) + path))
    else Some(origin + path)
  }

  /** The absolute links of the crawl: each relative path that starts with '/' and resolves,
      in order. */
  function ResolveAll(origin: string, rel: seq<string>): seq<string> {
    if rel == [] then []
    else
      var p := Last(rel);
      ResolveAll(origin, rel[..|rel| - 1]) +
        (if HasPrefix(p, "/") && ResolveUrl(origin, p).Some? then [ResolveUrl(origin, p).value] else [])
  }

  /** The paths that start with '/', in order. */
  function SlashPaths(rel: seq<string>): seq<string> {
    if rel == [] then []
    else SlashPaths(rel[..|rel| - 1]) + (if HasPrefix(Last(rel), "/") then [Last(rel)] else [])
  }

  function Prefixed(origin: string, paths: seq<string>): seq<string> {
    if paths == [] then [] else Prefixed(origin, paths[..|paths| - 1]) + [origin + Last(paths)]
  }

  /** Resolution never produces more links than it was given, and every link comes from a
      path that starts with '/'. */
  lemma {:induction false} ResolveAllBounded(origin: string, rel: seq<string>)
    ensures |ResolveAll(origin, rel)| <= |rel|
    ensures forall u :: u in ResolveAll(origin, rel) ==>
      exists p :: p in rel && HasPrefix(p, "/") && ResolveUrl(origin, p) == Some(u)
  {
    if rel != [] {
      var init := rel[..|rel| - 1];
      ResolveAllBounded(origin, init);
      assert forall p :: p in init ==> p in rel;
    }
  }

  /** When no path starts with "//", the absolute links are exactly the origin followed by each
      path that starts with '/', in input order. */
  lemma {:induction false} ResolveAllSingleSlash(origin: string, rel: seq<string>)
    requires forall i :: 0 <= i < |rel| ==> !HasPrefix(rel[i], "//")
    ensures ResolveAll(origin, rel) == Prefixed(origin, SlashPaths(rel))
  {
    if rel != [] {
      var init := rel[..|rel| - 1];
      forall i | 0 <= i < |init| ensures !HasPrefix(init[i], "//") {
        assert init[i] == rel[i];
      }
      ResolveAllSingleSlash(origin, init);
      var p := Last(rel);
      if HasPrefix(p, "/") {
        assert SlashPaths(rel) == SlashPaths(init) + [p];
        assert SlashPaths(rel)[..|SlashPaths(rel)| - 1] == SlashPaths(init);
      } else {
        assert SlashPaths(rel) == SlashPaths(init) + [];
        assert SlashPaths(init) + [] == SlashPaths(init);
        assert ResolveAll(origin, rel) == ResolveAll(origin, init) + [];
      }
    }
  }

  // ---------------------------------------------------------------- the per-page loop

  /** The error a page attempt throws, if any. */
  function PageError(o: PageOutcome): Option<string> {
    match o
    case PageNotOk(_) => None
    case PageThrew(msg) => Some(msg)
    case PageReplied(r) => if Relay(r).Failure? then Some(Relay(r).error) else None
  }

  /** The document a page attempt appends: only a content record with a non-empty title and
      a non-empty body, identified by the page's URL. */
  function PageDocument(url: string, o: PageOutcome): Option<Document> {
    if o.PageReplied? && Relay(o.reply).Success? && Relay(o.reply).value.Content? then
      var rec := Relay(o.reply).value.record;
      if rec.title != "" && rec.body != "" then Some(Document(url, rec.title, rec.body)) else None
    else None
  }

  /** The per-page errors that abort the whole crawl. */
  predicate ConnectionLost(msg: string) {
    Contains(msg, "Connection to offscreen lost") || Contains(msg, "message port closed")
  }

  predicate Aborts(o: PageOutcome) {
    PageError(o).Some? && ConnectionLost(PageError(o).value)
  }

  /** A page whose response is not ok is skipped; one whose text or parsing threw is an
      error; any other is processed, whether or not it yields a document. */
  function VerbOf(o: PageOutcome): Verb {
    if o.PageNotOk? then Skipping
    else if PageError(o).Some? then ErrorOn
    else Processing
  }

  /** The loop's state: documents so far, `fetchedCount`, notifications sent, and whether a
      lost connection ended the loop. */
  datatype Progress = Progress(docs: seq<Document>, fetched: nat, updates: seq<Update>, aborted: bool)

  function Step(p: Progress, url: string, o: PageOutcome, total: nat): Progress {
    var k := p.fetched + 1;
    var d := PageDocument(url, o);
    Progress(p.docs + (if d.Some? then [d.value] else []), k,
             p.updates + [Update(Attempt(VerbOf(o), k, total, url), false)], Aborts(o))
  }

  /** The loop after the first `n` links, stopping at a lost connection. */
  function Pages(urls: seq<string>, pages: nat -> PageOutcome, n: nat): Progress
    requires n <= |urls|
  {
    if n == 0 then Progress([], 0, [], false)
    else
      var p := Pages(urls, pages, n - 1);
      if p.aborted then p else Step(p, urls[n - 1], pages(n - 1), |urls|)
  }

  /** The documents of attempts 0 .. n-1, irrespective of aborting. */
  function Harvest(urls: seq<string>, pages: nat -> PageOutcome, n: nat): seq<Document>
    requires n <= |urls|
  {
    if n == 0 then []
    else
      var d := PageDocument(urls[n - 1], pages(n - 1));
      Harvest(urls, pages, n - 1) + (if d.Some? then [d.value] else [])
  }

  function Ids(docs: seq<Document>): seq<string> {
    if docs == [] then [] else Ids(docs[..|docs| - 1]) + [Last(docs).id]
  }

  lemma IdsSnoc(docs: seq<Document>, d: Document)
    ensures Ids(docs + [d]) == Ids(docs) + [d.id]
  {
    assert (docs + [d])[..|docs|] == docs;
  }

  lemma StepCount(p: Progress, url: string, o: PageOutcome, total: nat)
    ensures Step(p, url, o, total).fetched == p.fetched + 1
    ensures Step(p, url, o, total).aborted == Aborts(o)
  {
  }

  lemma StepUpdates(p: Progress, url: string, o: PageOutcome, total: nat)
    ensures Step(p, url, o, total).updates == p.updates + [Update(Attempt(VerbOf(o), p.fetched + 1, total, url), false)]
  {
  }

  lemma StepDocs(p: Progress, url: string, o: PageOutcome, total: nat)
    ensures var d := PageDocument(url, o);
      Step(p, url, o, total).docs == p.docs + (if d.Some? then [d.value] else [])
  {
  }

  lemma {:induction false} PagesBound(urls: seq<string>, pages: nat -> PageOutcome, n: nat)
    requires n <= |urls|
    ensures Pages(urls, pages, n).fetched <= n
    ensures !Pages(urls, pages, n).aborted ==> Pages(urls, pages, n).fetched == n
  {
    if n > 0 {
      PagesBound(urls, pages, n - 1);
      if !Pages(urls, pages, n - 1).aborted {
        StepCount(Pages(urls, pages, n - 1), urls[n - 1], pages(n - 1), |urls|);
      }
    }
  }

  /** The loop counts every attempt once and stops right after the first lost connection. */
  lemma {:induction false} PagesCount(urls: seq<string>, pages: nat -> PageOutcome, n: nat)
    requires n <= |urls|
    ensures var p := Pages(urls, pages, n);
      && p.fetched <= n
      && (!p.aborted ==> p.fetched == n && forall j :: 0 <= j < n ==> !Aborts(pages(j)))
      && (p.aborted ==> p.fetched >= 1 && Aborts(pages(p.fetched - 1))
                        && forall j :: 0 <= j < p.fetched - 1 ==> !Aborts(pages(j)))
  {
    if n > 0 {
      PagesCount(urls, pages, n - 1);
      var p := Pages(urls, pages, n - 1);
      if !p.aborted {
        StepCount(p, urls[n - 1], pages(n - 1), |urls|);
      }
    }
  }

  /** The progress notification of attempt `j`. */
  function Notice(urls: seq<string>, pages: nat -> PageOutcome, j: nat): Update
    requires j < |urls|
  {
    Update(Attempt(VerbOf(pages(j)), j + 1, |urls|, urls[j]), false)
  }

  /** The notifications of attempts 0 .. m-1. */
  function Notices(urls: seq<string>, pages: nat -> PageOutcome, m: nat): seq<Update>
    requires m <= |urls|
  {
    if m == 0 then [] else Notices(urls, pages, m - 1) + [Notice(urls, pages, m - 1)]
  }

  lemma {:induction false} NoticesShape(urls: seq<string>, pages: nat -> PageOutcome, m: nat)
    requires m <= |urls|
    ensures |Notices(urls, pages, m)| == m
    ensures forall j :: 0 <= j < m ==> Notices(urls, pages, m)[j] == Notice(urls, pages, j)
  {
    if m > 0 {
      NoticesShape(urls, pages, m - 1);
      var init := Notices(urls, pages, m - 1);
      assert Notices(urls, pages, m) == init + [Notice(urls, pages, m - 1)];
      forall j | 0 <= j < m ensures Notices(urls, pages, m)[j] == Notice(urls, pages, j) {
        if j < m - 1 {
          assert Notices(urls, pages, m)[j] == init[j];
        }
      }
    }
  }

  /** The loop sends one progress notification per attempt, saying which attempt of how many
      it was, which page, and whether the page was skipped, processed or failed. */
  lemma {:induction false} PagesUpdates(urls: seq<string>, pages: nat -> PageOutcome, n: nat)
    requires n <= |urls|
    ensures Pages(urls, pages, n).fetched <= n
    ensures Pages(urls, pages, n).updates == Notices(urls, pages, Pages(urls, pages, n).fetched)
  {
    PagesBound(urls, pages, n);
    if n > 0 {
      PagesUpdates(urls, pages, n - 1);
      PagesBound(urls, pages, n - 1);
      var p := Pages(urls, pages, n - 1);
      if !p.aborted {
        StepCount(p, urls[n - 1], pages(n - 1), |urls|);
        StepUpdates(p, urls[n - 1], pages(n - 1), |urls|);
        assert Notices(urls, pages, n) == Notices(urls, pages, n - 1) + [Notice(urls, pages, n - 1)];
      }
    }
  }

  /** The loop keeps exactly the documents harvested from the attempts it made. */
  lemma {:induction false} PagesDocs(urls: seq<string>, pages: nat -> PageOutcome, n: nat)
    requires n <= |urls|
    ensures Pages(urls, pages, n).fetched <= n
    ensures Pages(urls, pages, n).docs == Harvest(urls, pages, Pages(urls, pages, n).fetched)
  {
    PagesCount(urls, pages, n);
    if n > 0 {
      PagesDocs(urls, pages, n - 1);
      PagesCount(urls, pages, n - 1);
      var p := Pages(urls, pages, n - 1);
      if !p.aborted {
        StepCount(p, urls[n - 1], pages(n - 1), |urls|);
        StepDocs(p, urls[n - 1], pages(n - 1), |urls|);
      }
    }
  }

  /** Every harvested document has a non-empty title and body; there is at most one per
      attempt. */
  lemma {:induction false} HarvestComplete(urls: seq<string>, pages: nat -> PageOutcome, n: nat)
    requires n <= |urls|
    ensures var h := Harvest(urls, pages, n);
      |h| <= n && forall i :: 0 <= i < |h| ==> h[i].title != "" && h[i].body != ""
  {
    if n > 0 {
      HarvestComplete(urls, pages, n - 1);
      var h0 := Harvest(urls, pages, n - 1);
      var d := PageDocument(urls[n - 1], pages(n - 1));
      if d.Some? {
        var h := h0 + [d.value];
        assert Harvest(urls, pages, n) == h;
        forall i | 0 <= i < |h| ensures h[i].title != "" && h[i].body != "" {
          if i < |h0| {
            assert h[i] == h0[i];
          }
        }
      } else {
        assert Harvest(urls, pages, n) == h0 + [] == h0;
      }
    }
  }

  /** The documents' ids are the URLs they came from, in crawl order. */
  lemma {:induction false} HarvestIds(urls: seq<string>, pages: nat -> PageOutcome, n: nat)
    requires n <= |urls|
    ensures Subseq(Ids(Harvest(urls, pages, n)), urls[..n])
  {
    if n > 0 {
      HarvestIds(urls, pages, n - 1);
      var h0 := Harvest(urls, pages, n - 1);
      var d := PageDocument(urls[n - 1], pages(n - 1));
      var u := urls[n - 1];
      assert urls[..n] == urls[..n - 1] + [u];
      SubseqExtend(Ids(h0), urls[..n - 1], u);
      if d.Some? {
        IdsSnoc(h0, d.value);
      } else {
        assert Harvest(urls, pages, n) == h0 + [] == h0;
      }
    }
  }

  // ---------------------------------------------------------------- documentsMap

  /** `documents.forEach(doc => { documentsMap[doc.id] = { title: doc.title }; })` */
  function DocsMap(docs: seq<Document>): map<string, DocInfo> {
    if docs == [] then map[] else DocsMap(docs[..|docs| - 1])[Last(docs).id := DocInfo(Last(docs).title)]
  }

  /** The map's keys are exactly the documents' ids. */
  lemma {:induction false} DocsMapKeys(docs: seq<Document>)
    ensures DocsMap(docs).Keys == set id | id in Ids(docs)
  {
    if docs != [] {
      var init := docs[..|docs| - 1];
      DocsMapKeys(init);
      var ids := Ids(init) + [Last(docs).id];
      assert Ids(docs) == ids;
      forall id ensures id in DocsMap(docs) <==> id in ids {
        assert id in ids <==> id in Ids(init) || id == Last(docs).id;
      }
    }
  }

  /** Each id maps to the title of the last document carrying it (the only one when the ids
      are distinct). */
  lemma {:induction false} DocsMapLast(docs: seq<Document>, i: nat)
    requires i < |docs|
    requires forall j :: i < j < |docs| ==> docs[j].id != docs[i].id
    ensures docs[i].id in DocsMap(docs) && DocsMap(docs)[docs[i].id] == DocInfo(docs[i].title)
  {
    if i < |docs| - 1 {
      var init := docs[..|docs| - 1];
      assert init[i] == docs[i];
      forall j | i < j < |init| ensures init[j].id != init[i].id {
        assert init[j] == docs[j];
      }
      DocsMapLast(init, i);
      assert Last(docs).id != docs[i].id;
    }
  }

  // ---------------------------------------------------------------- a whole run

  /** What the `try` block did: the notifications it sent, the message of the error it threw
      (None when it ran to its end), and what it stored. */
  datatype TryResult = TryResult(updates: seq<Update>, thrown: Option<string>, written: Option<Stored>)

  /** Everything a run sends and writes; `written` is None when nothing is stored. */
  datatype Run = Run(updates: seq<Update>, written: Option<Stored>)

  function ErrorUpdate(msg: string): Update {
    Update(Failed(msg), true)
  }

  /** The `try` block of `startIndexingProcess`. `persist` is the outcome of building the lunr
      index and writing both storage keys. */
  function TryBlock(listing: ListingOutcome, pages: nat -> PageOutcome, persist: Outcome): TryResult {
    match listing
    case ListingNotOk(st) => TryResult([], Some("Failed to fetch contents page: " + st), None)
    case ListingThrew(msg) => TryResult([], Some(msg), None)
    case ListingReplied(reply) =>
      var l := ListingTry(reply, pages, persist);
      TryResult([Update(ParsingListing, false)] + l.updates, l.thrown, l.written)
  }

  /** The `try` block after the "Parsing contents page for links..." notification. */
  function ListingTry(reply: ChannelReply, pages: nat -> PageOutcome, persist: Outcome): TryResult {
    match Relay(reply)
    case Failure(msg) => TryResult([], Some(msg), None)
    case Success(data) =>
      if !data.Links? || |data.links| == 0 then TryResult([], Some(NoRelativeLinks), None)
      else CrawlTry(ResolveAll(Origin, data.links), pages, persist)
  }

  /** The `try` block from the resolved links on. */
  function CrawlTry(urls: seq<string>, pages: nat -> PageOutcome, persist: Outcome): TryResult {
    var found := [Update(Found(|urls|), false)];
    if |urls| == 0 then TryResult(found, Some(NoAbsoluteLinks), None)
    else
      var p := Pages(urls, pages, |urls|);
      var f := Finish(p, persist);
      TryResult(found + p.updates + f.updates, f.thrown, f.written)
  }

  /** The `try` block after the page loop whose outcome is `p`: the notifications it adds,
      the error it throws and what it stores. */
  function Finish(p: Progress, persist: Outcome): TryResult {
    if p.aborted then TryResult([], Some(LostConnection), None)
    else if |p.docs| == 0 then TryResult([], Some(NoDocuments), None)
    else
      var building := Update(Building(|p.docs|), false);
      match persist
      case Fail(msg) => TryResult([building], Some(msg), None)
      case Pass => TryResult([building, Update(Complete(|p.docs|), true)], None, Some(Stored(p.docs, DocsMap(p.docs))))
  }

  /** A run from `isIndexing = true` on: the start notification, the `try` block, and the
      error notification of the `catch` block. */
  function IndexingRun(listing: ListingOutcome, pages: nat -> PageOutcome, persist: Outcome): Run {
    var t := TryBlock(listing, pages, persist);
    Run([Update(Starting, false)] + t.updates + (if t.thrown.Some? then [ErrorUpdate(t.thrown.value)] else []), t.written)
  }

  predicate NoneDone(updates: seq<Update>) {
    forall i :: 0 <= i < |updates| ==> !updates[i].done
  }

  lemma NoneDoneAppend(a: seq<Update>, b: seq<Update>)
    requires NoneDone(a) && NoneDone(b)
    ensures NoneDone(a + b)
  {
    forall i | 0 <= i < |a + b| ensures !(a + b)[i].done {
      if i >= |a| {
        assert (a + b)[i] == b[i - |a|];
      }
    }
  }

  /** A `try` block that throws has stored nothing and sent no final notification; one that
      runs to its end has stored the index and sent the single final notification last. */
  predicate TryShape(t: TryResult) {
    if t.thrown.Some? then t.written.None? && NoneDone(t.updates)
    else t.written.Some? && t.updates != [] && Last(t.updates) == Update(Complete(|t.written.value.indexed|), true)
         && NoneDone(t.updates[..|t.updates| - 1])
  }

  lemma FinishShape(looped: seq<Update>, p: Progress, persist: Outcome)
    requires NoneDone(looped)
    ensures var f := Finish(p, persist); TryShape(TryResult(looped + f.updates, f.thrown, f.written))
  {
    var f := Finish(p, persist);
    if f.thrown.Some? {
      NoneDoneAppend(looped, f.updates);
    } else {
      var building := [Update(Building(|p.docs|), false)];
      NoneDoneAppend(looped, building);
      assert (looped + f.updates)[..|looped| + 1] == looped + building;
    }
  }

  lemma CrawlShape(urls: seq<string>, pages: nat -> PageOutcome, persist: Outcome)
    ensures TryShape(CrawlTry(urls, pages, persist))
  {
    if |urls| > 0 {
      PagesUpdates(urls, pages, |urls|);
      var p := Pages(urls, pages, |urls|);
      NoticesShape(urls, pages, p.fetched);
      assert NoneDone(p.updates);
      NoneDoneAppend([Update(Found(|urls|), false)], p.updates);
      FinishShape([Update(Found(|urls|), false)] + p.updates, p, persist);
    }
  }

  lemma ListingShape(reply: ChannelReply, pages: nat -> PageOutcome, persist: Outcome)
    ensures TryShape(ListingTry(reply, pages, persist))
  {
    if Relay(reply).Success? {
      var data := Relay(reply).value;
      if data.Links? && |data.links| > 0 {
        CrawlShape(ResolveAll(Origin, data.links), pages, persist);
      }
    }
  }

  lemma TryBlockShape(listing: ListingOutcome, pages: nat -> PageOutcome, persist: Outcome)
    ensures TryShape(TryBlock(listing, pages, persist))
  {
    if listing.ListingReplied? {
      var l := ListingTry(listing.reply, pages, persist);
      ListingShape(listing.reply, pages, persist);
      if l.thrown.Some? {
        NoneDoneAppend([Update(ParsingListing, false)], l.updates);
      } else {
        var init := l.updates[..|l.updates| - 1];
        NoneDoneAppend([Update(ParsingListing, false)], init);
        assert ([Update(ParsingListing, false)] + l.updates)[..|l.updates|] == [Update(ParsingListing, false)] + init;
      }
    }
  }

  /** A notification sequence that only its last element ends, with an error exactly when
      nothing was stored. */
  predicate EndsOnce(updates: seq<Update>, written: Option<Stored>) {
    && |updates| >= 2
    && Last(updates).done
    && NoneDone(updates[..|updates| - 1])
    && (written.None? <==> Last(updates).status.Failed?)
  }

  /** Only the last notification of a run says `done` (so the badge shows "IDX" until the run
      ends), and the run ends with an error notification exactly when nothing is stored. */
  lemma RunEndsDone(listing: ListingOutcome, pages: nat -> PageOutcome, persist: Outcome)
    ensures var r := IndexingRun(listing, pages, persist); EndsOnce(r.updates, r.written)
  {
    var t := TryBlock(listing, pages, persist);
    TryBlockShape(listing, pages, persist);
    var u := IndexingRun(listing, pages, persist).updates;
    if t.thrown.Some? {
      NoneDoneAppend([Update(Starting, false)], t.updates);
      assert u[..|u| - 1] == [Update(Starting, false)] + t.updates;
    } else {
      var init := t.updates[..|t.updates| - 1];
      NoneDoneAppend([Update(Starting, false)], init);
      assert u == [Update(Starting, false)] + init + [Last(t.updates)];
      assert u[..|u| - 1] == [Update(Starting, false)] + init;
    }
  }

  /** A stored index is built from a non-empty list of complete documents harvested from the
      resolved links, in order, after every link was attempted; the stored map's keys are the
      documents' ids. */
  lemma SuccessfulRun(listing: ListingOutcome, pages: nat -> PageOutcome, persist: Outcome)
    requires IndexingRun(listing, pages, persist).written.Some?
    ensures listing.ListingReplied? && Relay(listing.reply).Success?
    ensures var data := Relay(listing.reply).value;
      && data.Links? && data.links != []
      && var urls := ResolveAll(Origin, data.links);
      && var s := IndexingRun(listing, pages, persist).written.value;
      && persist == Pass
      && (forall j :: 0 <= j < |urls| ==> !Aborts(pages(j)))
      && s.indexed == Harvest(urls, pages, |urls|) && 0 < |s.indexed| <= |urls|
      && (forall i :: 0 <= i < |s.indexed| ==> s.indexed[i].title != "" && s.indexed[i].body != "")
      && Subseq(Ids(s.indexed), urls)
      && s.docs == DocsMap(s.indexed)
      && s.docs.Keys == set id | id in Ids(s.indexed)
      && (forall id :: id in s.docs ==> id in urls)
  {
    var data := Relay(listing.reply).value;
    var urls := ResolveAll(Origin, data.links);
    PagesCount(urls, pages, |urls|);
    PagesDocs(urls, pages, |urls|);
    HarvestComplete(urls, pages, |urls|);
    HarvestIds(urls, pages, |urls|);
    assert urls[..|urls|] == urls;
    DocsMapKeys(Harvest(urls, pages, |urls|));
    SubseqMembers(Ids(Harvest(urls, pages, |urls|)), urls);
  }

  /** The `catch` block reports the error the `try` block threw as the run's last
      notification, and such a run stores nothing. */
  lemma ThrownIsReported(listing: ListingOutcome, pages: nat -> PageOutcome, persist: Outcome, msg: string)
    requires TryBlock(listing, pages, persist).thrown == Some(msg)
    ensures var r := IndexingRun(listing, pages, persist);
      r.updates != [] && Last(r.updates) == ErrorUpdate(msg) && r.written == None
  {
    TryBlockShape(listing, pages, persist);
  }

  /** A contents page whose response is not ok, or whose fetch threw, ends the run at once:
      the start notice, then one done "Error: " notice with the fetch's failure, nothing
      stored. */
  lemma ListingFailureReported(listing: ListingOutcome, pages: nat -> PageOutcome, persist: Outcome)
    requires !listing.ListingReplied?
    ensures var msg := if listing.ListingNotOk? then "Failed to fetch contents page: " + listing.statusText
                       else listing.message;
      IndexingRun(listing, pages, persist) == Run([Update(Starting, false), ErrorUpdate(msg)], None)
      && StatusText(ErrorUpdate(msg).status) == "Error: " + msg
  {
  }

  /** The run's own reasons for giving up once the contents page was parsed, each with a
      message of its own: no relative links, no link that resolves, a lost connection, and no
      complete document. Each ends the run with its error notification and stores nothing. */
  lemma AbortReasons(listing: ListingOutcome, pages: nat -> PageOutcome, persist: Outcome)
    requires listing.ListingReplied? && Relay(listing.reply).Success?
    ensures NoRelativeLinks != NoAbsoluteLinks && NoRelativeLinks != LostConnection
      && NoRelativeLinks != NoDocuments && NoAbsoluteLinks != LostConnection
      && NoAbsoluteLinks != NoDocuments && LostConnection != NoDocuments
    ensures var data := Relay(listing.reply).value;
      var urls := if data.Links? then ResolveAll(Origin, data.links) else [];
      var reason :=
        if !data.Links? || data.links == [] then NoRelativeLinks
        else if urls == [] then NoAbsoluteLinks
        else if Pages(urls, pages, |urls|).aborted then LostConnection
        else if Harvest(urls, pages, |urls|) == [] then NoDocuments
        else "";
      var r := IndexingRun(listing, pages, persist);
      reason != "" ==> Last(r.updates) == ErrorUpdate(reason) && r.written == None
  {
    var data := Relay(listing.reply).value;
    if data.Links? && data.links != [] {
      var urls := ResolveAll(Origin, data.links);
      if urls != [] {
        PagesCount(urls, pages, |urls|);
        PagesDocs(urls, pages, |urls|);
      }
    }
    var t := TryBlock(listing, pages, persist);
    if t.thrown.Some? {
      ThrownIsReported(listing, pages, persist, t.thrown.value);
    }
  }

  /** A lost connection on attempt `j` ends the page loop after exactly j + 1 attempts and
      makes the `try` block throw the abort message, storing nothing; any other page error
      only moves on to the next link. */
  lemma LostConnectionAborts(urls: seq<string>, pages: nat -> PageOutcome, persist: Outcome, j: nat)
    requires j < |urls| && Aborts(pages(j))
    requires forall i :: 0 <= i < j ==> !Aborts(pages(i))
    ensures Pages(urls, pages, |urls|).aborted && Pages(urls, pages, |urls|).fetched == j + 1
    ensures CrawlTry(urls, pages, persist).thrown == Some(LostConnection)
    ensures CrawlTry(urls, pages, persist).written == None
  {
    PagesCount(urls, pages, |urls|);
  }

  /** A page whose parse got no reply at all ("Offscreen document did not respond.") is an
      error on that page only: it does not abort the crawl. */
  lemma NoReplyDoesNotAbort()
    ensures PageError(PageReplied(NoReply)) == Some(NoResponse)
    ensures !Aborts(PageReplied(NoReply))
  {
    assert 'C' !in NoResponse && 'g' !in NoResponse by {
      forall i | 0 <= i < |NoResponse| ensures NoResponse[i] != 'C' && NoResponse[i] != 'g' { }
    }
    MissingChar(NoResponse, "Connection to offscreen lost", 'C');
    MissingChar(NoResponse, "message port closed", 'g');
  }

  // ---------------------------------------------------------------- an example run

  /** A page that yields a document cannot abort the crawl, and its notification says it was
      processed. */
  lemma DocumentPage(url: string, o: PageOutcome)
    requires PageDocument(url, o).Some?
    ensures !Aborts(o) && PageError(o).None? && VerbOf(o) == Processing
  {
  }

  /** The page loop over three links whose second answers 404 and whose others hold complete
      content: attempts one and three are processed and yield documents, attempt two is skipped. */
  lemma ThreePagesLoop(urls: seq<string>, pages: nat -> PageOutcome)
    requires |urls| == 3 && pages(1).PageNotOk?
    requires PageDocument(urls[0], pages(0)).Some? && PageDocument(urls[2], pages(2)).Some?
    ensures Pages(urls, pages, 3) ==
      Progress([PageDocument(urls[0], pages(0)).value, PageDocument(urls[2], pages(2)).value], 3,
               [Update(Attempt(Processing, 1, 3, urls[0]), false),
                Update(Attempt(Skipping, 2, 3, urls[1]), false),
                Update(Attempt(Processing, 3, 3, urls[2]), false)], false)
  {
    var d0 := PageDocument(urls[0], pages(0)).value;
    DocumentPage(urls[0], pages(0));
    DocumentPage(urls[2], pages(2));
    var p0 := Pages(urls, pages, 0);
    StepCount(p0, urls[0], pages(0), 3);
    StepUpdates(p0, urls[0], pages(0), 3);
    StepDocs(p0, urls[0], pages(0), 3);
    var p1 := Pages(urls, pages, 1);
    assert p1 == Progress([d0], 1, [Update(Attempt(Processing, 1, 3, urls[0]), false)], false);
    StepCount(p1, urls[1], pages(1), 3);
    StepUpdates(p1, urls[1], pages(1), 3);
    StepDocs(p1, urls[1], pages(1), 3);
    var p2 := Pages(urls, pages, 2);
    StepCount(p2, urls[2], pages(2), 3);
    StepUpdates(p2, urls[2], pages(2), 3);
    StepDocs(p2, urls[2], pages(2), 3);
  }

  /** Three links whose second answers 404 and whose others hold complete content: the run
      processes pages one and three, skips page two, and stores the two documents. */
  lemma ThreePagesSecondMissing(urls: seq<string>, pages: nat -> PageOutcome)
    requires |urls| == 3 && pages(1).PageNotOk?
    requires PageDocument(urls[0], pages(0)).Some? && PageDocument(urls[2], pages(2)).Some?
    ensures var d0, d2 := PageDocument(urls[0], pages(0)).value, PageDocument(urls[2], pages(2)).value;
      CrawlTry(urls, pages, Pass) ==
        TryResult([Update(Found(3), false),
                   Update(Attempt(Processing, 1, 3, urls[0]), false),
                   Update(Attempt(Skipping, 2, 3, urls[1]), false),
                   Update(Attempt(Processing, 3, 3, urls[2]), false),
                   Update(Building(2), false),
                   Update(Complete(2), true)],
                  None, Some(Stored([d0, d2], DocsMap([d0, d2]))))
  {
    ThreePagesLoop(urls, pages);
  }
}
