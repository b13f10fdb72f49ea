/** The service worker of background.js: its module-level state as a class, and the indexing
    run performed step by step against that state. Network, offscreen and storage results
    arrive as parameters (see the Crawl module); each method is proved to do what the Crawl
    specification says a run does. */
module Background {
  import opened Basics
  import opened Text
  import Offscreen
  import opened Crawl

  /** The `for (const relPath of relativeLinks)` loop: absolute URLs of the paths that start
      with '/', skipping those the URL constructor rejects. */
  method ResolveLinks(origin: string, relativeLinks: seq<string>) returns (absolute: seq<string>)
    ensures absolute == ResolveAll(origin, relativeLinks)
  {
    absolute := [];
    var i := 0;
    while i < |relativeLinks|
      invariant 0 <= i <= |relativeLinks|
      invariant absolute == ResolveAll(origin, relativeLinks[..i])
    {
      var relPath := relativeLinks[i];
      assert relativeLinks[..i + 1][..i] == relativeLinks[..i];
      if HasPrefix(relPath, "/") {
        var fullUrl := ResolveUrl(origin, relPath);
        if fullUrl.Some? {
          absolute := absolute + [fullUrl.value];
        }
      }
      i := i + 1;
    }
    assert relativeLinks[..i] == relativeLinks;
  }

  /** `documents.forEach(doc => { documentsMap[doc.id] = { title: doc.title }; })` */
  method DocumentsMap(documents: seq<Document>) returns (documentsMap: map<string, DocInfo>)
    ensures documentsMap == DocsMap(documents)
  {
    documentsMap := map[];
    var i := 0;
    while i < |documents|
      invariant 0 <= i <= |documents|
      invariant documentsMap == DocsMap(documents[..i])
    {
      assert documents[..i + 1][..i] == documents[..i];
      documentsMap := documentsMap[documents[i].id := DocInfo(documents[i].title)];
      i := i + 1;
    }
    assert documents[..i] == documents;
  }

  /** An attempt the loop makes extends its progress by one step. */
  lemma PagesNext(urls: seq<string>, pages: nat -> PageOutcome, i: nat)
    requires i < |urls| && !Pages(urls, pages, i).aborted
    ensures Pages(urls, pages, i + 1) == Step(Pages(urls, pages, i), urls[i], pages(i), |urls|)
  {
  }

  /** A step does not depend on the notifications sent before the loop. */
  lemma StepAfter(before: seq<Update>, p: Progress, url: string, o: PageOutcome, total: nat)
    ensures var s, t := Step(Progress(p.docs, p.fetched, before + p.updates, false), url, o, total), Step(p, url, o, total);
      s == Progress(t.docs, t.fetched, before + t.updates, t.aborted)
  {
    Regroup3(before, p.updates, [Update(Attempt(VerbOf(o), p.fetched + 1, total, url), false)]);
  }

  /** Once the loop has aborted, later attempts change nothing. */
  lemma {:induction false} PagesStayAborted(urls: seq<string>, pages: nat -> PageOutcome, m: nat, n: nat)
    requires m <= n <= |urls| && Pages(urls, pages, m).aborted
    ensures Pages(urls, pages, n) == Pages(urls, pages, m)
  {
    if n > m {
      PagesStayAborted(urls, pages, m, n - 1);
    }
  }

  /** How one page attempt that got past `pageResponse.ok` ended: the parsed content, or
      the error thrown by `text()` or `parseHtmlViaOffscreen`. */
  function PageParse(o: PageOutcome): Result<Offscreen.Data>
    requires !o.PageNotOk?
  {
    if o.PageThrew? then Failure(o.message) else Relay(o.reply)
  }

  /** The notification, the document and the abort decision of one attempt, by how it ended. */
  lemma AttemptFacts(url: string, o: PageOutcome)
    ensures o.PageNotOk? ==> PageDocument(url, o) == None && !Aborts(o) && VerbOf(o) == Skipping
    ensures !o.PageNotOk? && PageParse(o).Failure? ==>
      && PageDocument(url, o) == None && (Aborts(o) <==> ConnectionLost(PageParse(o).error))
      && VerbOf(o) == ErrorOn
    ensures !o.PageNotOk? && PageParse(o).Success? ==>
      && !Aborts(o) && VerbOf(o) == Processing
      && var c := PageParse(o).value;
      && PageDocument(url, o) ==
           (if c.Content? && c.record.title != "" && c.record.body != ""
            then Some(Document(url, c.record.title, c.record.body)) else None)
  {
  }

  /** Notifications sent in four stretches are the first stretch followed by the other three. */
  lemma Regroup(a: seq<Update>, b: seq<Update>, c: seq<Update>, d: seq<Update>)
    ensures a + b + c + d == a + (b + c + d)
  {
  }

  lemma Regroup3(a: seq<Update>, b: seq<Update>, c: seq<Update>)
    ensures a + b + c == a + (b + c)
  {
  }

  class ServiceWorker {
    /** Whether `importScripts` provided `lunr`. */
    const lunrLoaded: bool
    var isIndexing: bool
    /** `indexingStatus`, reported to the popup by "getIndexStatus": the template and the
        values it was worded from; its text is `StatusText(status)`. */
    var status: Status
    var badge: string
    /** Every status notification sent so far. */
    var sent: seq<Update>
    /** What chrome.storage.local holds under both keys. */
    var stored: Option<Stored>
    /** `creatingOffscreenDocument` is not null. */
    var creating: bool
    /** createDocument calls made whose promise has not settled yet. */
    var pending: nat
    /** Whether the offscreen document exists. */
    var offscreenOpen: bool

    /** The status and the badge show the last notification sent. */
    predicate Shown()
      reads this
    {
      if sent == [] then status == Ready && badge == ""
      else status == Last(sent).status && badge == (if Last(sent).done then "" else "IDX")
    }

    /** A fresh worker: idle, "Ready.", with whatever storage already holds. */
    constructor (lunr: bool, storage: Option<Stored>)
      ensures lunrLoaded == lunr && stored == storage && Shown()
      ensures !isIndexing && status == Ready && sent == []
      ensures !creating && pending == 0 && !offscreenOpen && SingleFlight()
    {
      lunrLoaded := lunr;
      isIndexing := false;
      status := Ready;
      badge := "";
      sent := [];
      stored := storage;
      creating := false;
      pending := 0;
      offscreenOpen := false;
    }

    /** `updateStatus`: records the text, notifies the popup, and shows "IDX" on the badge
        until a notification says `done`. */
    method UpdateStatus(s: Status, done: bool)
      modifies this`status, this`badge, this`sent
      ensures Shown()
      ensures status == s && badge == (if done then "" else "IDX")
      ensures sent == old(sent) + [Update(s, done)]
    {
      status := s;
      sent := sent + [Update(s, done)];
      badge := if done then "" else "IDX";
    }

    /** The first statements of `startIndexingProcess`: a run already in progress makes the
        call return at once, a missing lunr library ends it with an error, and otherwise the
        run starts. */
    method Begin() returns (started: bool)
      requires Shown()
      modifies this`isIndexing, this`status, this`badge, this`sent
      ensures Shown()
      ensures started <==> !old(isIndexing) && lunrLoaded
      ensures old(isIndexing) ==> isIndexing && sent == old(sent) && status == old(status) && badge == old(badge)
      ensures !old(isIndexing) && !lunrLoaded ==> !isIndexing && sent == old(sent) + [ErrorUpdate(LunrMissing)]
      ensures started ==> isIndexing && sent == old(sent) + [Update(Starting, false)]
    {
      if isIndexing {
        return false;
      }
      if !lunrLoaded {
        UpdateStatus(Failed(LunrMissing), true);
        return false;
      }
      isIndexing := true;
      UpdateStatus(Starting, false);
      return true;
    }

    /** The check at the end of the script: a worker without lunr that still shows "Ready."
        reports the missing library as its final status; otherwise nothing changes. */
    method ScriptEnd()
      modifies this`status, this`badge, this`sent
      ensures if !lunrLoaded && old(status) == Ready
        then Shown() && sent == old(sent) + [ErrorUpdate(LunrMissing)]
        else status == old(status) && badge == old(badge) && sent == old(sent)
    {
      if !lunrLoaded && status == Ready {
        UpdateStatus(Failed(LunrMissing), true);
      }
    }

    /** The body of the page loop for one link: its notification, the document it keeps, and
        whether its error is a lost connection that ends the loop. */
    method AttemptPage(url: string, outcome: PageOutcome, total: nat, documents: seq<Document>, fetchedCount: nat)
      returns (kept: seq<Document>, count: nat, lost: bool)
      requires Shown()
      modifies this`status, this`badge, this`sent
      ensures Shown()
      ensures Progress(kept, count, sent, lost) == Step(Progress(documents, fetchedCount, old(sent), false), url, outcome, total)
    {
      AttemptFacts(url, outcome);
      kept, count, lost := documents, fetchedCount, false;
      if outcome.PageNotOk? {
        count := count + 1;
        UpdateStatus(Attempt(Skipping, count, total, url), false);
      } else {
        // fetching the text and the offscreen round trip, inside the loop's `try`
        var parsed := PageParse(outcome);
        match parsed
        case Success(parsedContent) =>
          if parsedContent.Content? && parsedContent.record.title != "" && parsedContent.record.body != "" {
            kept := kept + [Document(url, parsedContent.record.title, parsedContent.record.body)];
          }
          count := count + 1;
          UpdateStatus(Attempt(Processing, count, total, url), false);
        case Failure(pageError) =>
          count := count + 1;
          UpdateStatus(Attempt(ErrorOn, count, total, url), false);
          lost := ConnectionLost(pageError);
      }
    }

    /** The `for (const url of absoluteGuidanceLinks)` loop: the documents kept, the attempts
        counted, and whether a lost connection ended it. */
    method FetchPages(urls: seq<string>, pages: nat -> PageOutcome) returns (documents: seq<Document>, fetchedCount: nat, aborted: bool)
      requires Shown()
      modifies this`status, this`badge, this`sent
      ensures Shown()
      ensures var p := Pages(urls, pages, |urls|);
        && sent == old(sent) + p.updates
        && documents == p.docs && fetchedCount == p.fetched && aborted == p.aborted
    {
      documents := [];
      fetchedCount := 0;
      aborted := false;
      var total := |urls|;
      var i := 0;
      while i < total
        invariant 0 <= i <= total
        invariant Shown()
        invariant var p := Pages(urls, pages, i);
          && sent == old(sent) + p.updates
          && documents == p.docs && fetchedCount == p.fetched && !p.aborted && !aborted
      {
        ghost var p := Pages(urls, pages, i);
        documents, fetchedCount, aborted := AttemptPage(urls[i], pages(i), total, documents, fetchedCount);
        PagesNext(urls, pages, i);
        StepAfter(old(sent), p, urls[i], pages(i), total);
        if aborted {
          PagesStayAborted(urls, pages, i + 1, total);
          return;
        }
        i := i + 1;
      }
    }

    /** What follows the page loop: the empty-corpus check, building and storing the index,
        and the final notification (`p` is the loop's outcome). */
    method FinishIndexing(documents: seq<Document>, aborted: bool, ghost p: Progress, persist: Outcome)
      returns (thrown: Option<string>)
      requires Shown() && documents == p.docs && aborted == p.aborted
      modifies this`status, this`badge, this`sent, this`stored
      ensures Shown()
      ensures var f := Finish(p, persist);
        && thrown == f.thrown
        && sent == old(sent) + f.updates
        && stored == (if f.written.Some? then f.written else old(stored))
    {
      if aborted {
        return Some(LostConnection);
      }
      if |documents| == 0 {
        return Some(NoDocuments);
      }
      UpdateStatus(Building(|documents|), false);
      var documentsMap := DocumentsMap(documents);
      match persist
      case Fail(msg) =>
        return Some(msg);
      case Pass =>
        stored := Some(Stored(documents, documentsMap));
        UpdateStatus(Complete(|documents|), true);
        return None;
    }

    /** The page loop and what follows it, from the "Found N links" notification on. */
    method CrawlPages(urls: seq<string>, pages: nat -> PageOutcome, persist: Outcome) returns (thrown: Option<string>)
      requires Shown()
      modifies this`status, this`badge, this`sent, this`stored
      ensures Shown()
      ensures var t := CrawlTry(urls, pages, persist);
        && thrown == t.thrown
        && sent == old(sent) + t.updates
        && stored == (if t.written.Some? then t.written else old(stored))
    {
      UpdateStatus(Found(|urls|), false);
      if |urls| == 0 {
        return Some(NoAbsoluteLinks);
      }
      var documents, fetchedCount, aborted := FetchPages(urls, pages);
      ghost var p := Pages(urls, pages, |urls|);
      thrown := FinishIndexing(documents, aborted, p, persist);
      Regroup(old(sent), [Update(Found(|urls|), false)], p.updates, Finish(p, persist).updates);
    }

    /** The `try` block of `startIndexingProcess`; the result is the message of the error it
        throws, if any. */
    method Try(listing: ListingOutcome, pages: nat -> PageOutcome, persist: Outcome) returns (thrown: Option<string>)
      requires Shown()
      modifies this`status, this`badge, this`sent, this`stored
      ensures Shown()
      ensures var t := TryBlock(listing, pages, persist);
        && thrown == t.thrown
        && sent == old(sent) + t.updates
        && stored == (if t.written.Some? then t.written else old(stored))
    {
      match listing
      case ListingNotOk(statusText) =>
        return Some("Failed to fetch contents page: " + statusText);
      case ListingThrew(msg) =>
        return Some(msg);
      case ListingReplied(reply) =>
        UpdateStatus(ParsingListing, false);
        thrown := ParseListing(reply, pages, persist);
        Regroup3(old(sent), [Update(ParsingListing, false)], ListingTry(reply, pages, persist).updates);
    }

    /** From `parseHtmlViaOffscreen(html, 'extract-links')` on: the link array check, the
        resolution of the links, and the crawl. */
    method ParseListing(reply: ChannelReply, pages: nat -> PageOutcome, persist: Outcome) returns (thrown: Option<string>)
      requires Shown()
      modifies this`status, this`badge, this`sent, this`stored
      ensures Shown()
      ensures var t := ListingTry(reply, pages, persist);
        && thrown == t.thrown
        && sent == old(sent) + t.updates
        && stored == (if t.written.Some? then t.written else old(stored))
    {
      var parsed := Relay(reply);
      if parsed.Failure? {
        return Some(parsed.error);
      }
      var relativeLinks := parsed.value;
      if !relativeLinks.Links? || |relativeLinks.links| == 0 {
        return Some(NoRelativeLinks);
      }
      var absoluteLinks := ResolveLinks(Origin, relativeLinks.links);
      thrown := CrawlPages(absoluteLinks, pages, persist);
    }

    /** The rest of `startIndexingProcess` once `isIndexing` is set: the `try` block, the
        `catch` block's error notification, and resetting `isIndexing` in `finally`. */
    method Crawl(listing: ListingOutcome, pages: nat -> PageOutcome, persist: Outcome)
      requires Shown() && isIndexing
      modifies this`isIndexing, this`status, this`badge, this`sent, this`stored
      ensures Shown() && !isIndexing
      ensures var t := TryBlock(listing, pages, persist);
        && sent == old(sent) + t.updates + (if t.thrown.Some? then [ErrorUpdate(t.thrown.value)] else [])
        && stored == (if t.written.Some? then t.written else old(stored))
    {
      var thrown := Try(listing, pages, persist);
      if thrown.Some? {
        UpdateStatus(Failed(thrown.value), true);
      }
      isIndexing := false;
    }

    /** `startIndexingProcess` run to its end without another request interleaving: nothing
        when already indexing, the lunr error when lunr is missing, and otherwise the run the
        Crawl specification describes, after which the worker is idle again. */
    method StartIndexing(listing: ListingOutcome, pages: nat -> PageOutcome, persist: Outcome)
      requires Shown()
      modifies this`isIndexing, this`status, this`badge, this`sent, this`stored
      ensures Shown()
      ensures old(isIndexing) ==> isIndexing && sent == old(sent) && stored == old(stored)
      ensures !old(isIndexing) && !lunrLoaded ==>
        !isIndexing && sent == old(sent) + [ErrorUpdate(LunrMissing)] && stored == old(stored)
      ensures !old(isIndexing) && lunrLoaded ==>
        var r := IndexingRun(listing, pages, persist);
        && !isIndexing
        && sent == old(sent) + r.updates
        && stored == (if r.written.Some? then r.written else old(stored))
    {
      var started := Begin();
      if started {
        Crawl(listing, pages, persist);
        ghost var t := TryBlock(listing, pages, persist);
        ghost var tail := if t.thrown.Some? then [ErrorUpdate(t.thrown.value)] else [];
        Regroup(old(sent), [Update(Starting, false)], t.updates, tail);
      }
    }

    // ------------------------------------------------ setupOffscreenDocument, phase by phase

    /** Its first test: while a creation is pending the call awaits it, otherwise it goes on
        to ask whether the document exists. */
    method SetupBegin() returns (awaitsPending: bool)
      ensures awaitsPending == creating
    {
      awaitsPending := creating;
    }

    /** Resuming after `hasOffscreenDocument` answered `present`, AS WRITTEN: without looking
        at `creatingOffscreenDocument` again, a missing document is created. */
    method SetupResumeAsWritten(present: bool)
      modifies this`creating, this`pending
      ensures creating == (old(creating) || !present)
      ensures pending == old(pending) + (if present then 0 else 1)
    {
      if !present {
        creating := true;
        pending := pending + 1;
      }
    }

    /** Resuming after `hasOffscreenDocument`, corrected: when another call began a creation
        meanwhile, this one awaits that creation instead of starting its own, so the
        single-flight invariant is kept whatever happened while the call was suspended. */
    method SetupResume(present: bool)
      modifies this`creating, this`pending
      ensures creating == (old(creating) || !present)
      ensures pending == old(pending) + (if present || old(creating) then 0 else 1)
      ensures old(SingleFlight()) ==> SingleFlight()
    {
      if !present && !creating {
        creating := true;
        pending := pending + 1;
      }
    }

    /** A createDocument promise settles; `finally` clears `creatingOffscreenDocument`. */
    method CreationSettled(ok: bool)
      requires pending > 0
      modifies this`creating, this`pending, this`offscreenOpen
      ensures !creating && pending == old(pending) - 1
      ensures offscreenOpen == (old(offscreenOpen) || ok)
      ensures old(SingleFlight()) ==> SingleFlight()
    {
      creating := false;
      pending := pending - 1;
      if ok {
        offscreenOpen := true;
      }
    }

    /** At most one creation is in flight, and `creatingOffscreenDocument` is set exactly
        while it is. */
    predicate SingleFlight()
      reads this
    {
      pending <= 1 && (creating <==> pending == 1)
    }
  }

  /** Two set-ups that overlap, as written: both find no document before either creates
      one, and both call createDocument. */
  method OverlappingSetupsAsWritten() returns (w: ServiceWorker)
    ensures w.pending == 2 && w.creating && !w.SingleFlight()
  {
    w := new ServiceWorker(true, None);
    var firstAwaits := w.SetupBegin();
    var secondAwaits := w.SetupBegin();
    assert !firstAwaits && !secondAwaits;
    w.SetupResumeAsWritten(false);
    w.SetupResumeAsWritten(false);
  }

  /** The same overlap with the corrected resumption: one createDocument call, and the second
      set-up waits for it. */
  method OverlappingSetups() returns (w: ServiceWorker)
    ensures w.pending == 1 && w.SingleFlight()
  {
    w := new ServiceWorker(true, None);
    var firstAwaits := w.SetupBegin();
    var secondAwaits := w.SetupBegin();
    w.SetupResume(false);
    w.SetupResume(false);
  }
}
