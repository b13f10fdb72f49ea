/** The search widget content.js adds to the guidance contents page: loading the stored index,
    and answering each keystroke in the search box. The DOM elements are fields of a class;
    storage and the search engine arrive as parameters (lunr, its scoring and
    `JSON.parse` are not modelled). */
module Content {
  import opened Basics
  import opened Text
  import Crawl

  const MinQueryLength := 3
  const MaxResults := 20

  const NotLoaded := "Index not loaded or still loading."
  const NoMatches := "No matches found."
  const SearchError := "Error during search execution."

  /** A ranked hit of `index.search`, by its `ref` (the score is only displayed). */
  datatype Hit = Hit(ref: string)

  /** A loaded index, represented by the serialisation it was loaded from. */
  datatype Index = Index(serialised: string)

  /** One list item of the results: the link target and its text. */
  datatype Item = Item(href: string, title: string)

  /** What the results area shows: nothing, a message, or a list of links. */
  datatype Results = Cleared | Note(text: string) | Listing(items: seq<Item>)

  /** What `chrome.storage.local.get` passed to the callback: an error (`lastError`), or the
      values under the index key and the documents key, None when absent. */
  datatype StorageRead = ReadFailed | Read(index: Option<string>, docs: Option<map<string, Crawl.DocInfo>>)

  // ---------------------------------------------------------------- loading the index

  /** Both keys are present: the serialised index is a non-empty string (an empty string is
      falsy) and the documents map is an object. */
  predicate Present(r: StorageRead) {
    r.Read? && r.index.Some? && r.index.value != "" && r.docs.Some?
  }

  /** `loads(s)` says whether `lunr.Index.load(JSON.parse(s))` returns rather than throws. */
  predicate Loads(r: StorageRead, loads: string -> bool) {
    Present(r) && loads(r.index.value)
  }

  function LoadStatus(r: StorageRead, loads: string -> bool): string {
    if r.ReadFailed? then "Error loading index."
    else if !Present(r) then "Index not built. Use extension popup to build."
    else if loads(r.index.value) then "Index ready (" + NatToString(|r.docs.value|) + " docs)."
    else "Error loading index data."
  }

  function LoadPlaceholder(r: StorageRead, loads: string -> bool): string {
    if r.ReadFailed? then "Error loading index"
    else if !Present(r) then "Index not built yet"
    else if loads(r.index.value) then "Search guidance..."
    else "Failed to load index"
  }

  // ---------------------------------------------------------------- answering a query

  /** `rawQuery.toLowerCase().split(/\s+/).filter(term => term.length > 0)` */
  function Terms(rawQuery: string): seq<string> {
    Words(Lower(rawQuery))
  }

  /** The boosted phrase part of a multi-term query, up to the terms. */
  function PhrasePart(rawQuery: string): string {
    "\"" + rawQuery + "\"^100 title:\"" + rawQuery + "\"^50 body:\"" + rawQuery + "\" "
  }

  /** The query string handed to `index.search`. */
  function QueryFor(rawQuery: string): string {
    var terms := Terms(rawQuery);
    if |terms| > 1 then PhrasePart(rawQuery) + Join(terms, " ") else rawQuery
  }

  /** `docInfo ? docInfo.title : docRef` */
  function TitleFor(ref: string, docsMap: Option<map<string, Crawl.DocInfo>>): string {
    if docsMap.Some? && ref in docsMap.value then docsMap.value[ref].title else ref
  }

  function ItemFor(h: Hit, docsMap: Option<map<string, Crawl.DocInfo>>): Item {
    Item(h.ref, TitleFor(h.ref, docsMap))
  }

  /** The list items for the hits, in order. */
  function ItemsFor(hits: seq<Hit>, docsMap: Option<map<string, Crawl.DocInfo>>): seq<Item> {
    if hits == [] then [] else ItemsFor(hits[..|hits| - 1], docsMap) + [ItemFor(Last(hits), docsMap)]
  }

  /** `searchResults.slice(0, 20)`: the first twenty hits, or all of them when there are
      fewer, in the order returned. */
  function Top(hits: seq<Hit>): (r: seq<Hit>)
    ensures |r| == if |hits| < MaxResults then |hits| else MaxResults
    ensures r == hits[..|r|]
  {
    if |hits| <= MaxResults then hits else hits[..MaxResults]
  }

  /** What the results area shows after an input event whose box holds `value`. */
  function Display(index: Option<Index>, docsMap: Option<map<string, Crawl.DocInfo>>, value: string,
                   search: (Index, string) -> Result<seq<Hit>>): Results
  {
    var rawQuery := Trim(value);
    if index.None? then Note(NotLoaded)
    else if |rawQuery| < MinQueryLength then Cleared
    else match search(index.value, QueryFor(rawQuery))
      case Failure(_) => Note(SearchError)
      case Success(hits) => if hits == [] then Note(NoMatches) else Listing(ItemsFor(Top(hits), docsMap))
  }

  /** Every term is a non-empty run of non-white-space characters, and together they hold
      exactly the non-white-space characters of the lowercased query, in order. */
  lemma TermsAreWords(rawQuery: string)
    ensures forall i :: 0 <= i < |Terms(rawQuery)| ==> Terms(rawQuery)[i] != [] && NoWs(Terms(rawQuery)[i])
    ensures Concat(Terms(rawQuery)) == NonWs(Lower(rawQuery))
  {
    WordsAreWords(Lower(rawQuery));
    WordsKeepText(Lower(rawQuery));
  }

  /** A multi-term query is the phrase part followed by the terms; the terms part is the
      lowercased query with its white space collapsed to single spaces, and splitting it
      again gives the terms back. A single-term (or empty) query is passed unchanged. */
  lemma QueryShape(rawQuery: string)
    ensures |Terms(rawQuery)| <= 1 ==> QueryFor(rawQuery) == rawQuery
    ensures |Terms(rawQuery)| > 1 ==>
      var tail := Join(Terms(rawQuery), " ");
      && QueryFor(rawQuery) == PhrasePart(rawQuery) + tail
      && tail == Normalize(Lower(rawQuery))
      && Words(tail) == Terms(rawQuery)
  {
    if |Terms(rawQuery)| > 1 {
      TermsAreWords(rawQuery);
      WordsOfJoin(Terms(rawQuery));
      NormalizeIsJoinedWords(Lower(rawQuery));
    }
  }

  /** A multi-term query begins with the trimmed query exactly as typed, quoted and boosted
      by 100; it is not lowercased. */
  lemma QueryQuotesRaw(rawQuery: string)
    requires |Terms(rawQuery)| > 1
    ensures HasPrefix(QueryFor(rawQuery), "\"" + rawQuery + "\"^100")
  {
    QueryShape(rawQuery);
    PhraseQuotesRaw(rawQuery, Join(Terms(rawQuery), " "));
  }

  lemma PhraseQuotesRaw(rawQuery: string, tail: string)
    ensures HasPrefix(PhrasePart(rawQuery) + tail, "\"" + rawQuery + "\"^100")
  {
    var p := "\"" + rawQuery + "\"^100";
    var rest := " title:\"" + rawQuery + "\"^50 body:\"" + rawQuery + "\" " + tail;
    assert PhrasePart(rawQuery) + tail == p + rest;
    assert (p + rest)[..|p|] == p;
  }

  /** One item per hit, in the hits' order, each linking to the hit's ref and titled by the
      documents map, or by the ref when the map has no entry for it. */
  lemma {:induction false} ItemsShape(hits: seq<Hit>, docsMap: Option<map<string, Crawl.DocInfo>>)
    ensures |ItemsFor(hits, docsMap)| == |hits|
    ensures forall i :: 0 <= i < |hits| ==>
      ItemsFor(hits, docsMap)[i] == Item(hits[i].ref, TitleFor(hits[i].ref, docsMap))
  {
    if hits != [] {
      var init := hits[..|hits| - 1];
      ItemsShape(init, docsMap);
      var items := ItemsFor(init, docsMap) + [ItemFor(Last(hits), docsMap)];
      assert ItemsFor(hits, docsMap) == items;
      forall i | 0 <= i < |hits| ensures items[i] == Item(hits[i].ref, TitleFor(hits[i].ref, docsMap)) {
        if i < |init| {
          assert items[i] == ItemsFor(init, docsMap)[i];
          assert init[i] == hits[i];
        }
      }
    }
  }

  /** The results area after an input: the "not loaded" message whenever there is no index,
      whatever was typed; nothing for a trimmed query of fewer than three characters; an
      error or "no matches" message; or one link per hit, at most twenty, in rank order,
      titled from the documents map with the ref as fallback. */
  lemma DisplayCases(index: Option<Index>, docsMap: Option<map<string, Crawl.DocInfo>>, value: string,
                     search: (Index, string) -> Result<seq<Hit>>)
    ensures var r := Display(index, docsMap, value, search);
      && (index.None? ==> r == Note(NotLoaded))
      && (r == Cleared <==> index.Some? && |Trim(value)| < MinQueryLength)
      && (index.Some? ==> r != Note(NotLoaded))
      && (r.Note? ==> r.text == NotLoaded || r.text == NoMatches || r.text == SearchError)
      && (index.Some? && |Trim(value)| >= MinQueryLength ==>
            var res := search(index.value, QueryFor(Trim(value)));
            && (r == Note(SearchError) <==> res.Failure?)
            && (r == Note(NoMatches) <==> res == Success([]))
            && (r.Listing? <==> res.Success? && res.value != [])
            && (r.Listing? ==> r.items == ItemsFor(Top(res.value), docsMap)))
      && (r.Listing? ==>
            var hits := search(index.value, QueryFor(Trim(value))).value;
            && 1 <= |r.items| <= MaxResults && |r.items| <= |hits|
            && forall i :: 0 <= i < |r.items| ==>
                 r.items[i] == Item(hits[i].ref, TitleFor(hits[i].ref, docsMap)))
  {
    var r := Display(index, docsMap, value, search);
    if r.Listing? {
      var hits := search(index.value, QueryFor(Trim(value))).value;
      ItemsShape(Top(hits), docsMap);
      forall i | 0 <= i < |r.items| ensures Top(hits)[i] == hits[i] { }
    }
  }

  /** A stored document's link is titled with that document's title when it is the last
      document stored under its id, and a ref that is no stored id is shown as itself. */
  lemma StoredTitles(docs: seq<Crawl.Document>, i: nat, ref: string)
    requires i < |docs|
    requires forall j :: i < j < |docs| ==> docs[j].id != docs[i].id
    ensures TitleFor(docs[i].id, Some(Crawl.DocsMap(docs))) == docs[i].title
    ensures ref !in Crawl.Ids(docs) ==> TitleFor(ref, Some(Crawl.DocsMap(docs))) == ref
  {
    Crawl.DocsMapLast(docs, i);
    Crawl.DocsMapKeys(docs);
  }

  // ---------------------------------------------------------------- the widget

  class SearchWidget {
    /** Whether `injectSearchUI` found the categories heading and added the widget; otherwise
        the status, input and results elements do not exist. */
    const injected: bool
    /** `ppgLunrIndex` and `ppgDocumentsMap` */
    var index: Option<Index>
    var docsMap: Option<map<string, Crawl.DocInfo>>
    /** The status line, the search box's placeholder and whether the box is disabled. */
    var status: string
    var placeholder: string
    var inputDisabled: bool
    var results: Results

    /** `injectSearchUI`: a disabled search box, "Initializing...", no results, nothing loaded. */
    constructor (targetFound: bool)
      ensures injected == targetFound && index == None && docsMap == None
      ensures status == "Initializing..." && placeholder == "Search guidance..."
      ensures inputDisabled && results == Cleared
    {
      injected := targetFound;
      index := None;
      docsMap := None;
      status := "Initializing...";
      placeholder := "Search guidance...";
      inputDisabled := true;
      results := Cleared;
    }

    /** `updateStatus`: only when the status element exists. */
    method UpdateStatus(message: string)
      modifies this`status
      ensures status == if injected then message else old(status)
    {
      if injected {
        status := message;
      }
    }

    /** `loadIndexFromStorage` with the storage callback run: the documents map is taken as
        soon as both keys are present, the index only when it loads, and the search box is
        enabled only then. */
    method LoadIndexFromStorage(read: StorageRead, loads: string -> bool)
      modifies this`index, this`docsMap, this`status, this`placeholder, this`inputDisabled
      ensures index == if Loads(read, loads) then Some(Index(read.index.value)) else old(index)
      ensures docsMap == if Present(read) then read.docs else old(docsMap)
      ensures status == if injected then LoadStatus(read, loads) else old(status)
      ensures placeholder == if injected then LoadPlaceholder(read, loads) else old(placeholder)
      ensures inputDisabled == if injected && Loads(read, loads) then false else old(inputDisabled)
    {
      UpdateStatus("Loading index from storage...");
      match read
      case ReadFailed =>
        UpdateStatus("Error loading index.");
        if injected {
          placeholder := "Error loading index";
        }
      case Read(storedIndex, storedDocs) =>
        if storedIndex.Some? && storedIndex.value != "" && storedDocs.Some? {
          var serialisedIndex := storedIndex.value;
          docsMap := storedDocs;
          if loads(serialisedIndex) {
            index := Some(Index(serialisedIndex));
            UpdateStatus("Index ready (" + NatToString(|storedDocs.value|) + " docs).");
            if injected {
              inputDisabled := false;
              placeholder := "Search guidance...";
            }
          } else {
            UpdateStatus("Error loading index data.");
            if injected {
              placeholder := "Failed to load index";
            }
          }
        } else {
          UpdateStatus("Index not built. Use extension popup to build.");
          if injected {
            placeholder := "Index not built yet";
          }
        }
    }

    /** The `forEach` over the first twenty hits: one item per hit, in order. */
    static method RenderHits(hits: seq<Hit>, docsMap: Option<map<string, Crawl.DocInfo>>) returns (items: seq<Item>)
      ensures items == ItemsFor(hits, docsMap)
    {
      items := [];
      var i := 0;
      while i < |hits|
        invariant 0 <= i <= |hits|
        invariant items == ItemsFor(hits[..i], docsMap)
      {
        assert hits[..i + 1][..i] == hits[..i];
        var docRef := hits[i].ref;
        var docInfo := if docsMap.Some? && docRef in docsMap.value then Some(docsMap.value[docRef]) else None;
        var title := if docInfo.Some? then docInfo.value.title else docRef;
        items := items + [Item(docRef, title)];
        i := i + 1;
      }
      assert hits[..i] == hits;
    }

    /** `handleSearchInput` for an input event whose box holds `value`: the results area is
        cleared and then shows what `Display` says; `search` stands for `index.search`, a
        Failure being an error it throws. */
    method HandleSearchInput(value: string, search: (Index, string) -> Result<seq<Hit>>)
      modifies this`results
      ensures results == if injected then Display(index, docsMap, value, search) else old(results)
    {
      var rawQuery := Trim(value);
      if !injected {
        return;
      }
      results := Cleared;
      if index.None? {
        results := Note(NotLoaded);
        return;
      }
      if |rawQuery| < MinQueryLength {
        return;
      }
      var queryTerms := Words(Lower(rawQuery));
      var query := rawQuery;
      if |queryTerms| > 1 {
        query := "\"" + rawQuery + "\"^100 title:\"" + rawQuery + "\"^50 body:\"" + rawQuery + "\" " + Join(queryTerms, " ");
      }
      match search(index.value, query)
      case Failure(_) =>
        results := Note(SearchError);
      case Success(searchResults) =>
        if |searchResults| == 0 {
          results := Note(NoMatches);
        } else {
          var shown := if |searchResults| <= MaxResults then searchResults else searchResults[..MaxResults];
          var items := RenderHits(shown, docsMap);
          results := Listing(items);
        }
    }
  }

  /** The script's main execution, `injectSearchUI(); loadIndexFromStorage();`: the search box
      ends up enabled exactly when the widget was added and both stored values were present
      and the index loaded; the index is loaded whether or not the widget was added. */
  method Startup(targetFound: bool, read: StorageRead, loads: string -> bool) returns (w: SearchWidget)
    ensures !w.inputDisabled <==> targetFound && Loads(read, loads)
    ensures w.index.Some? <==> Loads(read, loads)
    ensures w.results == Cleared
  {
    w := new SearchWidget(targetFound);
    w.LoadIndexFromStorage(read, loads);
  }
}
