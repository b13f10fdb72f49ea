/** The offscreen document (offscreen.js): a message handler that parses a page's HTML and
    either lists the guidance links of the contents page or extracts a `{title, body}` record
    from a guidance page. DOMParser and querySelector are outside the model: a parsed page is
    given as the results of the selectors the handler queries. */
module Offscreen {
  import opened Basics
  import opened Text

  const GuidancePrefix := "/guidance/"

  /** A content wrapper element: its textContent, and the textContent of each element inside it
      matching `p, h2, h3, h4, h5, h6, ul, ol, table`, in document order. */
  datatype Wrapper = Wrapper(text: string, blocks: seq<string>)

  /** What the handler reads from a parsed document. */
  datatype Page = Page(
    linkHrefs: seq<Option<string>>,  // href attribute of each `.gem-c-document-list .gem-c-document-list__item-title a`
    headingXl: Option<string>,       // textContent of the first `h1.govuk-heading-xl`
    firstH1: Option<string>,         // textContent of the first `h1`
    docTitle: string,                // `doc.title`
    govspeak: Option<Wrapper>,       // `.gem-c-govspeak`
    contentGovspeak: Option<Wrapper>,// `main#content div.govspeak`
    mainContent: Option<Wrapper>,    // `main#content`
    main: Option<Wrapper>,           // `main`
    bodyText: Option<string>)        // `doc.body.textContent`, None when there is no body

  datatype ContentRecord = ContentRecord(title: string, body: string)

  /** The `data` of a successful reply: `null`, a link array or a content record. */
  datatype Data = Null | Links(links: seq<string>) | Content(record: ContentRecord)

  datatype Response = Ok(data: Data) | Failed(error: string)

  datatype Message = Message(target: string, kind: string, task: string, html: string)

  // ---------------------------------------------------------------- link extraction

  predicate IsGuidanceHref(h: Option<string>) {
    h.Some? && h.value != "" && HasPrefix(h.value, GuidancePrefix)
  }

  /** `map(a => a.getAttribute('href')).filter(href => href && href.startsWith('/guidance/'))` */
  function ExtractLinks(hrefs: seq<Option<string>>): (r: seq<string>)
    ensures |r| <= |hrefs|
    ensures forall i :: 0 <= i < |r| ==> r[i] != [] && HasPrefix(r[i], GuidancePrefix)
    ensures forall s :: s in r <==> Some(s) in hrefs && HasPrefix(s, GuidancePrefix)
  {
    if hrefs == [] then []
    else
      var rest := ExtractLinks(hrefs[..|hrefs| - 1]);
      assert hrefs == hrefs[..|hrefs| - 1] + [Last(hrefs)];
      if IsGuidanceHref(Last(hrefs)) then rest + [Last(hrefs).value] else rest
  }

  /** The attribute values of the anchors, absent attributes left out. */
  function Present(hrefs: seq<Option<string>>): seq<string> {
    if hrefs == [] then []
    else Present(hrefs[..|hrefs| - 1]) + (if Last(hrefs).Some? then [Last(hrefs).value] else [])
  }

  /** The links keep the anchors' document order. */
  lemma {:induction false} ExtractLinksInOrder(hrefs: seq<Option<string>>)
    ensures Subseq(ExtractLinks(hrefs), Present(hrefs))
  {
    if hrefs != [] {
      var init := hrefs[..|hrefs| - 1];
      ExtractLinksInOrder(init);
      var links, present := ExtractLinks(init), Present(init);
      match Last(hrefs)
      case None =>
        assert Present(hrefs) == present + [];
        assert present + [] == present;
      case Some(v) =>
        SubseqExtend(links, present, v);
        assert Present(hrefs) == present + [v];
    }
  }

  /** Duplicates are kept: every guidance link is listed as often as an anchor carries it. */
  lemma {:induction false} ExtractLinksCounts(hrefs: seq<Option<string>>)
    ensures forall s :: HasPrefix(s, GuidancePrefix) ==> multiset(ExtractLinks(hrefs))[s] == multiset(hrefs)[Some(s)]
  {
    if hrefs != [] {
      var init := hrefs[..|hrefs| - 1];
      ExtractLinksCounts(init);
      assert hrefs == init + [Last(hrefs)];
      assert multiset(hrefs) == multiset(init) + multiset{Last(hrefs)};
      if IsGuidanceHref(Last(hrefs)) {
        assert multiset(ExtractLinks(hrefs)) == multiset(ExtractLinks(init)) + multiset{Last(hrefs).value};
      }
    }
  }

  // ---------------------------------------------------------------- content extraction

  /** The title: trimmed text of `h1.govuk-heading-xl`, else of the first `h1`, else the
      trimmed document title. */
  function TitleOf(p: Page): (r: string)
    ensures r == [] || (!IsWs(r[0]) && !IsWs(r[|r| - 1]))
    ensures NonWs(r) == NonWs(if p.headingXl.Some? then p.headingXl.value
                              else if p.firstH1.Some? then p.firstH1.value else p.docTitle)
    ensures r == Trim(if p.headingXl.Some? then p.headingXl.value
                      else if p.firstH1.Some? then p.firstH1.value else p.docTitle)
  {
    var source := if p.headingXl.Some? then p.headingXl.value
                  else if p.firstH1.Some? then p.firstH1.value else p.docTitle;
    TrimKeepsText(source);
    Trim(source)
  }

  /** The first wrapper found: `.gem-c-govspeak`, `main#content div.govspeak`,
      `main#content`, `main`. */
  function WrapperOf(p: Page): (r: Option<Wrapper>)
    ensures r.None? <==> p.govspeak.None? && p.contentGovspeak.None? && p.mainContent.None? && p.main.None?
    ensures r.Some? ==> r == p.govspeak || r == p.contentGovspeak || r == p.mainContent || r == p.main
    ensures p.govspeak.Some? ==> r == p.govspeak
  {
    if p.govspeak.Some? then p.govspeak
    else if p.contentGovspeak.Some? then p.contentGovspeak
    else if p.mainContent.Some? then p.mainContent
    else p.main
  }

  /** The wrapper is the first of `.gem-c-govspeak`, `main#content div.govspeak`,
      `main#content` and `main` that the page has. */
  lemma WrapperOfFirstFound(p: Page)
    ensures var c, r := [p.govspeak, p.contentGovspeak, p.mainContent, p.main], WrapperOf(p);
      r.Some? ==> exists k :: 0 <= k < 4 && c[k] == r && forall j :: 0 <= j < k ==> c[j].None?
  {
    var c := [p.govspeak, p.contentGovspeak, p.mainContent, p.main];
    if p.govspeak.Some? {
      assert c[0] == WrapperOf(p);
    } else if p.contentGovspeak.Some? {
      assert c[1] == WrapperOf(p);
    } else if p.mainContent.Some? {
      assert c[2] == WrapperOf(p);
    } else {
      assert c[3] == WrapperOf(p);
    }
  }

  /** Each block's trimmed text followed by a blank line, in order. */
  function JoinBlocks(blocks: seq<string>): string {
    if blocks == [] then ""
    else JoinBlocks(blocks[..|blocks| - 1]) + Trim(Last(blocks)) + "\n\n"
  }

  /** The body before clean-up. */
  function RawBody(p: Page): string {
    match WrapperOf(p)
    case Some(w) => if |w.blocks| > 0 then JoinBlocks(w.blocks) else Trim(w.text)
    case None => if p.bodyText.Some? then Trim(p.bodyText.value) else ""
  }

  function BodyOf(p: Page): string {
    Normalize(RawBody(p))
  }

  /** The record an `extract-content` request yields: `null` when both parts are empty. */
  function ContentOf(p: Page): Option<ContentRecord> {
    var title := TitleOf(p);
    var body := BodyOf(p);
    if title != "" || body != "" then Some(ContentRecord(title, body)) else None
  }

  /** The visible text of the blocks survives assembly: only white space is added. */
  lemma {:induction false} JoinBlocksKeepsText(blocks: seq<string>)
    ensures NonWs(JoinBlocks(blocks)) == NonWs(Concat(blocks))
  {
    if blocks != [] {
      var init := blocks[..|blocks| - 1];
      var b := Last(blocks);
      JoinBlocksKeepsText(init);
      assert blocks == init + [b];
      ConcatSnoc(init, b);
      JoinBlockStep(JoinBlocks(init), Concat(init), b);
    }
  }

  lemma JoinBlockStep(acc: string, text: string, b: string)
    requires NonWs(acc) == NonWs(text)
    ensures NonWs(acc + Trim(b) + "\n\n") == NonWs(text + b)
  {
    NonWsAppend(acc + Trim(b), "\n\n");
    NonWsAppend(acc, Trim(b));
    TrimKeepsText(b);
    assert NonWs("\n\n") == [];
    NonWsAppend(text, b);
  }

  lemma {:induction false} ConcatSnoc(ws: seq<string>, w: string)
    ensures Concat(ws + [w]) == Concat(ws) + w
  {
    if ws == [] {
      assert [] + [w] == [w];
    } else {
      assert (ws + [w])[1..] == ws[1..] + [w];
      ConcatSnoc(ws[1..], w);
    }
  }

  /** A record is produced exactly when the title or the body is non-empty, and then it
      carries both; the body is cleaned up. */
  lemma ContentNullIffBothEmpty(p: Page)
    ensures ContentOf(p).None? <==> TitleOf(p) == "" && BodyOf(p) == ""
    ensures ContentOf(p).Some? ==> ContentOf(p).value == ContentRecord(TitleOf(p), BodyOf(p))
    ensures ContentOf(p).Some? ==> var b := ContentOf(p).value.body;
      SingleSpaced(b) && (b == [] || (!IsWs(b[0]) && !IsWs(b[|b| - 1])))
    ensures ContentOf(p).Some? ==> NonWs(ContentOf(p).value.body) == NonWs(RawBody(p))
  {
    NormalizeSingleSpaced(RawBody(p));
    NormalizeKeepsText(RawBody(p));
  }

  /** The `forEach` over the wrapper's paragraphs, list items and headings: each one's trimmed
      text and a blank line are appended to the body. */
  method AccumulateBlocks(blocks: seq<string>) returns (body: string)
    ensures body == JoinBlocks(blocks)
  {
    body := "";
    var i := 0;
    while i < |blocks|
      invariant 0 <= i <= |blocks|
      invariant body == JoinBlocks(blocks[..i])
    {
      assert blocks[..i + 1][..i] == blocks[..i];
      body := body + Trim(blocks[i]) + "\n\n";
      i := i + 1;
    }
    assert blocks[..i] == blocks;
  }

  /** `extract-content`, as the handler does it: fall back through the title and wrapper
      selectors, accumulate the blocks' text, clean it up, and return `null` when nothing
      was found. */
  method ExtractContent(p: Page) returns (r: Option<ContentRecord>)
    ensures r == ContentOf(p)
  {
    var titleElement := p.headingXl;
    if titleElement.None? {
      titleElement := p.firstH1;
    }
    var title := if titleElement.Some? then Trim(titleElement.value) else Trim(p.docTitle);

    var wrapper := p.govspeak;
    if wrapper.None? {
      wrapper := if p.contentGovspeak.Some? then p.contentGovspeak
                 else if p.mainContent.Some? then p.mainContent
                 else p.main;
    }

    var body := "";
    if wrapper.Some? {
      var blocks := wrapper.value.blocks;
      if |blocks| > 0 {
        body := AccumulateBlocks(blocks);
      } else {
        body := Trim(wrapper.value.text);
      }
    } else {
      body := if p.bodyText.Some? then Trim(p.bodyText.value) else "";
    }

    body := Normalize(body);

    if title != "" || body != "" {
      r := Some(ContentRecord(title, body));
    } else {
      r := None;
    }
  }

  // ---------------------------------------------------------------- the message handler

  /** `handleMessages`: `handled` is the listener's return value (true keeps the reply channel
      open), `reply` what `sendResponse` was called with, if anything. `parse` stands for
      DOMParser; a Failure is an error thrown while parsing or extracting. */
  method HandleMessage(m: Message, parse: string -> Result<Page>) returns (handled: bool, reply: Option<Response>)
    ensures m.target != "offscreen" ==> !handled && reply == None
    ensures m.target == "offscreen" && m.kind != "parse-html" ==> !handled && reply == None
    ensures m.target == "offscreen" && m.kind == "parse-html" ==> handled && reply.Some?
    ensures reply.Some? ==> match parse(m.html)
      case Failure(e) => reply.value == Failed(e)
      case Success(p) =>
        reply.value == Ok(
          if m.task == "extract-links" then Links(ExtractLinks(p.linkHrefs))
          else if m.task == "extract-content" then
            (if ContentOf(p).Some? then Content(ContentOf(p).value) else Null)
          else Null)
  {
    if m.target != "offscreen" {
      return false, None;
    }
    if m.kind != "parse-html" {
      return false, None;
    }
    handled := true;
    match parse(m.html)
    case Failure(e) =>
      reply := Some(Failed(e));
    case Success(p) =>
      var result := Null;
      if m.task == "extract-links" {
        result := Links(ExtractLinks(p.linkHrefs));
      } else if m.task == "extract-content" {
        var c := ExtractContent(p);
        if c.Some? {
          result := Content(c.value);
        }
      }
      reply := Some(Ok(result));
  }
}
