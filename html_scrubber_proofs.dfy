/** Properties of the HtmlScrubber model: the buffer is append-only, each
    handler's per-tag rule, attribute lookup, the anchor marker, and what a
    whole run of events produces. */
module HtmlScrubberProofs {
  import opened HtmlScrubber

  // ---------------------------------------------------------------------------
  // Joining fragments

  /** The output grows by exactly the appended fragments. */
  lemma JoinExtends(before: seq<string>, after: seq<string>)
    requires before <= after
    ensures Join(after) == Join(before) + Join(after[|before|..])
  {
    assert after == before + after[|before|..];
    JoinAppend(before, after[|before|..]);
  }

  // ---------------------------------------------------------------------------
  // get_attr

  /** The first attribute with the name wins, whatever follows it. */
  lemma {:induction false} LookupFirstMatch(attrs: seq<Attr>, name: string, i: nat)
    requires i < |attrs| && attrs[i].0 == name
    requires forall j :: 0 <= j < i ==> attrs[j].0 != name
    ensures Lookup(attrs, name) == attrs[i].1
  {
    if i > 0 {
      LookupFirstMatch(attrs[1..], name, i - 1);
    }
  }

  /** A missing attribute reads as the empty string. */
  lemma {:induction false} LookupAbsent(attrs: seq<Attr>, name: string)
    requires forall j :: 0 <= j < |attrs| ==> attrs[j].0 != name
    ensures Lookup(attrs, name) == Value("")
  {
    if attrs != [] {
      LookupAbsent(attrs[1..], name);
    }
  }

  // ---------------------------------------------------------------------------
  // add_anchor

  /** Nothing is appended exactly when neither the enabled href nor the enabled
      title has a non-empty value. */
  lemma AnchorEmptyIff(cfg: Config, attrs: seq<Attr>)
    ensures AnchorFragments(cfg, attrs) == [] <==>
      !(cfg.includeHref && Truthy(Lookup(attrs, "href"))) &&
      !(cfg.includeHrefTitle && Truthy(Lookup(attrs, "title")))
  {
  }

  /** The one fragment appended is the marker around the enabled values, each
      rendered as Python formats it (a valueless attribute as "None"), with
      " - " between them only when both are non-empty strings. */
  lemma AnchorMarker(cfg: Config, attrs: seq<Attr>)
    ensures
      var h := if cfg.includeHref then Lookup(attrs, "href") else Value("");
      var t := if cfg.includeHrefTitle then Lookup(attrs, "title") else Value("");
      AnchorFragments(cfg, attrs) ==
        if !Truthy(h) && !Truthy(t) then []
        else [AnchorStart + Show(h) + (if Truthy(h) && Truthy(t) then " - " else "") + Show(t) + AnchorEnd]
  {
    var h := if cfg.includeHref then Lookup(attrs, "href") else Value("");
    var t := if cfg.includeHrefTitle then Lookup(attrs, "title") else Value("");
    var sep := if Truthy(h) && Truthy(t) then " - " else "";
    assert AnchorStart + Show(h) + sep + Show(t) + AnchorEnd == AnchorStart + Show(h) + (sep + Show(t)) + AnchorEnd;
    if !Truthy(t) {
      assert sep + Show(t) == Show(t);
    }
  }

  /** A valueless title next to a non-empty href is rendered as "None". */
  lemma AnchorValuelessTitle()
    ensures AnchorFragments(Config(2, "\t", true, true), [("href", Value("u")), ("title", NoValue)])
         == ["[anchor to uNone]"]
  {
    assert AnchorStart + "u" + "None" + AnchorEnd == "[anchor to uNone]";
  }

  // ---------------------------------------------------------------------------
  // prev_newline

  /** prev_newline is false on an empty buffer; after appending fragment f
      it holds exactly when f ends in '\n', whatever came before. */
  lemma PrevNewlineAppend(text: seq<string>, f: string)
    ensures !PrevNewline([])
    ensures PrevNewline(text + [f]) <==> |f| > 0 && f[|f| - 1] == '\n'
  {
  }

  /** The converse fails: an empty fragment after a newline hides it. */
  lemma EmptyFragmentHidesNewline()
    ensures !PrevNewline(["\n", ""]) && Join(["\n", ""]) == "\n"
  {
    assert ["\n", ""][1..] == [""];
    JoinOne("");
  }

  // ---------------------------------------------------------------------------
  // handle_starttag

  /** br, button, ol, ul and table leave the buffer ending in a newline. */
  lemma BlockStartEndsInNewline(cfg: Config, st: State, tag: string, attrs: seq<Attr>)
    requires tag in {"br", "button", "ol", "ul", "table"}
    ensures PrevNewline(OnStart(cfg, st, tag, attrs).text)
  {
  }

  /** button adds one newline after a newline and two otherwise. */
  lemma ButtonStart(cfg: Config, st: State, attrs: seq<Attr>)
    ensures OnStart(cfg, st, "button", attrs) ==
      st.(text := st.text + [if PrevNewline(st.text) then "\n" else "\n\n"])
  {
    assert Newlines(1) == "\n";
    assert Newlines(2) == "\n\n";
  }

  /** p and headings top the buffer up to pp_newlines newlines, counting the
      one the previous fragment may end with; no fragment when the count is
      not positive. */
  lemma ParagraphStart(cfg: Config, st: State, tag: string, attrs: seq<Attr>)
    requires tag == "p" || IsHeading(tag)
    ensures
      var n := if PrevNewline(st.text) then cfg.ppNewlines - 1 else cfg.ppNewlines;
      var r := OnStart(cfg, st, tag, attrs);
      if n > 0 then r == st.(text := st.text + [Newlines(n)]) else r == st
  {
  }

  /** The heading test matches a prefix: h1x is a heading, h7 and h are not. */
  lemma HeadingIsPrefixMatch()
    ensures IsHeading("h1x") && IsHeading("h6") && !IsHeading("h7") && !IsHeading("h")
  {
  }

  /** tr marks the next cell as the first one. */
  lemma TableRowStart(cfg: Config, st: State, attrs: seq<Attr>)
    ensures OnStart(cfg, st, "tr", attrs) == st.(tableRowFirstColumn := true)
  {
  }

  /** td and th add the delimiter exactly when they are not the row's first
      cell, and clear the first-cell mark. */
  lemma TableCellStart(cfg: Config, st: State, tag: string, attrs: seq<Attr>)
    requires tag == "td" || tag == "th"
    ensures
      var r := OnStart(cfg, st, tag, attrs);
      !r.tableRowFirstColumn &&
      r.text == (if st.tableRowFirstColumn then st.text else st.text + [cfg.tableDataDelimiter]) &&
      r.(text := st.text, tableRowFirstColumn := st.tableRowFirstColumn) == st
  {
  }

  /** Start tags the handler does not know change nothing. */
  lemma UnhandledStartTag(cfg: Config, st: State, tag: string, attrs: seq<Attr>)
    requires tag !in {"a", "br", "button", "code", "ol", "ul", "p", "pre", "script", "style", "table", "tr", "td", "th"}
    requires !IsHeading(tag)
    ensures OnStart(cfg, st, tag, attrs) == st
  {
  }

  // ---------------------------------------------------------------------------
  // handle_endtag

  /** The end of p or a heading appends pp_newlines newlines whatever precedes
      it (an empty fragment when pp_newlines <= 0). */
  lemma ParagraphEnd(cfg: Config, st: State, tag: string)
    requires tag == "p" || IsHeading(tag)
    ensures OnEnd(cfg, st, tag) == st.(text := st.text + [Newlines(cfg.ppNewlines)])
  {
  }

  /** tr ends with exactly one newline. */
  lemma TableRowEnd(cfg: Config, st: State)
    ensures OnEnd(cfg, st, "tr") == st.(text := st.text + ["\n"])
  {
  }

  /** pre and code end tags decrement by one without a floor at zero. */
  lemma NestingNotClamped(cfg: Config, st: State)
    ensures OnEnd(cfg, st, "pre") == st.(preNest := st.preNest - 1)
    ensures OnEnd(cfg, st, "code") == st.(codeNest := st.codeNest - 1)
    ensures OnEnd(cfg, InitialState, "pre").preNest == -1
  {
  }

  /** End tags the handler does not know change nothing. */
  lemma UnhandledEndTag(cfg: Config, st: State, tag: string)
    requires tag !in {"button", "code", "li", "p", "pre", "script", "style", "title", "tr"}
    requires !IsHeading(tag)
    ensures OnEnd(cfg, st, tag) == st
  {
  }

  // ---------------------------------------------------------------------------
  // handle_data

  /** Whitespace-only data, and any data inside script or style, changes nothing. */
  lemma DataIgnored(st: State, data: string)
    requires IsSpace(data) || st.inScript || st.inStyle
    ensures OnData(st, data) == st
  {
  }

  /** The eight entity spellings each become one single-character fragment. */
  lemma DataEntity(st: State, data: string)
    requires !st.inScript && !st.inStyle
    requires data in {"&amp;", "&#38;", "&gt;", "&#62;", "&lt;", "&#60;", "&nbsp;", "&#160;"}
    ensures
      var c := if data in {"&amp;", "&#38;"} then '&'
               else if data in {"&gt;", "&#62;"} then '>'
               else if data in {"&lt;", "&#60;"} then '<'
               else ' ';
      OnData(st, data) == st.(text := st.text + [[c]])
  {
    assert !IsSpace(data) by {
      assert data[0] == '&' && !IsSpaceChar(data[0]);
    }
  }

  /** Other data is appended verbatim, followed by '\n' inside pre. */
  lemma DataVerbatim(st: State, data: string)
    requires !st.inScript && !st.inStyle && !IsSpace(data)
    requires data !in {"&amp;", "&#38;", "&gt;", "&#62;", "&lt;", "&#60;", "&nbsp;", "&#160;"}
    ensures OnData(st, data) ==
      st.(text := st.text + [data] + (if st.preNest > 0 then ["\n"] else []))
  {
  }

  /** Empty data is not whitespace to isspace: it is appended as an empty
      fragment, after which prev_newline is false. */
  lemma EmptyDataAppended(st: State)
    requires !st.inScript && !st.inStyle && st.preNest <= 0
    ensures OnData(st, "") == st.(text := st.text + [""])
    ensures !PrevNewline(OnData(st, "").text)
  {
  }

  // ---------------------------------------------------------------------------
  // Runs of events

  lemma FeedSnoc(cfg: Config, st: State, events: seq<Event>, e: Event)
    ensures Feed(cfg, st, events + [e]) == Step(cfg, Feed(cfg, st, events), e)
  {
    assert (events + [e])[..|events|] == events;
  }

  /** Feeding two pieces one after the other is feeding them joined: the
      handlers look at no event ahead of the current one. */
  lemma {:induction false} FeedAppend(cfg: Config, st: State, a: seq<Event>, b: seq<Event>)
    ensures Feed(cfg, st, a + b) == Feed(cfg, Feed(cfg, st, a), b)
    decreases |b|
  {
    if b == [] {
      assert a + b == a;
    } else {
      var n := |b| - 1;
      assert b == b[..n] + [b[n]];
      assert a + b == (a + b[..n]) + [b[n]];
      FeedSnoc(cfg, st, a + b[..n], b[n]);
      FeedAppend(cfg, st, a, b[..n]);
      FeedSnoc(cfg, Feed(cfg, st, a), b[..n], b[n]);
    }
  }

  /** The text produced for a prefix of the input is a prefix of the text
      produced for the whole input. */
  lemma OutputPrefix(cfg: Config, st: State, a: seq<Event>, b: seq<Event>)
    ensures Join(Feed(cfg, st, a).text) <= Join(Feed(cfg, st, a + b).text)
  {
    FeedAppend(cfg, st, a, b);
    var mid := Feed(cfg, st, a);
    JoinExtends(mid.text, Feed(cfg, mid, b).text);
  }

  /** Inside script (or style), a run of text data leaves the state as it was. */
  lemma {:induction false} ScriptSuppressesData(cfg: Config, st: State, events: seq<Event>)
    requires st.inScript || st.inStyle
    requires forall i :: 0 <= i < |events| ==> events[i].Data?
    ensures Feed(cfg, st, events) == st
    decreases |events|
  {
    if events != [] {
      ScriptSuppressesData(cfg, st, events[..|events| - 1]);
    }
  }

  /** reset leaves the flags as they are, so a run that leaves a script or
      style element open silences the text of the next run on the same object. */
  lemma FlagsSurviveReset(cfg: Config, st: State, first: seq<Event>, second: seq<Event>)
    requires Feed(cfg, ResetState(st), first).inScript || Feed(cfg, ResetState(st), first).inStyle
    requires forall i :: 0 <= i < |second| ==> second[i].Data?
    ensures Feed(cfg, ResetState(Feed(cfg, ResetState(st), first)), second).text == []
  {
    ScriptSuppressesData(cfg, ResetState(Feed(cfg, ResetState(st), first)), second);
  }

  // ---------------------------------------------------------------------------
  // Whole documents, run through Feed from a fresh scrubber

  lemma FeedThree(cfg: Config, st: State, e1: Event, e2: Event, e3: Event)
    ensures Feed(cfg, st, [e1, e2, e3]) == Step(cfg, Step(cfg, Step(cfg, st, e1), e2), e3)
  {
    FeedSnoc(cfg, st, [], e1);
    assert [] + [e1] == [e1];
    FeedSnoc(cfg, st, [e1], e2);
    assert [e1] + [e2] == [e1, e2];
    FeedSnoc(cfg, st, [e1, e2], e3);
    assert [e1, e2] + [e3] == [e1, e2, e3];
  }

  lemma JoinThree(a: string, b: string, c: string)
    ensures Join([a, b, c]) == a + b + c
  {
    JoinSnoc([], a);
    assert [] + [a] == [a];
    JoinSnoc([a], b);
    assert [a] + [b] == [a, b];
    JoinSnoc([a, b], c);
    assert [a, b] + [c] == [a, b, c];
  }

  lemma JoinFive(a: string, b: string, c: string, d: string, e: string)
    ensures Join([a, b, c, d, e]) == a + b + c + d + e
  {
    JoinThree(a, b, c);
    JoinSnoc([a, b, c], d);
    assert [a, b, c] + [d] == [a, b, c, d];
    JoinSnoc([a, b, c, d], e);
    assert [a, b, c, d] + [e] == [a, b, c, d, e];
  }

  lemma JoinSix(a: string, b: string, c: string, d: string, e: string, f: string)
    ensures Join([a, b, c, d, e, f]) == a + b + c + d + e + f
  {
    JoinFive(a, b, c, d, e);
    JoinSnoc([a, b, c, d, e], f);
    assert [a, b, c, d, e] + [f] == [a, b, c, d, e, f];
  }

  /** Text data that handle_data appends as it is. */
  predicate Verbatim(data: string) {
    !IsSpace(data) && data !in {"&amp;", "&#38;", "&gt;", "&#62;", "&lt;", "&#60;", "&nbsp;", "&#160;"}
  }

  /** The state right after reset when no script or style is open. */
  predicate Fresh(st: State) {
    st.text == [] && st.preNest == 0 && !st.inScript && !st.inStyle
  }

  /** Text is appended as it is, with no newline after it. */
  predicate Open(st: State) {
    st.preNest == 0 && !st.inScript && !st.inStyle
  }

  /** One paragraph <p>w</p> with pp_newlines == 2. */
  lemma ParagraphRun(cfg: Config, st: State, w: string)
    requires cfg.ppNewlines == 2 && Open(st) && Verbatim(w)
    ensures
      var r := Feed(cfg, st, [Start("p", []), Data(w), End("p")]);
      r == st.(text := st.text + [if PrevNewline(st.text) then "\n" else "\n\n", w, "\n\n"])
  {
    FeedThree(cfg, st, Start("p", []), Data(w), End("p"));
    assert Newlines(2) == "\n\n";
    assert Newlines(1) == "\n";
  }

  /** <p>w1</p><p>w2</p> puts three newlines between the words: the second p
      start counts the newline that the first p end left. */
  lemma ExampleParagraphs(cfg: Config, st: State, w1: string, w2: string)
    requires cfg.ppNewlines == 2 && Fresh(st) && Verbatim(w1) && Verbatim(w2)
    ensures Join(Feed(cfg, st,
      [Start("p", []), Data(w1), End("p"), Start("p", []), Data(w2), End("p")]).text)
      == "\n\n" + w1 + "\n\n" + "\n" + w2 + "\n\n"
  {
    var a := [Start("p", []), Data(w1), End("p")];
    var b := [Start("p", []), Data(w2), End("p")];
    assert a + b == [Start("p", []), Data(w1), End("p"), Start("p", []), Data(w2), End("p")];
    FeedAppend(cfg, st, a, b);
    ParagraphRun(cfg, st, w1);
    ParagraphRun(cfg, Feed(cfg, st, a), w2);
    assert Feed(cfg, st, a).text == ["\n\n", w1, "\n\n"];
    assert Feed(cfg, st, a + b).text == ["\n\n", w1, "\n\n", "\n", w2, "\n\n"];
    JoinSix("\n\n", w1, "\n\n", "\n", w2, "\n\n");
  }

  lemma TableOpen(cfg: Config, st: State)
    requires Fresh(st)
    ensures
      var r := Feed(cfg, st, [Start("table", []), Start("tr", []), Start("td", [])]);
      r == st.(text := ["\n"], tableRowFirstColumn := false)
  {
    FeedThree(cfg, st, Start("table", []), Start("tr", []), Start("td", []));
  }

  lemma TableNextCell(cfg: Config, st: State, x: string)
    requires Open(st) && !st.tableRowFirstColumn && Verbatim(x)
    ensures Feed(cfg, st, [Data(x), End("td"), Start("td", [])]) ==
      st.(text := st.text + [x, cfg.tableDataDelimiter])
  {
    FeedThree(cfg, st, Data(x), End("td"), Start("td", []));
  }

  lemma TableRowClose(cfg: Config, st: State, y: string)
    requires Open(st) && Verbatim(y)
    ensures Feed(cfg, st, [Data(y), End("td"), End("tr")]) == st.(text := st.text + [y, "\n"])
  {
    FeedThree(cfg, st, Data(y), End("td"), End("tr"));
  }

  lemma TableRow(cfg: Config, st: State, x: string, y: string)
    requires Fresh(st) && Verbatim(x) && Verbatim(y)
    ensures Feed(cfg, st,
      [Start("table", []), Start("tr", []), Start("td", [])] +
      [Data(x), End("td"), Start("td", [])] +
      [Data(y), End("td"), End("tr")])
      == st.(text := ["\n", x, cfg.tableDataDelimiter, y, "\n"], tableRowFirstColumn := false)
  {
    var a := [Start("table", []), Start("tr", []), Start("td", [])];
    var b := [Data(x), End("td"), Start("td", [])];
    var c := [Data(y), End("td"), End("tr")];
    FeedAppend(cfg, st, a + b, c);
    FeedAppend(cfg, st, a, b);
    TableOpen(cfg, st);
    TableNextCell(cfg, Feed(cfg, st, a), x);
    TableRowClose(cfg, Feed(cfg, st, a + b), y);
  }

  /** <table><tr><td>x</td><td>y</td></tr></table>: the delimiter goes
      between the cells only, and the table start emits a newline even on an
      empty buffer, since prev_newline is false there. */
  lemma ExampleTable(cfg: Config, st: State, x: string, y: string)
    requires Fresh(st) && Verbatim(x) && Verbatim(y)
    ensures Join(Feed(cfg, st,
      [Start("table", []), Start("tr", []), Start("td", []), Data(x), End("td"),
       Start("td", []), Data(y), End("td"), End("tr"), End("table")]).text)
      == "\n" + x + cfg.tableDataDelimiter + y + "\n"
  {
    var row := [Start("table", []), Start("tr", []), Start("td", [])] +
      [Data(x), End("td"), Start("td", [])] +
      [Data(y), End("td"), End("tr")];
    assert row + [End("table")] ==
      [Start("table", []), Start("tr", []), Start("td", []), Data(x), End("td"),
       Start("td", []), Data(y), End("td"), End("tr"), End("table")];
    FeedSnoc(cfg, st, row, End("table"));
    TableRow(cfg, st, x, y);
    UnhandledEndTag(cfg, Feed(cfg, st, row), "table");
    JoinFive("\n", x, cfg.tableDataDelimiter, y, "\n");
  }

  /** With href and title enabled, <a href=h title=t>w</a> is marked
      "[anchor to h - t]" before its text. */
  lemma ExampleAnchor(cfg: Config, st: State, h: string, t: string, w: string)
    requires cfg.includeHref && cfg.includeHrefTitle && Fresh(st) && Verbatim(w)
    requires h != "" && t != ""
    ensures Join(Feed(cfg, st,
      [Start("a", [("href", Value(h)), ("title", Value(t))]), Data(w), End("a")]).text)
      == AnchorStart + h + " - " + t + AnchorEnd + w
  {
    var attrs := [("href", Value(h)), ("title", Value(t))];
    FeedThree(cfg, st, Start("a", attrs), Data(w), End("a"));
    var m := AnchorStart + h + " - " + t + AnchorEnd;
    assert Lookup(attrs, "title") == Value(t);
    AnchorMarker(cfg, attrs);
    assert Step(cfg, Step(cfg, Step(cfg, st, Start("a", attrs)), Data(w)), End("a")).text == [m, w];
    JoinSnoc([m], w);
    JoinOne(m);
  }

  /** Inside pre, one newline follows each piece of text data, not each line
      within it. */
  lemma ExamplePre(cfg: Config, st: State, w: string)
    requires Fresh(st) && Verbatim(w)
    ensures
      var r := Feed(cfg, st, [Start("pre", []), Data(w), End("pre")]);
      Join(r.text) == w + "\n" && r.preNest == 0
  {
    FeedThree(cfg, st, Start("pre", []), Data(w), End("pre"));
    assert Feed(cfg, st, [Start("pre", []), Data(w), End("pre")]).text == [w] + ["\n"];
    JoinSnoc([w], "\n");
    JoinOne(w);
  }

  /** The body of a script element is absent from the output. */
  lemma ExampleScript(cfg: Config, st: State, code: string, w: string)
    requires Fresh(st) && Verbatim(w)
    ensures Join(Feed(cfg, st,
      [Start("script", []), Data(code), End("script"), Data(w)]).text) == w
  {
    var a := [Start("script", []), Data(code), End("script")];
    assert a + [Data(w)] == [Start("script", []), Data(code), End("script"), Data(w)];
    FeedSnoc(cfg, st, a, Data(w));
    FeedThree(cfg, st, a[0], a[1], a[2]);
    var open := st.(inScript := true);
    assert Step(cfg, st, a[0]) == open;
    assert Step(cfg, open, a[1]) == open;
    assert Feed(cfg, st, a) == st;
    JoinOne(w);
  }
}
