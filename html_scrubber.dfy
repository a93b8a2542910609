/** A model of the HTMLScrubber extraction engine: a consumer of tokenizer events
    (start tag, end tag, text data) that appends text fragments to a buffer
    according to fixed per-tag rules, and joins the buffer into plain text.

    The tokenizer is not modelled: its output is given as a sequence of Events.
    The pure functions OnStart, OnEnd, OnData and Feed state what each handler
    does to the parser state; the class HtmlScrubber performs the same updates
    in place and its methods are proved against those functions. */
module HtmlScrubber {

  /** An attribute value as the tokenizer reports it: a string, or no value at
      all for an attribute written without `=` (Python's None). */
  datatype AttrValue = Value(s: string) | NoValue

  type Attr = (string, AttrValue)

  /** One tokenizer callback. Tag names arrive lower-cased. */
  datatype Event =
    | Start(name: string, attrs: seq<Attr>)
    | End(name: string)
    | Data(data: string)

  /** The options fixed when a scrubber is created. */
  datatype Config = Config(
    ppNewlines: int,
    tableDataDelimiter: string,
    includeHref: bool,
    includeHrefTitle: bool)

  const DefaultConfig := Config(2, "\t", false, false)

  const AnchorStart := "[anchor to "
  const AnchorEnd := "]"

  /** Everything the handlers read and write. */
  datatype State = State(
    text: seq<string>,
    preNest: int,
    codeNest: int,
    inScript: bool,
    inStyle: bool,
    tableRowFirstColumn: bool)

  const InitialState := State([], 0, 0, false, false, false)

  // ---------------------------------------------------------------------------
  // Helpers standing for Python built-ins

  /** Truth value of a value in a Python condition: None and '' are false. */
  predicate Truthy(v: AttrValue) {
    v.Value? && v.s != ""
  }

  /** How an f-string or str.format renders the value. */
  function Show(v: AttrValue): (r: string) {
    match v
    case Value(s) => s
    case NoValue => "None"
  }

  /** The characters for which Python's str.isspace holds: bidirectional
      classes WS, B and S and general category Zs. */
  predicate IsSpaceChar(c: char) {
    ('\t' <= c <= '\r') || ('\U{1C}' <= c <= '\U{1F}') || c == ' ' ||
    c == '\U{85}' || c == '\U{A0}' || c == '\U{1680}' ||
    ('\U{2000}' <= c <= '\U{200A}') || c == '\U{2028}' || c == '\U{2029}' ||
    c == '\U{202F}' || c == '\U{205F}' || c == '\U{3000}'
  }

  /** Python's str.isspace: false on the empty string. */
  predicate IsSpace(s: string) {
    |s| > 0 && forall i :: 0 <= i < |s| ==> IsSpaceChar(s[i])
  }

  /** '\n' * n, which is empty when n <= 0. */
  function Newlines(n: int): (r: string)
    ensures |r| == if n > 0 then n else 0
    ensures forall i :: 0 <= i < |r| ==> r[i] == '\n'
  {
    if n <= 0 then "" else "\n" + Newlines(n - 1)
  }

  /** ''.join(fragments) */
  function Join(fragments: seq<string>): (r: string)
  {
    if fragments == [] then "" else fragments[0] + Join(fragments[1..])
  }

  lemma {:induction false} JoinAppend(a: seq<string>, b: seq<string>)
    ensures Join(a + b) == Join(a) + Join(b)
  {
    if a != [] {
      assert (a + b)[1..] == a[1..] + b;
      JoinAppend(a[1..], b);
    } else {
      assert a + b == b;
    }
  }

  lemma JoinOne(f: string)
    ensures Join([f]) == f
  {
    assert [f][1..] == [];
  }

  /** Appending one fragment appends its text. */
  lemma JoinSnoc(t: seq<string>, f: string)
    ensures Join(t + [f]) == Join(t) + f
  {
    JoinAppend(t, [f]);
    JoinOne(f);
  }

  /** The names the regex 'h[1-6]' accepts. */
  const HeadingNames := {"h1", "h2", "h3", "h4", "h5", "h6"}

  /** The tag test that compiled regex 'h[1-6]' performs with re.match: it is
      anchored at the start only, so any tag beginning with h1..h6 passes. */
  function IsHeading(tag: string): (r: bool)
    ensures r <==> |tag| >= 2 && tag[..2] in HeadingNames
  {
    if |tag| >= 2 then
      assert tag[..2] == [tag[0], tag[1]];
      tag[0] == 'h' && '1' <= tag[1] <= '6'
    else false
  }

  // ---------------------------------------------------------------------------
  // The handlers as functions of (configuration, state, event)

  /** get_attr: the value of the first attribute called `name`, or '' when
      there is none. */
  function Lookup(attrs: seq<Attr>, name: string): (r: AttrValue)
    ensures r == Value("") || exists i :: 0 <= i < |attrs| && attrs[i] == (name, r)
  {
    if attrs == [] then Value("")
    else if attrs[0].0 == name then attrs[0].1
    else Lookup(attrs[1..], name)
  }

  /** prev_newline: the last fragment ends in '\n'; false on an empty buffer.
      When it holds, the text joined so far ends in '\n'. */
  function PrevNewline(text: seq<string>): (r: bool)
    ensures text == [] ==> !r
    ensures r ==> |Join(text)| > 0 && Join(text)[|Join(text)| - 1] == '\n'
  {
    if |text| > 0 then
      var last := text[|text| - 1];
      assert text == text[..|text| - 1] + [last];
      JoinSnoc(text[..|text| - 1], last);
      |last| > 0 && last[|last| - 1] == '\n'
    else false
  }

  /** The fragments add_anchor appends: none, or one anchor marker. */
  function AnchorFragments(cfg: Config, attrs: seq<Attr>): (r: seq<string>)
    ensures |r| <= 1
    ensures r != [] ==> AnchorStart <= r[0] && r[0][|r[0]| - 1] == ']'
  {
    var href := if cfg.includeHref then Lookup(attrs, "href") else Value("");
    var title :=
      if cfg.includeHrefTitle then
        var t := Lookup(attrs, "title");
        if Truthy(t) then Value((if Truthy(href) then " - " else "") + Show(t)) else t
      else Value("");
    if Truthy(href) || Truthy(title) then [AnchorStart + Show(href) + Show(title) + AnchorEnd] else []
  }

  /** handle_starttag */
  function OnStart(cfg: Config, st: State, tag: string, attrs: seq<Attr>): (r: State)
    ensures st.text <= r.text && |r.text| <= |st.text| + 1
    ensures r.inScript == (st.inScript || tag == "script")
    ensures r.inStyle == (st.inStyle || tag == "style")
  {
    if tag == "a" then st.(text := st.text + AnchorFragments(cfg, attrs))
    else if tag == "br" then st.(text := st.text + ["\n"])
    else if tag == "button" then st.(text := st.text + [Newlines(if PrevNewline(st.text) then 1 else 2)])
    else if tag == "code" then st.(codeNest := st.codeNest + 1)
    else if tag == "ol" || tag == "ul" then
      if !PrevNewline(st.text) then st.(text := st.text + ["\n"]) else st
    else if tag == "p" || IsHeading(tag) then
      var n := if !PrevNewline(st.text) then cfg.ppNewlines else cfg.ppNewlines - 1;
      if n > 0 then st.(text := st.text + [Newlines(n)]) else st
    else if tag == "pre" then st.(preNest := st.preNest + 1)
    else if tag == "script" then st.(inScript := true)
    else if tag == "style" then st.(inStyle := true)
    else if tag == "table" then
      if !PrevNewline(st.text) then st.(text := st.text + ["\n"]) else st
    else if tag == "tr" then st.(tableRowFirstColumn := true)
    else if tag == "td" || tag == "th" then
      if st.tableRowFirstColumn then st.(tableRowFirstColumn := false)
      else st.(text := st.text + [cfg.tableDataDelimiter])
    else st
  }

  /** handle_endtag */
  function OnEnd(cfg: Config, st: State, tag: string): (r: State)
    ensures st.text <= r.text && |r.text| <= |st.text| + 1
    ensures r.inScript == (st.inScript && tag != "script")
    ensures r.inStyle == (st.inStyle && tag != "style")
    ensures r.tableRowFirstColumn == st.tableRowFirstColumn
  {
    if tag == "br" then st
    else if tag == "button" then st.(text := st.text + ["\n\n"])
    else if tag == "code" then st.(codeNest := st.codeNest - 1)
    else if tag == "li" then st.(text := st.text + ["\n"])
    else if tag == "p" || IsHeading(tag) then st.(text := st.text + [Newlines(cfg.ppNewlines)])
    else if tag == "pre" then st.(preNest := st.preNest - 1)
    else if tag == "script" then st.(inScript := false)
    else if tag == "style" then st.(inStyle := false)
    else if tag == "title" then st.(text := st.text + ["\n"])
    else if tag == "tr" then st.(text := st.text + ["\n"])
    else st
  }

  /** handle_data */
  function OnData(st: State, data: string): (r: State)
    ensures st.text <= r.text && |r.text| <= |st.text| + 2
    ensures r.(text := st.text) == st
  {
    if IsSpace(data) then st
    else if !st.inScript && !st.inStyle then
      if data == "&amp;" || data == "&#38;" then st.(text := st.text + ["&"])
      else if data == "&gt;" || data == "&#62;" then st.(text := st.text + [">"])
      else if data == "&lt;" || data == "&#60;" then st.(text := st.text + ["<"])
      else if data == "&nbsp;" || data == "&#160;" then st.(text := st.text + [" "])
      else if st.preNest > 0 then st.(text := st.text + [data, "\n"])
      else st.(text := st.text + [data])
    else st
  }

  /** The callback the tokenizer makes for one event. */
  function Step(cfg: Config, st: State, e: Event): (r: State)
    ensures st.text <= r.text && |r.text| <= |st.text| + 2
  {
    match e
    case Start(name, attrs) => OnStart(cfg, st, name, attrs)
    case End(name) => OnEnd(cfg, st, name)
    case Data(data) => OnData(st, data)
  }

  /** feed: the state after the tokenizer has made the callbacks for
      `events`, in order, starting from `st`. */
  function Feed(cfg: Config, st: State, events: seq<Event>): (r: State)
    ensures st.text <= r.text
    ensures |r.text| <= |st.text| + 2 * |events|
    decreases |events|
  {
    if events == [] then st
    else Step(cfg, Feed(cfg, st, events[..|events| - 1]), events[|events| - 1])
  }

  /** reset: clears the buffer and both counters; the three flags stay, so the
      result is the initial state exactly when no flag was left set. */
  function ResetState(st: State): (r: State)
    ensures r.text == [] && r.preNest == 0 && r.codeNest == 0
    ensures r.inScript == st.inScript && r.inStyle == st.inStyle
    ensures r.tableRowFirstColumn == st.tableRowFirstColumn
    ensures r == InitialState <==> !st.inScript && !st.inStyle && !st.tableRowFirstColumn
  {
    st.(text := [], preNest := 0, codeNest := 0)
  }

  // ---------------------------------------------------------------------------
  // The scrubber object

  class HtmlScrubber {
    const config: Config

    var accumulatedText: seq<string>
    var preNest: int
    var codeNest: int
    var inScript: bool
    var inStyle: bool
    var tableRowFirstColumn: bool

    /** The fields the handlers update, as one value. */
    function Snapshot(): State
      reads this
    {
      State(accumulatedText, preNest, codeNest, inScript, inStyle, tableRowFirstColumn)
    }

    constructor (ppNewlines: int := 2, tableDataDelimiter: string := "\t",
                 includeHref: bool := false, includeHrefTitle: bool := false)
      ensures config == Config(ppNewlines, tableDataDelimiter, includeHref, includeHrefTitle)
      ensures Snapshot() == InitialState
    {
      config := Config(ppNewlines, tableDataDelimiter, includeHref, includeHrefTitle);
      accumulatedText := [];
      preNest := 0;
      codeNest := 0;
      inScript := false;
      inStyle := false;
      tableRowFirstColumn := false;
    }

    method Reset()
      modifies this
      ensures accumulatedText == [] && preNest == 0 && codeNest == 0
      ensures inScript == old(inScript) && inStyle == old(inStyle)
      ensures tableRowFirstColumn == old(tableRowFirstColumn)
    {
      accumulatedText := [];
      preNest := 0;
      codeNest := 0;
    }

    /** get_attr: the value of the first attribute called `name`, or '' when
        there is none. */
    static method GetAttr(name: string, attrs: seq<Attr>) returns (v: AttrValue)
      ensures v == Lookup(attrs, name)
    {
      var i := 0;
      while i < |attrs|
        invariant 0 <= i <= |attrs|
        invariant Lookup(attrs, name) == Lookup(attrs[i..], name)
      {
        if attrs[i].0 == name {
          return attrs[i].1;
        }
        i := i + 1;
      }
      return Value("");
    }

    method AddAnchor(attrs: seq<Attr>)
      modifies this
      ensures Snapshot() == old(Snapshot()).(text := old(accumulatedText) + AnchorFragments(config, attrs))
    {
      var href: AttrValue;
      if config.includeHref {
        href := GetAttr("href", attrs);
      } else {
        href := Value("");
      }
      var title: AttrValue;
      if config.includeHrefTitle {
        title := GetAttr("title", attrs);
        if Truthy(title) {
          title := Value((if Truthy(href) then " - " else "") + Show(title));
        }
      } else {
        title := Value("");
      }
      if Truthy(href) || Truthy(title) {
        accumulatedText := accumulatedText + [AnchorStart + Show(href) + Show(title) + AnchorEnd];
      }
    }

    method HandleStartTag(tag: string, attrs: seq<Attr>)
      modifies this
      ensures Snapshot() == OnStart(config, old(Snapshot()), tag, attrs)
    {
      if tag == "a" {
        AddAnchor(attrs);
      } else if tag == "br" {
        accumulatedText := accumulatedText + ["\n"];
      } else if tag == "button" {
        accumulatedText := accumulatedText + [Newlines(if PrevNewline(accumulatedText) then 1 else 2)];
      } else if tag == "code" {
        codeNest := codeNest + 1;
      } else if tag == "ol" || tag == "ul" {
        if !PrevNewline(accumulatedText) {
          accumulatedText := accumulatedText + ["\n"];
        }
      } else if tag == "p" || IsHeading(tag) {
        var numNewlines := if !PrevNewline(accumulatedText) then config.ppNewlines else config.ppNewlines - 1;
        if numNewlines > 0 {
          accumulatedText := accumulatedText + [Newlines(numNewlines)];
        }
      } else if tag == "pre" {
        preNest := preNest + 1;
      } else if tag == "script" {
        inScript := true;
      } else if tag == "style" {
        inStyle := true;
      } else if tag == "table" {
        if !PrevNewline(accumulatedText) {
          accumulatedText := accumulatedText + ["\n"];
        }
      } else if tag == "tr" {
        tableRowFirstColumn := true;
      } else if tag == "td" || tag == "th" {
        if tableRowFirstColumn {
          tableRowFirstColumn := false;
        } else {
          accumulatedText := accumulatedText + [config.tableDataDelimiter];
        }
      }
    }

    method HandleEndTag(tag: string)
      modifies this
      ensures Snapshot() == OnEnd(config, old(Snapshot()), tag)
    {
      if tag == "br" {
        // a self-closing tag such as <br />: nothing to do
      } else if tag == "button" {
        accumulatedText := accumulatedText + ["\n\n"];
      } else if tag == "code" {
        codeNest := codeNest - 1;
      } else if tag == "li" {
        accumulatedText := accumulatedText + ["\n"];
      } else if tag == "p" || IsHeading(tag) {
        accumulatedText := accumulatedText + [Newlines(config.ppNewlines)];
      } else if tag == "pre" {
        preNest := preNest - 1;
      } else if tag == "script" {
        inScript := false;
      } else if tag == "style" {
        inStyle := false;
      } else if tag == "title" {
        accumulatedText := accumulatedText + ["\n"];
      } else if tag == "tr" {
        accumulatedText := accumulatedText + ["\n"];
      }
    }

    method HandleData(data: string)
      modifies this
      ensures Snapshot() == OnData(old(Snapshot()), data)
    {
      if IsSpace(data) {
        return;
      }
      if !inScript && !inStyle {
        if data == "&amp;" || data == "&#38;" {
          accumulatedText := accumulatedText + ["&"];
        } else if data == "&gt;" || data == "&#62;" {
          accumulatedText := accumulatedText + [">"];
        } else if data == "&lt;" || data == "&#60;" {
          accumulatedText := accumulatedText + ["<"];
        } else if data == "&nbsp;" || data == "&#160;" {
          accumulatedText := accumulatedText + [" "];
        } else {
          accumulatedText := accumulatedText + [data];
          if preNest > 0 {
            accumulatedText := accumulatedText + ["\n"];
          }
        }
      }
    }

    /** The callback the tokenizer makes for one event. */
    method HandleEvent(e: Event)
      modifies this
      ensures Snapshot() == Step(config, old(Snapshot()), e)
    {
      match e {
        case Start(name, attrs) => HandleStartTag(name, attrs);
        case End(name) => HandleEndTag(name);
        case Data(data) => HandleData(data);
      }
    }

    /** get_text: reset, let the tokenizer make its callbacks, join the buffer. */
    method GetText(events: seq<Event>) returns (text: string)
      modifies this
      ensures Snapshot() == Feed(config, ResetState(old(Snapshot())), events)
      ensures text == Join(accumulatedText)
    {
      Reset();
      ghost var start := Snapshot();
      assert start == ResetState(old(Snapshot()));
      var i := 0;
      while i < |events|
        invariant 0 <= i <= |events|
        invariant Snapshot() == Feed(config, start, events[..i])
      {
        assert events[..i + 1][..i] == events[..i];
        HandleEvent(events[i]);
        i := i + 1;
      }
      assert events[..|events|] == events;
      text := Join(accumulatedText);
    }

    /** scrub: a scrubber with the default configuration applied to one input. */
    static method Scrub(events: seq<Event>) returns (text: string)
      ensures text == Join(Feed(DefaultConfig, InitialState, events).text)
    {
      var hs := new HtmlScrubber();
      text := hs.GetText(events);
    }
  }
}
