# HTMLScrubber in Dafny

A model of the `HTMLScrubber` extraction engine, which turns HTML into readable
plain text. The scrubber consumes the callbacks of an HTML tokenizer (start tag,
end tag, text data). It keeps two nesting counters (`pre_nest`, `code_nest`),
three flags (`in_script`, `in_style`, `table_row_first_column`) and an
append-only list of text fragments. Each callback appends newlines, a table
delimiter, an anchor marker or text according to fixed per-tag rules, and
`get_text` joins the fragments.

Files:

- `html_scrubber.dfy`, module `HtmlScrubber`:
  - the data model: `Event`, `Attr`, `AttrValue`, `Config`, `State`;
  - the handlers as pure functions of (configuration, state, event): `OnStart`, `OnEnd`, `OnData`, `AnchorFragments`, and their fold over an event sequence, `Feed`;
  - the class `HtmlScrubber`, whose fields the methods update in place.
    Each method is proved to leave the object in the state the matching function gives.
- `html_scrubber_proofs.dfy`, module `HtmlScrubberProofs`: lemmas about those functions.
  They cover the per-tag rules, attribute lookup, the anchor marker, the append-only buffer, runs of events, and whole small documents.

The tokenizer is replaced by its output: `get_text` and `scrub` take a
`seq<Event>` instead of an HTML string. An attribute value is either
`Value(s)` or `NoValue`. `NoValue` is what the tokenizer reports for an
attribute written without `=`, which Python sees as `None`. `Truthy` and `Show`
give Python's truth test and string formatting of such a value. So a valueless
`title` next to an `href` is rendered as `None` (`AnchorValuelessTitle`).
Python's `str.isspace` is modelled by the list of code points it accepts
(`IsSpaceChar`). The heading regular expression `h[1-6]`, applied with
`re.match`, becomes the prefix test `IsHeading`.

Behaviour of the code a reader might not expect:

- `pre_nest` and `code_nest` are decremented without a floor and can go negative (`NestingNotClamped`).
- Whitespace-only text data, including the whitespace between tags and inside `pre`, is dropped (`DataIgnored`).
- Empty text data is appended as an empty fragment (`EmptyDataAppended`).
- A `table` start on an empty buffer emits a newline, so `<table><tr><td>A</td><td>B</td></tr></table>` gives `"\nA\tB\n"` (`ExampleTable`).
- `<p>Hello</p><p>World</p>` puts three newlines between the words: two from the first end tag and one more from the second start tag (`ExampleParagraphs`).
- `reset` keeps `in_script`, `in_style` and `table_row_first_column`. An unclosed `<script>` in one `get_text` call therefore silences the next call on the same object (`FlagsSurviveReset`).

## Model

| member | source | states |
|---|---|---|
| `HtmlScrubber.IsHeading` | htmlscrubber.py:33 | `re.match` with `h[1-6]`: the tag holds if and only if its first two characters are one of `h1` … `h6` |
| `HtmlScrubber.Lookup` | htmlscrubber.py:91-102 | get_attr's result is `''` or the value of an attribute with that name |
| `HtmlScrubber.PrevNewline` | htmlscrubber.py:125-134 | prev_newline is false on an empty buffer, and when it holds the text joined so far ends in a newline |
| `HtmlScrubber.Feed` | htmlscrubber.py:51-53 | over any run of callbacks the buffer only grows, by at most two fragments per event |
| `HtmlScrubber.ResetState` | htmlscrubber.py:39-43 | reset empties the buffer, zeroes both counters and keeps the three flags; the result is the initial state if and only if no flag was left set |
| `HtmlScrubber.JoinAppend` | htmlscrubber.py:55 | joining two fragment lists one after the other is joining each and concatenating |
| `HtmlScrubber.Newlines` | htmlscrubber.py:160-162 | `'\n' * n`: exactly max(n, 0) characters, all newlines |
| `HtmlScrubber.AnchorFragments` | htmlscrubber.py:110-123 | add_anchor appends at most one fragment, and that fragment is framed by `[anchor to ` and `]` |
| `HtmlScrubber.OnStart` | htmlscrubber.py:136-183 | handle_starttag keeps the old buffer as a prefix and adds at most one fragment; `in_script`/`in_style` are set by `script`/`style` and otherwise kept |
| `HtmlScrubber.OnEnd` | htmlscrubber.py:185-218 | handle_endtag keeps the old buffer as a prefix and adds at most one fragment; only `script`/`style` clear their flags, and the first-column flag is never changed |
| `HtmlScrubber.OnData` | htmlscrubber.py:220-249 | handle_data keeps the old buffer as a prefix, adds at most two fragments and changes nothing but the buffer |
| `HtmlScrubber.Step` | htmlscrubber.py:136-249 | any single callback keeps the buffer as a prefix and adds at most two fragments |
| `HtmlScrubber.HtmlScrubber.constructor` | htmlscrubber.py:9-37 | the configuration is stored as given (defaults 2, tab, false, false); the buffer is empty, both counters are 0 and all flags are false |
| `HtmlScrubber.HtmlScrubber.Reset` | htmlscrubber.py:39-43 | reset empties the buffer and zeroes both counters; the three flags keep their values |
| `HtmlScrubber.HtmlScrubber.GetAttr` | htmlscrubber.py:91-102 | the loop with early return yields the value of the first attribute with the name, or `''` (proved against `Lookup`) |
| `HtmlScrubber.HtmlScrubber.AddAnchor` | htmlscrubber.py:104-123 | appends exactly `AnchorFragments` to the buffer; no other field changes |
| `HtmlScrubber.HtmlScrubber.HandleStartTag` | htmlscrubber.py:136-183 | the new object state is `OnStart` of the old state |
| `HtmlScrubber.HtmlScrubber.HandleEndTag` | htmlscrubber.py:185-218 | the new object state is `OnEnd` of the old state |
| `HtmlScrubber.HtmlScrubber.HandleData` | htmlscrubber.py:220-249 | the new object state is `OnData` of the old state |
| `HtmlScrubber.HtmlScrubber.HandleEvent` | htmlscrubber.py:52 | the callback made for one event leaves the object in the `Step` state of the old state |
| `HtmlScrubber.HtmlScrubber.GetText` | htmlscrubber.py:45-55 | after reset, the callbacks for the events leave the object in the `Feed` state, and the result is the join of the fragments |
| `HtmlScrubber.HtmlScrubber.Scrub` | htmlscrubber.py:71-79 | with the default configuration on a new object, the result is the join of the fragments that `Feed` produces from the initial state |
| `HtmlScrubberProofs.JoinExtends` | htmlscrubber.py:55 | when the buffer only grew, the output grew by exactly the new fragments |
| `HtmlScrubberProofs.LookupFirstMatch` | htmlscrubber.py:98-100 | the first attribute with the name decides the value, whatever follows it |
| `HtmlScrubberProofs.LookupAbsent` | htmlscrubber.py:102 | a missing attribute reads as `''` |
| `HtmlScrubberProofs.AnchorEmptyIff` | htmlscrubber.py:122-123 | nothing is appended if and only if neither the enabled href nor the enabled title has a non-empty value |
| `HtmlScrubberProofs.AnchorMarker` | htmlscrubber.py:110-123 | for every attribute list the marker is `[anchor to ` + href + title + `]`, each only when enabled and a valueless one rendered as `None`; `' - '` comes before the title only when both are non-empty strings, and nothing is appended when neither is |
| `HtmlScrubberProofs.AnchorValuelessTitle` | htmlscrubber.py:115-123 | a valueless title next to an href is formatted as `None` |
| `HtmlScrubberProofs.PrevNewlineAppend` | htmlscrubber.py:130-134 | prev_newline is false on an empty buffer; after a new fragment it holds if and only if that fragment ends in a newline |
| `HtmlScrubberProofs.EmptyFragmentHidesNewline` | htmlscrubber.py:130-131 | the converse of `PrevNewline`'s guarantee fails: an empty last fragment makes prev_newline false though the joined text ends in a newline |
| `HtmlScrubberProofs.BlockStartEndsInNewline` | htmlscrubber.py:147-172 | after a `br`, `button`, `ol`, `ul` or `table` start, prev_newline holds |
| `HtmlScrubberProofs.ButtonStart` | htmlscrubber.py:149-151 | `button` appends one newline after a newline and two otherwise |
| `HtmlScrubberProofs.ParagraphStart` | htmlscrubber.py:158-162 | `p` or a heading appends pp_newlines newlines, one fewer after a newline, and nothing when that count is not positive |
| `HtmlScrubberProofs.HeadingIsPrefixMatch` | htmlscrubber.py:33 | `h1x` and `h6` count as headings; `h7` and `h` do not |
| `HtmlScrubberProofs.TableRowStart` | htmlscrubber.py:173-175 | `tr` sets the first-column flag and changes nothing else |
| `HtmlScrubberProofs.TableCellStart` | htmlscrubber.py:176-181 | `td`/`th` append the delimiter if and only if the flag was false; the flag is false afterwards; nothing else changes |
| `HtmlScrubberProofs.UnhandledStartTag` | htmlscrubber.py:182-183 | a start tag outside the handled list changes no state |
| `HtmlScrubberProofs.ParagraphEnd` | htmlscrubber.py:203-205 | a `p` or heading end always appends `'\n' * pp_newlines` |
| `HtmlScrubberProofs.TableRowEnd` | htmlscrubber.py:214-216 | a `tr` end appends exactly one newline |
| `HtmlScrubberProofs.NestingNotClamped` | htmlscrubber.py:198-207 | `pre`/`code` ends decrement their counter by exactly one, going to -1 from 0 |
| `HtmlScrubberProofs.UnhandledEndTag` | htmlscrubber.py:217-218 | an end tag outside the handled list (including `br`) changes no state |
| `HtmlScrubberProofs.DataIgnored` | htmlscrubber.py:227-232 | whitespace-only data, and any data inside script or style, changes nothing |
| `HtmlScrubberProofs.DataEntity` | htmlscrubber.py:233-240 | each of the eight entity spellings appends exactly its one decoded character |
| `HtmlScrubberProofs.DataVerbatim` | htmlscrubber.py:241-247 | other data is appended verbatim, followed by a newline if and only if pre_nest > 0 |
| `HtmlScrubberProofs.EmptyDataAppended` | htmlscrubber.py:228-243 | empty data is appended as an empty fragment, after which prev_newline is false |
| `HtmlScrubberProofs.FeedAppend` | htmlscrubber.py:51-53 | feeding two event sequences in turn equals feeding their concatenation: no handler looks ahead |
| `HtmlScrubberProofs.OutputPrefix` | htmlscrubber.py:45-55 | the text produced for a prefix of the events is a prefix of the text produced for all of them |
| `HtmlScrubberProofs.ScriptSuppressesData` | htmlscrubber.py:231-249 | inside script or style, any run of text data leaves the state unchanged |
| `HtmlScrubberProofs.FlagsSurviveReset` | htmlscrubber.py:39-43 | after any run that leaves a script or style element open, reset does not clear it, so any run of text data that follows produces nothing |
| `HtmlScrubberProofs.ExampleParagraphs` | htmlscrubber.py:158-162 | `<p>w1</p><p>w2</p>` gives `"\n\n" + w1 + "\n\n" + "\n" + w2 + "\n\n"` |
| `HtmlScrubberProofs.ExampleTable` | htmlscrubber.py:169-181 | `<table><tr><td>x</td><td>y</td></tr></table>` gives `"\n" + x + delimiter + y + "\n"` |
| `HtmlScrubberProofs.ExampleAnchor` | htmlscrubber.py:144-146 | with both anchor options on, `<a href=h title=t>w</a>` gives `[anchor to h - t]w` |
| `HtmlScrubberProofs.ExamplePre` | htmlscrubber.py:245-247 | `<pre>w</pre>` gives `w + "\n"`: one newline after the whole piece of data, not after each line in it, and pre_nest is back to 0 |
| `HtmlScrubberProofs.ExampleScript` | htmlscrubber.py:165-166 | the body of a `script` element is absent from the output |

## Left out

- The HTML tokenizer (`HTMLParser.feed`, `close` and the base-class `reset`). It is a foreign library; events are given as input. The scrubber keeps HTMLParser's default `convert_charrefs=True` (htmlscrubber.py:17), so the real tokenizer decodes `&amp;` and the like before `handle_data` sees them. The entity branches that `DataEntity` covers therefore fire only on doubly escaped input such as `&amp;amp;`.
- `get_from_file` and `scrub_from_file`: file reading, and returning `None` on any exception. This is I/O.
- `main.py` and `bsoup.py`: argument parsing, printing and writing output files. `bsoup.py` is also a wrapper over an external library.
- Logging: the `logger` calls do not affect the output.
- The regular-expression engine: replaced by the equivalent prefix test `IsHeading`.
- Unicode data beyond whitespace: strings are sequences of code points, with no normalisation.
