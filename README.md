# mdcat TTY renderer in Dafny

This project models the terminal renderer of mdcat (`src/tty.rs`). The renderer
consumes a stream of markdown events (paragraphs, headers, block quotes, code
blocks, lists and items, emphasis, strong text, inline code, links and text).
For each one it writes text, style escape sequences and layout whitespace to
the terminal. It keeps a rendering context while doing so:

- a style stack, re-emitted after every line break;
- the emphasis depth, whose parity chooses italic or upright text;
- the indentation;
- a block/inline mode;
- a stack of list frames, which counts ordered items;
- a queue of deferred link references, with the next link index.

The references are written as `[i]: destination title` lines before the next
header, and at the end of the document.

Files:

- `terminal.dfy` (`Terminal`): the output vocabulary. Each escape sequence,
  box-drawing run and formatted number is one `Token`. `Effective` is the
  meaning of a token stream to a terminal: the styles in force after it.
- `markdown.dfy` (`Markdown`): the input events and tags. `Tree` describes the
  well-nested streams a markdown parser produces, so that properties of
  matched start/end pairs can be stated.
- `tty_spec.dfy` (`TtySpec`): the reference model. `State` holds every field
  of the context and the output written so far. There is one function per
  helper and per handler. A handler that panics returns
  `Fatal(failure, state at the panic)`.
- `tty.dfy` (`Tty`): the context as a `class Context` whose fields the methods
  update in place, and the handlers `WriteEvent`, `StartTag` and `EndTag` plus
  `PushTty`. Every method is proved to leave the context in exactly the state
  the reference model computes from the state before the call.
  `WritePendingLinks` drains the queue in a loop, and `PushTty` renders the
  events in a loop.
- `tty_props.dfy` (`TtyProps`): what the renderer guarantees:
  - link numbering and flushing;
  - the terminal's styles agreeing with the style stack;
  - matched tags restoring the layout;
  - item numbering;
  - the failure conditions.
- `tty_examples.dfy` (`TtyExamples`): whole documents rendered token by token.

## Model

| member | source | states |
|---|---|---|
| Tty.Context.constructor | src/tty.rs:122-136 | a new context has written nothing, has empty stacks and queue, starts inline with indentation and emphasis 0, and gives the first link index 1 |
| Tty.Context.StartInlineText | src/tty.rs:142-150 | the context becomes the reference `start_inline_text` state: a line break and indentation only when at block level, then inline |
| Tty.Context.EndInlineTextWithMargin | src/tty.rs:156-164 | the context becomes the reference state: a line break only when inline, then block level |
| Tty.Context.FlushStyles | src/tty.rs:167-169 | the whole style stack is written in push order and nothing else changes |
| Tty.Context.Newline | src/tty.rs:174-177 | a reset and a line feed are written, then the style stack |
| Tty.Context.NewlineAndIndent | src/tty.rs:183-186 | a line break, then the indentation |
| Tty.Context.Indent | src/tty.rs:189-191 | exactly as many blanks as the indentation level are written |
| Tty.Context.EnableStyle | src/tty.rs:199-202 | the style is pushed and written |
| Tty.Context.ResetLastStyle | src/tty.rs:205-209 | the top style is popped, then a reset and the remaining stack are written |
| Tty.Context.EnableEmphasis | src/tty.rs:214-221 | the depth goes up by one, then italic is pushed on odd depths and upright on even ones |
| Tty.Context.AddLink | src/tty.rs:226-235 | returns the old next index, increments it and queues the link at the back |
| Tty.Context.WritePendingLinks | src/tty.rs:240-255 | the loop leaves the context in the reference state: nothing when the queue is empty, else a line break, blue, one reference line per queued link oldest first, then a style reset; the queue ends empty |
| Tty.WriteEvent | src/tty.rs:259-273 | the context and the reported failure are those of the reference handler: breaks indent, text is written and remembered, HTML and footnote references fail |
| Tty.StartTag | src/tty.rs:276-343 | the context and failure are those of the reference start handler for every tag |
| Tty.StartRule | src/tty.rs:279-283 | the context becomes the reference rule start: inline mode, grey pushed, then a rule as wide as the terminal |
| Tty.StartHeader | src/tty.rs:284-293 | the queued links are flushed and inline mode entered; a level below 1 then fails, otherwise bold and blue are pushed and level-1 tick marks written |
| Tty.StartBlockQuote | src/tty.rs:294-299 | the indentation grows by 4, then inline mode, grey and one more emphasis level |
| Tty.StartItem | src/tty.rs:311-327 | indentation, inline mode, then a bullet (+2 blanks) or the frame's number (+4 blanks, frame counts on); no frame fails |
| Tty.EndTag | src/tty.rs:346-412 | the context and failure are those of the reference end handler for every tag |
| Tty.EndBlockQuote | src/tty.rs:358-364 | fails when the indentation is below 4 or the emphasis depth is 0; otherwise both drop, the emphasis style is popped, then the grey is reset and the block ended |
| Tty.EndEmphasis | src/tty.rs:388-392 | the emphasis style is reset, then a depth of 0 fails and any other depth drops by one |
| Tty.EndItem | src/tty.rs:374-382 | the indentation drops by 2 or 4 according to the innermost frame, or stays with no frame, then the block ends; an underflow fails |
| Tty.EndLink | src/tty.rs:395-408 | the context becomes the reference link end: nothing for an autolink, otherwise the link is queued and its index written in blue |
| Tty.PushTty | src/tty.rs:45-57 | the output and failure are those of rendering all events from a new context and then flushing the queued links; rendering stops at the first failure |
| Terminal.EffectiveAfterStyles | src/tty.rs:167-169 | writing a run of styles adds exactly those styles, in order, to what the terminal shows |
| Terminal.ReflushEffective | src/tty.rs:174-177 | after a reset, a line feed and the re-emitted stack, the terminal shows exactly the stack, whatever it showed before |
| TtyProps.RefsLinesAppend | src/tty.rs:167-255 | helper: the references and reference lines of output written in two parts are those of the first part followed by those of the second |
| TtyProps.NewlineReflushes | src/tty.rs:174-177 | a line break writes reset, line feed and the whole stack; afterwards the terminal shows exactly the stack; no link output |
| TtyProps.NewlineAndIndentFacts | src/tty.rs:183-191 | a line break with indentation writes the re-flush and then the indentation, keeping the terminal in step with the stack |
| TtyProps.StartInlineTextFacts | src/tty.rs:142-150 | a line break and indentation happen if and only if the mode was block; the mode is inline afterwards |
| TtyProps.EndInlineTextFacts | src/tty.rs:156-164 | a line break happens if and only if the mode was inline; the mode is block afterwards |
| TtyProps.EnableStyleFacts | src/tty.rs:199-202 | the stack grows by the style, and the terminal shows that style on top of what it showed |
| TtyProps.ResetLastStyleFacts | src/tty.rs:205-209 | the stack loses its top, and the terminal then shows exactly the remaining stack |
| TtyProps.StyleBalance | src/tty.rs:199-209 | enabling a style and then resetting it gives back the original stack, with the terminal in step with it |
| TtyProps.EnableEmphasisFacts | src/tty.rs:214-221 | emphasis parity: the depth goes up by one, and italic is pushed when the new depth is odd, upright when it is even |
| TtyProps.AddLinkAllocates | src/tty.rs:226-235 | the returned index is the old counter, the counter goes up by exactly one, one link with that index is queued at the back, and nothing else changes |
| TtyProps.WriteOneLinkFacts | src/tty.rs:244-251 | one loop iteration moves the oldest queued link into the output as its reference line |
| TtyProps.DrainLinksFacts | src/tty.rs:244-251 | the loop writes the queued links in queue order and empties the queue, without writing any inline reference |
| TtyProps.WritePendingLinksFacts | src/tty.rs:240-255 | an empty queue changes nothing; otherwise the output gains the queued links' lines in order, the queue is empty, the stack is unchanged, and the terminal is in step with the stack |
| TtyProps.InitialLinksOk | src/tty.rs:122-136 | a new context satisfies the link invariant |
| TtyProps.UnsupportedWritesNothing | src/tty.rs:268-340 | HTML, footnotes, tables and images stop rendering without writing anything |
| TtyProps.StartTagFailures | src/tty.rs:276-343 | a start tag fails if and only if it is unsupported, a header of level below 1, or an item outside any list; the failure names the reason |
| TtyProps.EndTagFailures | src/tty.rs:346-412 | an end tag fails if and only if it closes a block quote or an item whose indentation would drop below zero, or a block quote or emphasis at depth zero |
| TtyProps.StartItemMarker | src/tty.rs:311-327 | an item writes the indentation and then a bullet or the innermost number, which advances by one; it fails exactly when no list is open |
| TtyProps.StartItemQuiet | src/tty.rs:311-327 | an item start writes no link output and leaves the queue and counter alone |
| TtyProps.EndItemQuiet | src/tty.rs:374-382 | an item end writes no link output and leaves the queue and counter alone |
| TtyProps.RuleStartQuiet | src/tty.rs:279-283 | a rule start writes no link output |
| TtyProps.HeaderAfterFlushQuiet | src/tty.rs:288-292 | after the flush, a header start writes no link output |
| TtyProps.HeaderStartLinks | src/tty.rs:284-293 | a header start first writes every queued reference line, then nothing more about links; the queue ends empty |
| TtyProps.BlockQuoteStartQuiet | src/tty.rs:294-299 | a block quote start writes no link output |
| TtyProps.CodeBlockStartQuiet | src/tty.rs:300-303 | a code block start writes no link output |
| TtyProps.StartTagQuiet | src/tty.rs:276-343 | every start tag but a header writes no link output and leaves the queue and counter alone |
| TtyProps.LinkReferenced | src/tty.rs:401-407 | a link whose last text is not its destination allocates the next index and writes exactly one inline reference to it. It queues exactly that link, keeps the style stack and leaves the terminal in step with it |
| TtyProps.AutolinkSuppressed | src/tty.rs:395-400 | a link whose last text is its destination changes nothing: no reference, no queued link, no index used |
| TtyProps.EndTagLinks | src/tty.rs:346-412 | every end tag but a link writes no link output and leaves the queue alone; an autolink end changes nothing |
| TtyProps.BlockEndQuiet | src/tty.rs:348-382 | every block-level end tag writes no link output and leaves the queue and counter alone |
| TtyProps.InlineEndQuiet | src/tty.rs:383-394 | every inline end tag but a link writes no link output and leaves the queue and counter alone |
| TtyProps.QuietKeepsLinksOk | src/tty.rs:259-273 | a handler writing no link output keeps the link invariant |
| TtyProps.FlushKeepsLinksOk | src/tty.rs:284-287 | flushing the queue keeps the link invariant |
| TtyProps.ReferenceKeepsLinksOk | src/tty.rs:401-407 | a new reference with its queued link keeps the link invariant |
| TtyProps.StepKeepsLinksOk | src/tty.rs:259-273 | every event keeps the link invariant: the inline references so far are 1..n-1 in order, and the written lines followed by the queue carry the same indices in the same order. The output only grows |
| TtyProps.StartKeepsLinksOk | src/tty.rs:276-343 | every start tag keeps the link invariant and only appends output |
| TtyProps.EndKeepsLinksOk | src/tty.rs:346-412 | every end tag keeps the link invariant and only appends output |
| TtyProps.RunKeepsLinksOk | src/tty.rs:50-53 | the event loop keeps the link invariant and only appends output |
| TtyProps.RenderLinksComplete | src/tty.rs:45-57 | after a whole document, the queue is empty, and the references and reference lines are both exactly 1, 2, ..., n in order: every reference has its line, and no line lacks a reference |
| TtyProps.ItemPairRestores | src/tty.rs:374-382 | an item end removes exactly the indentation its start added, and leaves its list counted on by one |
| TtyProps.RulePairRestores | src/tty.rs:349-352 | a rule end pops the colour its start pushed |
| TtyProps.HeaderPairRestores | src/tty.rs:353-357 | a header end pops the two styles its start pushed |
| TtyProps.BlockQuotePairRestores | src/tty.rs:358-364 | a block quote end undoes its start's indentation, emphasis depth and two styles, and cannot fail after it |
| TtyProps.EmphasisPairRestores | src/tty.rs:388-392 | an emphasis end undoes its start's style and depth, and cannot fail after it |
| TtyProps.StyledPairRestores | src/tty.rs:205-209 | a pushed style and a later reset of the last style cancel out |
| TtyProps.LinkPairRestores | src/tty.rs:395-408 | a link end leaves the stack, indentation, depth and list frames as they were |
| TtyProps.PairRestoresLayout | src/tty.rs:346-412 | every end tag undoes what its start tag did to the stack, indentation, depth and list frames; an item instead counts its list on by one |
| TtyProps.BlockPairRestores | src/tty.rs:348-382 | each block-level end tag undoes its start tag's effect on the stack, indentation, depth and list frames; an item counts its list on by one |
| TtyProps.InlinePairRestores | src/tty.rs:383-409 | each inline end tag undoes its start tag's effect on the stack, indentation, depth and list frames |
| TtyProps.TreeKeepsLayout | src/tty.rs:276-412 | a well-nested construct that renders leaves the stack, indentation, depth and list frames as it found them; an item counts its list on by one |
| TtyProps.NodeKeepsLayout | src/tty.rs:276-412 | a start tag, children that keep the layout, and the matching end tag together keep it too, except that an item counts its list on by one |
| TtyProps.ChildrenKeepLayout | src/tty.rs:276-412 | siblings keep the layout; inside a list, the n items count the innermost frame on by n |
| TtyProps.ListAfterItems | src/tty.rs:304-324 | after the first i items of a list opened with start k, its frame is Ordered(k+i), or Unordered |
| TtyProps.ItemMarker | src/tty.rs:311-327 | the i-th item of a list opened with start k is marked with the number k+i, or with a bullet, however deeply earlier items nest other lists |
| TtyProps.RuleStartSync | src/tty.rs:279-283 | a rule start keeps the terminal in step with the stack |
| TtyProps.HeaderStartSync | src/tty.rs:284-293 | a header start keeps the terminal in step with the stack, also when it fails |
| TtyProps.BlockQuoteStartSync | src/tty.rs:294-299 | a block quote start keeps the terminal in step with the stack |
| TtyProps.StartItemSync | src/tty.rs:311-327 | an item start keeps the terminal in step with the stack |
| TtyProps.StartTagSync | src/tty.rs:276-343 | every start tag keeps the terminal in step with the stack |
| TtyProps.BlockQuoteEndSync | src/tty.rs:358-364 | a block quote end keeps the terminal in step with the stack |
| TtyProps.EndItemSync | src/tty.rs:374-382 | an item end keeps the terminal in step with the stack |
| TtyProps.EndTagSync | src/tty.rs:346-412 | every end tag keeps the terminal in step with the stack, except a rule or header closed at block level |
| TtyProps.StepKeepsSync | src/tty.rs:259-273 | every event keeps the terminal showing exactly the stack, also when it stops rendering, except a rule or header end at block level |
| TtyProps.RuleEndAtBlockLevelKeepsColour | src/tty.rs:349-352 | the exception is real: a rule closed at block level pops its colour without a reset, so the terminal keeps showing it |
| TtyExamples.ParagraphRendering | src/tty.rs:45-57 | a paragraph renders as its text and one line break |
| TtyExamples.BulletListRendering | src/tty.rs:45-57 | two bulleted items render as indentation, bullet, text and a line break each, after the list's opening line break |
| TtyExamples.OrderedListRendering | src/tty.rs:45-57 | an ordered list starting at 3 numbers its items 3 and 4 |
| TtyExamples.AutolinkRendering | src/tty.rs:45-57 | a link whose text is its destination renders as that text alone |
| TtyExamples.LinkRendering | src/tty.rs:45-57 | any other link renders as its text and a blue index, and the blue reference line follows at the end |
| TtyExamples.TableRendering | src/tty.rs:45-57 | a table stops rendering with nothing written |

## Left out

- Write errors: every write to the terminal succeeds, so the `?` propagation of I/O errors is not modelled.
- The bytes written: the escape sequences, the box-drawing runs and the `{:>2}. ` number format are opaque tokens. `Effective` gives the styles' meaning, and nothing models their byte encodings.
- `active_styles` holds the formatted escape strings; the model holds the styles they format.
- `dump_events` is not part of this model. It is a debugging aid that prints the events.
- The markdown parser is not part of this model. Events are an input, and `Tree` only describes their nesting.
- Integer widths:
  - the indentation, the emphasis depth, the link counter and ordered item numbers are unbounded, so their overflow upwards is not modelled;
  - the downward underflow of `indent_level` and `emphasis_level` is modelled as the panic of a build with overflow checks, and a release build would wrap instead;
  - a header level below 1 is modelled as the panic of repeating a string `(level - 1) as usize` times.
- The borrowed `Cow` strings and the generic writer are plain `string` values and a token sequence.
- `last_text` is never cleared: a link end leaves it in place, and the model does the same.
- The column count is any `u16`, zero included.
