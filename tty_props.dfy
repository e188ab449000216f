/** Properties of the TTY renderer, proved about the reference model TtySpec
    (and so, through the methods' postconditions, about the context in Tty).
 */
module TtyProps {
  import opened Terminal
  import opened Markdown
  import opened TtySpec

  // =====================================================================
  // What the output says about links

  /** The indices of the inline references "[i]" in `toks`, in order. */
  function Refs(toks: seq<Token>): seq<nat>
  {
    if toks == [] then []
    else (if toks[0].RefIdx? then [toks[0].index] else []) + Refs(toks[1..])
  }

  /** The reference lines "[i]: destination title" in `toks`, in order. */
  function Lines(toks: seq<Token>): seq<Link>
  {
    if toks == [] then []
    else
      (if toks[0].LinkLine? then [Link.Link(toks[0].index, toks[0].destination, toks[0].title)] else [])
      + Lines(toks[1..])
  }

  /** Neither an inline reference nor a reference line. */
  predicate Plain(t: Token)
  {
    !t.RefIdx? && !t.LinkLine?
  }

  /** `b` is `a` followed by plain tokens only. */
  ghost predicate PlainSince(a: seq<Token>, b: seq<Token>)
  {
    a <= b && forall i :: |a| <= i < |b| ==> Plain(b[i])
  }

  lemma {:induction false} RefsAppend(a: seq<Token>, b: seq<Token>)
    ensures Refs(a + b) == Refs(a) + Refs(b)
    decreases |a|
  {
    if a == [] {
      assert a + b == b;
    } else {
      assert (a + b)[0] == a[0];
      assert (a + b)[1..] == a[1..] + b;
      RefsAppend(a[1..], b);
    }
  }

  lemma {:induction false} LinesAppend(a: seq<Token>, b: seq<Token>)
    ensures Lines(a + b) == Lines(a) + Lines(b)
    decreases |a|
  {
    if a == [] {
      assert a + b == b;
    } else {
      assert (a + b)[0] == a[0];
      assert (a + b)[1..] == a[1..] + b;
      LinesAppend(a[1..], b);
    }
  }

  /** Appending output appends its references and its reference lines. */
  lemma RefsLinesAppend(a: seq<Token>, b: seq<Token>)
    ensures Refs(a + b) == Refs(a) + Refs(b)
    ensures Lines(a + b) == Lines(a) + Lines(b)
  {
    RefsAppend(a, b);
    LinesAppend(a, b);
  }

  lemma {:induction false} PlainHasNoLinks(toks: seq<Token>)
    requires forall i :: 0 <= i < |toks| ==> Plain(toks[i])
    ensures Refs(toks) == [] && Lines(toks) == []
    decreases |toks|
  {
    if toks != [] {
      PlainHasNoLinks(toks[1..]);
    }
  }

  /** Plain output adds no reference and no reference line. */
  lemma PlainSinceKeepsLinks(a: seq<Token>, b: seq<Token>)
    requires PlainSince(a, b)
    ensures Refs(b) == Refs(a) && Lines(b) == Lines(a)
  {
    var tail := b[|a|..];
    assert b == a + tail;
    PlainHasNoLinks(tail);
    RefsLinesAppend(a, tail);
  }

  /** From `s` to `r` only plain output was written and the link queue and
      counter are untouched. */
  ghost predicate Quiet(s: State, r: State)
  {
    s.out <= r.out
    && Refs(r.out) == Refs(s.out) && Lines(r.out) == Lines(s.out)
    && r.pending == s.pending && r.nextIndex == s.nextIndex
  }

  lemma PlainSinceQuiet(s: State, r: State)
    requires PlainSince(s.out, r.out)
    requires r.pending == s.pending && r.nextIndex == s.nextIndex
    ensures Quiet(s, r)
  {
    PlainSinceKeepsLinks(s.out, r.out);
  }

  lemma QuietTrans(a: State, b: State, c: State)
    requires Quiet(a, b) && Quiet(b, c)
    ensures Quiet(a, c)
  {
    assert c.out[..|a.out|] == b.out[..|b.out|][..|a.out|];
  }

  /** Writing tokens that are neither references nor reference lines. */
  lemma WritePlain(s: State, toks: seq<Token>)
    requires forall i :: 0 <= i < |toks| ==> Plain(toks[i])
    ensures Quiet(s, Write(s, toks))
  {
    PlainHasNoLinks(toks);
    RefsLinesAppend(s.out, toks);
  }

  /** Writing a token that is not a style directive changes nothing on the
      terminal's styles. */
  lemma WriteNeutral(s: State, t: Token)
    requires !t.Reset? && !t.SetStyle?
    ensures Effective(Write(s, [t]).out) == Effective(s.out)
  {
    var r := Write(s, [t]);
    assert r.out[..|r.out| - 1] == s.out;
  }

  /** The terminal shows exactly the styles on the stack. */
  ghost predicate InSync(s: State)
  {
    Effective(s.out) == s.styles
  }

  // =====================================================================
  // The helpers of the context

  /** `newline` writes a reset and a line feed, then the whole style stack in
      push order, so that the new line shows exactly the stacked styles. */
  lemma NewlineReflushes(s: State)
    ensures Newline(s) == s.(out := s.out + [Reset, LineFeed] + StyleTokens(s.styles))
    ensures InSync(Newline(s))
    ensures Quiet(s, Newline(s))
  {
    ReflushEffective(s.out, s.styles);
    PlainSinceQuiet(s, Newline(s));
  }

  /** `newline_and_indent` adds the indentation after the re-flushed styles. */
  lemma NewlineAndIndentFacts(s: State)
    ensures NewlineAndIndent(s)
         == s.(out := s.out + [Reset, LineFeed] + StyleTokens(s.styles) + [Spaces(s.indent)])
    ensures InSync(NewlineAndIndent(s))
    ensures Quiet(s, NewlineAndIndent(s))
  {
    NewlineReflushes(s);
    var r := Newline(s);
    assert (r.out + [Spaces(s.indent)])[..|r.out|] == r.out;
    WritePlain(r, [Spaces(s.indent)]);
    QuietTrans(s, r, NewlineAndIndent(s));
  }

  /** `start_inline_text` breaks the line and indents exactly when at block
      level, and is inline afterwards. */
  lemma StartInlineTextFacts(s: State)
    ensures StartInlineText(s).level == Inline
    ensures s.level == Inline ==> StartInlineText(s) == s
    ensures s.level == Block ==> StartInlineText(s) == NewlineAndIndent(s).(level := Inline)
    ensures s.level == Block ==> InSync(StartInlineText(s))
    ensures InSync(s) ==> InSync(StartInlineText(s))
    ensures Quiet(s, StartInlineText(s))
  {
    NewlineAndIndentFacts(s);
  }

  /** `end_inline_text_with_margin` breaks the line exactly when inline, and is
      at block level afterwards. */
  lemma EndInlineTextFacts(s: State)
    ensures EndInlineTextWithMargin(s).level == Block
    ensures s.level == Block ==> EndInlineTextWithMargin(s) == s
    ensures s.level == Inline ==> EndInlineTextWithMargin(s) == Newline(s).(level := Block)
    ensures s.level == Inline ==> InSync(EndInlineTextWithMargin(s))
    ensures InSync(s) ==> InSync(EndInlineTextWithMargin(s))
    ensures Quiet(s, EndInlineTextWithMargin(s))
  {
    NewlineReflushes(s);
  }

  /** `enable_style` keeps the terminal in step with the stack. */
  lemma EnableStyleFacts(s: State, style: Style)
    ensures EnableStyle(s, style).styles == s.styles + [style]
    ensures Effective(EnableStyle(s, style).out) == Effective(s.out) + [style]
    ensures Quiet(s, EnableStyle(s, style))
  {
    var r := EnableStyle(s, style);
    assert r.out[..|r.out| - 1] == s.out;
    WritePlain(s.(styles := s.styles + [style]), [SetStyle(style)]);
  }

  /** `reset_last_style` pops one style, and the terminal then shows exactly
      the styles left on the stack, whatever it showed before. */
  lemma ResetLastStyleFacts(s: State)
    ensures ResetLastStyle(s).styles == Pop(s.styles)
    ensures InSync(ResetLastStyle(s))
    ensures Quiet(s, ResetLastStyle(s))
  {
    var s1 := Write(PopStyle(s), [Reset]);
    assert s1.out[..|s1.out| - 1] == s.out;
    assert Effective(s1.out) == [];
    EffectiveAfterStyles(s1.out, s1.styles);
    PlainSinceQuiet(s, ResetLastStyle(s));
  }

  /** A style enabled and then reset leaves the stack as it was, and the
      terminal showing exactly that stack. */
  lemma StyleBalance(s: State, style: Style)
    ensures ResetLastStyle(EnableStyle(s, style)).styles == s.styles
    ensures InSync(ResetLastStyle(EnableStyle(s, style)))
  {
    ResetLastStyleFacts(EnableStyle(s, style));
  }

  /** `enable_emphasis` goes one level deeper and pushes italic on odd levels,
      upright on even ones. */
  lemma EnableEmphasisFacts(s: State)
    ensures EnableEmphasis(s).emphasis == s.emphasis + 1
    ensures EnableEmphasis(s).styles
         == s.styles + [if (s.emphasis + 1) % 2 == 1 then Italic else NoItalic]
    ensures InSync(s) ==> InSync(EnableEmphasis(s))
    ensures Quiet(s, EnableEmphasis(s))
  {
    var s1 := s.(emphasis := s.emphasis + 1);
    EnableStyleFacts(s1, if s1.emphasis % 2 == 1 then Italic else NoItalic);
  }

  /** `add_link` returns the old next index, increments it by exactly one and
      queues exactly one link with that index at the back; nothing else
      changes. */
  lemma AddLinkAllocates(s: State, destination: string, title: string)
    ensures AddLink(s, destination, title).1 == s.nextIndex
    ensures AddLink(s, destination, title).0.nextIndex == s.nextIndex + 1
    ensures AddLink(s, destination, title).0.pending
         == s.pending + [Link.Link(s.nextIndex, destination, title)]
    ensures AddLink(s, destination, title).0
         == s.(pending := AddLink(s, destination, title).0.pending, nextIndex := s.nextIndex + 1)
  {
  }

  /** One iteration of the flush loop moves the oldest queued link into the
      output as its reference line. */
  lemma WriteOneLinkFacts(s: State)
    requires s.pending != []
    ensures WriteOneLink(s) == s.(out := WriteOneLink(s).out, pending := s.pending[1..])
    ensures s.out <= WriteOneLink(s).out
    ensures Refs(WriteOneLink(s).out) == Refs(s.out)
    ensures Lines(WriteOneLink(s).out) + WriteOneLink(s).pending == Lines(s.out) + s.pending
    ensures InSync(WriteOneLink(s))
  {
    var link := s.pending[0];
    var line := LinkLine(link.index, link.destination, link.title);
    var s1 := Write(s.(pending := s.pending[1..]), [line]);
    RefsLinesAppend(s.out, [line]);
    assert Lines([line]) == [link];
    NewlineReflushes(s1);
    assert [link] + s.pending[1..] == s.pending;
  }

  /** The flush loop writes the queued links, oldest first, and empties the
      queue. */
  lemma {:induction false} DrainLinksFacts(s: State)
    ensures DrainLinks(s) == s.(out := DrainLinks(s).out, pending := [])
    ensures s.out <= DrainLinks(s).out
    ensures Refs(DrainLinks(s).out) == Refs(s.out)
    ensures Lines(DrainLinks(s).out) == Lines(s.out) + s.pending
    ensures s.pending != [] ==> InSync(DrainLinks(s))
    decreases |s.pending|
  {
    if s.pending == [] {
      assert Lines(s.out) + s.pending == Lines(s.out);
    } else {
      WriteOneLinkFacts(s);
      DrainLinksFacts(WriteOneLink(s));
      var r := DrainLinks(s);
      assert Lines(r.out) + [] == Lines(r.out);
    }
  }

  /** `write_pending_links` does nothing when the queue is empty. Otherwise it
      writes the queued links as reference lines, oldest first, empties the
      queue, writes no inline reference, leaves the style stack as it was
      and the terminal showing exactly that stack. */
  lemma WritePendingLinksFacts(s: State)
    ensures s.pending == [] ==> WritePendingLinks(s) == s
    ensures WritePendingLinks(s) == s.(out := WritePendingLinks(s).out, pending := [])
    ensures s.out <= WritePendingLinks(s).out
    ensures Refs(WritePendingLinks(s).out) == Refs(s.out)
    ensures Lines(WritePendingLinks(s).out) == Lines(s.out) + s.pending
    ensures s.pending != [] ==> InSync(WritePendingLinks(s))
  {
    if s.pending != [] {
      var s0 := Newline(s);
      NewlineReflushes(s);
      var s1 := EnableStyle(s0, Fg(Blue));
      EnableStyleFacts(s0, Fg(Blue));
      QuietTrans(s, s0, s1);
      var s2 := DrainLinks(s1);
      DrainLinksFacts(s1);
      var r := ResetLastStyle(s2);
      ResetLastStyleFacts(s2);
      assert Pop(s2.styles) == s.styles;
    }
  }

  // =====================================================================
  // Link references across handlers

  /** `lo`, `lo + 1`, ..., `hi - 1`. */
  function Range(lo: nat, hi: nat): seq<nat>
    requires lo <= hi
  {
    seq(hi - lo, i requires 0 <= i < hi - lo => lo + i)
  }

  function Indices(links: seq<Link>): seq<nat>
  {
    seq(|links|, i requires 0 <= i < |links| => links[i].index)
  }

  /** Every index handed out so far appears once as an inline reference, in
      allocation order, and once either as a reference line already written
      or in the queue, again in allocation order. */
  ghost predicate LinksOk(s: State)
  {
    1 <= s.nextIndex
    && Refs(s.out) == Range(1, s.nextIndex)
    && Indices(Lines(s.out) + s.pending) == Range(1, s.nextIndex)
  }

  lemma InitialLinksOk(columns: U16)
    ensures LinksOk(Initial(columns))
  {
    assert Range(1, 1) == [];
  }

  /** An unsupported construct stops rendering without writing anything. */
  lemma UnsupportedWritesNothing(s: State, e: Event)
    requires e.Html? || e.InlineHtml? || e.FootnoteReference?
          || (e.Start? && (e.tag.FootnoteDefinition? || e.tag.Table? || e.tag.TableHead?
                           || e.tag.TableRow? || e.tag.TableCell? || e.tag.Image?))
    ensures WriteEvent(s, e).Fatal? && WriteEvent(s, e).st == s
  {
  }

  /** The start handlers that stop rendering, and why. */
  lemma StartTagFailures(s: State, tag: Tag)
    ensures StartTag(s, tag).Fatal? <==>
      tag.FootnoteDefinition? || tag.Table? || tag.TableHead? || tag.TableRow? || tag.TableCell?
      || tag.Image? || (tag.Header? && tag.level < 1) || (tag.Item? && s.lists == [])
    ensures StartTag(s, tag).Fatal? ==>
      StartTag(s, tag).failure
      == (match tag
          case FootnoteDefinition(_) => UnsupportedFootnotes
          case Image(_, _) => UnsupportedImages
          case Header(_) => HeaderLevelUnderflow
          case Item => ListItemWithoutKind
          case _ => UnsupportedTables)
  {
  }

  /** The end handlers that stop rendering: a block quote or an item whose
      indentation would drop below zero, and a block quote or an emphasis
      closed at emphasis depth zero. */
  lemma EndTagFailures(s: State, tag: Tag)
    ensures EndTag(s, tag).Fatal? <==>
      (tag.BlockQuote? && (s.indent < 4 || s.emphasis == 0))
      || (tag.Emphasis? && s.emphasis == 0)
      || (tag.Item? && s.lists != []
          && s.indent < if s.lists[|s.lists| - 1].Unordered? then 2 else 4)
    ensures EndTag(s, tag).Fatal? ==>
      EndTag(s, tag).failure
      == (if tag.Emphasis? || (tag.BlockQuote? && s.indent >= 4) then EmphasisUnderflow else IndentUnderflow)
  {
  }

  /** An item marker is the indentation, then a bullet or the number of the
      innermost ordered list, which advances by one; an item outside any
      list stops rendering. */
  lemma StartItemMarker(s: State)
    ensures StartItem(s).Fatal? <==> s.lists == []
    ensures StartItem(s).Fatal? ==> StartItem(s).failure == ListItemWithoutKind
    ensures StartItem(s).st.level == Inline
    ensures s.lists != [] ==>
      var r := StartItem(s).st;
      match s.lists[|s.lists| - 1]
      case Unordered =>
        r == s.(out := s.out + [Spaces(s.indent), Bullet], level := Inline, indent := s.indent + 2)
      case Ordered(n) =>
        r == s.(out := s.out + [Spaces(s.indent), Num(n)], level := Inline, indent := s.indent + 4,
                lists := s.lists[..|s.lists| - 1] + [Ordered(n + 1)])
  {
  }

  lemma StartItemQuiet(s: State)
    ensures Quiet(s, StartItem(s).st)
  {
    var s1 := Indent(s).(level := Inline);
    WritePlain(s, [Spaces(s.indent)]);
    if s1.lists != [] {
      var m := if s1.lists[|s1.lists| - 1].Unordered? then Bullet else Num(s1.lists[|s1.lists| - 1].number);
      WritePlain(s1, [m]);
      QuietTrans(s, s1, Write(s1, [m]));
    }
  }

  lemma EndItemQuiet(s: State)
    ensures Quiet(s, EndItem(s).st)
  {
    EndInlineTextFacts(s);
    if s.indent >= 4 {
      EndInlineTextFacts(s.(indent := s.indent - 4));
    }
    if s.indent >= 2 {
      EndInlineTextFacts(s.(indent := s.indent - 2));
    }
  }

  lemma RuleStartQuiet(s: State)
    ensures Quiet(s, StartTag(s, Rule).st)
  {
    var a := StartInlineText(s);
    var b := EnableStyle(a, Fg(LightBlack));
    assert Quiet(s, Write(b, [RuleChars(s.columns)])) by {
      StartInlineTextFacts(s);
      EnableStyleFacts(a, Fg(LightBlack));
      WritePlain(b, [RuleChars(s.columns)]);
      QuietTrans(s, a, b);
      QuietTrans(s, b, Write(b, [RuleChars(s.columns)]));
    }
  }

  lemma HeaderAfterFlushQuiet(w: State, level: int)
    ensures Quiet(w, StartInlineText(w))
    ensures level >= 1 ==>
      Quiet(w, Write(EnableStyle(EnableStyle(StartInlineText(w), Bold), Fg(Blue)), [HeaderTicks(level - 1)]))
  {
    var a := StartInlineText(w);
    StartInlineTextFacts(w);
    if level >= 1 {
      var b := EnableStyle(a, Bold);
      var c := EnableStyle(b, Fg(Blue));
      var r := Write(c, [HeaderTicks(level - 1)]);
      EnableStyleFacts(a, Bold);
      EnableStyleFacts(b, Fg(Blue));
      WritePlain(c, [HeaderTicks(level - 1)]);
      QuietTrans(a, b, c);
      QuietTrans(a, c, r);
      QuietTrans(w, a, r);
    }
  }

  /** A header first writes every queued reference line. */
  lemma HeaderStartLinks(s: State, level: int)
    ensures
      var r := StartTag(s, Header(level)).st;
      s.out <= r.out && Refs(r.out) == Refs(s.out) && Lines(r.out) == Lines(s.out) + s.pending
      && r.pending == [] && r.nextIndex == s.nextIndex
  {
    var w := WritePendingLinks(s);
    WritePendingLinksFacts(s);
    HeaderAfterFlushQuiet(w, level);
    var r := StartTag(s, Header(level)).st;
    assert Quiet(w, r);
  }

  lemma BlockQuoteStartQuiet(s: State)
    ensures Quiet(s, StartTag(s, BlockQuote).st)
  {
    var s0 := s.(indent := s.indent + 4);
    var a := StartInlineText(s0);
    var b := EnableStyle(a, Fg(LightBlack));
    assert Quiet(s, EnableEmphasis(b)) by {
      StartInlineTextFacts(s0);
      EnableStyleFacts(a, Fg(LightBlack));
      EnableEmphasisFacts(b);
      QuietTrans(s0, a, b);
      QuietTrans(s0, b, EnableEmphasis(b));
    }
  }

  lemma CodeBlockStartQuiet(s: State, info: string)
    ensures Quiet(s, StartTag(s, CodeBlock(info)).st)
  {
    var a := StartInlineText(s);
    assert Quiet(s, EnableStyle(a, Fg(Yellow))) by {
      StartInlineTextFacts(s);
      EnableStyleFacts(a, Fg(Yellow));
      QuietTrans(s, a, EnableStyle(a, Fg(Yellow)));
    }
  }

  /** Every start handler but the header's writes no link output and leaves
      the queue alone. */
  lemma StartTagQuiet(s: State, tag: Tag)
    requires !tag.Header?
    ensures Quiet(s, StartTag(s, tag).st)
  {
    match tag
    case Paragraph => StartInlineTextFacts(s);
    case Rule => RuleStartQuiet(s);
    case BlockQuote => BlockQuoteStartQuiet(s);
    case CodeBlock(info) => CodeBlockStartQuiet(s, info);
    case List(start) => NewlineReflushes(s.(lists := s.lists + [FrameOf(start)]));
    case Item => StartItemQuiet(s);
    case Emphasis => EnableEmphasisFacts(s);
    case Strong => EnableStyleFacts(s, Bold);
    case Code => EnableStyleFacts(s, Fg(Yellow));
    case _ =>
  }

  /** Closing a link whose text is not its own destination allocates the next
      index, writes exactly one inline reference to it, queues the link and
      leaves the style stack as it was, with the terminal showing it. */
  lemma LinkReferenced(s: State, destination: string, title: string)
    requires s.lastText != Some(destination)
    ensures
      var r := EndLink(s, destination, title);
      s.out <= r.out
      && Refs(r.out) == Refs(s.out) + [s.nextIndex] && Lines(r.out) == Lines(s.out)
      && r.pending == s.pending + [Link.Link(s.nextIndex, destination, title)]
      && r.nextIndex == s.nextIndex + 1
      && r.styles == s.styles && InSync(r)
  {
    var (s1, index) := AddLink(s, destination, title);
    var s2 := EnableStyle(s1, Fg(Blue));
    EnableStyleFacts(s1, Fg(Blue));
    var s3 := s2.(out := s2.out + [RefIdx(index)]);
    RefsLinesAppend(s2.out, [RefIdx(index)]);
    ResetLastStyleFacts(s3);
  }

  /** Closing a link whose last text is its own destination (an autolink)
      changes nothing at all. */
  lemma AutolinkSuppressed(s: State, destination: string, title: string)
    requires s.lastText == Some(destination)
    ensures EndTag(s, Tag.Link(destination, title)) == Ok(s)
  {
  }

  lemma BlockEndQuiet(s: State, tag: Tag)
    requires IsBlockTag(tag)
    ensures Quiet(s, EndTag(s, tag).st)
  {
    match tag
    case Paragraph =>
      EndInlineTextFacts(s);
    case Rule =>
      EndInlineTextFacts(PopStyle(s));
    case Header(_) =>
      EndInlineTextFacts(PopStyle(PopStyle(s)));
    case BlockQuote =>
      if s.indent >= 4 && s.emphasis >= 1 {
        var s1 := PopStyle(s.(indent := s.indent - 4, emphasis := s.emphasis - 1));
        ResetLastStyleFacts(s1);
        EndInlineTextFacts(ResetLastStyle(s1));
        QuietTrans(s1, ResetLastStyle(s1), EndInlineTextWithMargin(ResetLastStyle(s1)));
      }
    case CodeBlock(_) =>
      ResetLastStyleFacts(s);
      EndInlineTextFacts(ResetLastStyle(s));
      QuietTrans(s, ResetLastStyle(s), EndInlineTextWithMargin(ResetLastStyle(s)));
    case List(_) =>
      EndInlineTextFacts(s.(lists := Pop(s.lists)));
    case Item =>
      EndItemQuiet(s);
  }

  lemma InlineEndQuiet(s: State, tag: Tag)
    requires !IsBlockTag(tag) && !tag.Link?
    ensures Quiet(s, EndTag(s, tag).st)
  {
    match tag
    case Emphasis =>
      ResetLastStyleFacts(s);
    case Strong =>
      ResetLastStyleFacts(s);
    case Code =>
      ResetLastStyleFacts(s);
    case FootnoteDefinition(_) =>
    case Table =>
    case TableHead =>
    case TableRow =>
    case TableCell =>
    case Image(_, _) =>
  }

  /** Every end handler but the link's writes no link output and leaves the
      queue alone; it never fails on an unbalanced stack of styles. */
  lemma EndTagLinks(s: State, tag: Tag)
    ensures !tag.Link? ==> Quiet(s, EndTag(s, tag).st)
    ensures tag.Link? && s.lastText == Some(tag.destination) ==> EndTag(s, tag).st == s
  {
    if IsBlockTag(tag) {
      BlockEndQuiet(s, tag);
    } else if !tag.Link? {
      InlineEndQuiet(s, tag);
    }
  }

  lemma QuietKeepsLinksOk(s: State, r: State)
    requires LinksOk(s) && Quiet(s, r)
    ensures LinksOk(r)
  {
  }

  /** Flushing the queue moves its links to the output, in order. */
  lemma FlushKeepsLinksOk(s: State, r: State)
    requires LinksOk(s)
    requires Refs(r.out) == Refs(s.out) && Lines(r.out) == Lines(s.out) + s.pending
    requires r.pending == [] && r.nextIndex == s.nextIndex
    ensures LinksOk(r)
  {
    assert Lines(r.out) + r.pending == Lines(s.out) + s.pending;
  }

  /** A new reference and its queued link both carry the next index. */
  lemma ReferenceKeepsLinksOk(s: State, r: State, link: Link)
    requires LinksOk(s) && link.index == s.nextIndex
    requires Refs(r.out) == Refs(s.out) + [s.nextIndex] && Lines(r.out) == Lines(s.out)
    requires r.pending == s.pending + [link] && r.nextIndex == s.nextIndex + 1
    ensures LinksOk(r)
  {
    var n := s.nextIndex;
    assert Range(1, n + 1) == Range(1, n) + [n];
    assert Lines(r.out) + r.pending == (Lines(s.out) + s.pending) + [link];
    assert Indices(Lines(r.out) + r.pending) == Indices(Lines(s.out) + s.pending) + [n];
  }

  lemma StartKeepsLinksOk(s: State, tag: Tag)
    requires LinksOk(s)
    ensures LinksOk(StartTag(s, tag).st)
    ensures s.out <= StartTag(s, tag).st.out
  {
    var r := StartTag(s, tag).st;
    if tag.Header? {
      HeaderStartLinks(s, tag.level);
      FlushKeepsLinksOk(s, r);
    } else {
      StartTagQuiet(s, tag);
      QuietKeepsLinksOk(s, r);
    }
  }

  lemma EndKeepsLinksOk(s: State, tag: Tag)
    requires LinksOk(s)
    ensures LinksOk(EndTag(s, tag).st)
    ensures s.out <= EndTag(s, tag).st.out
  {
    var r := EndTag(s, tag).st;
    if tag.Link? && s.lastText != Some(tag.destination) {
      LinkReferenced(s, tag.destination, tag.title);
      ReferenceKeepsLinksOk(s, r, Link.Link(s.nextIndex, tag.destination, tag.title));
    } else {
      EndTagLinks(s, tag);
      if !tag.Link? {
        QuietKeepsLinksOk(s, r);
      }
    }
  }

  /** Each event keeps the link invariant. */
  lemma StepKeepsLinksOk(s: State, e: Event)
    requires LinksOk(s)
    ensures LinksOk(WriteEvent(s, e).st)
    ensures s.out <= WriteEvent(s, e).st.out
  {
    match e
    case SoftBreak =>
      NewlineAndIndentFacts(s);
    case HardBreak =>
      NewlineAndIndentFacts(s);
    case Text(t) =>
      WritePlain(s, [Literal(t)]);
    case Start(tag) =>
      StartKeepsLinksOk(s, tag);
    case End(tag) =>
      EndKeepsLinksOk(s, tag);
    case _ =>
  }

  /** Rendering a stream keeps the link invariant and only appends output. */
  lemma {:induction false} RunKeepsLinksOk(s: State, events: seq<Event>)
    requires LinksOk(s)
    ensures LinksOk(Run(s, events).st)
    ensures s.out <= Run(s, events).st.out
    decreases |events|
  {
    if events != [] {
      var r := WriteEvent(s, events[0]);
      StepKeepsLinksOk(s, events[0]);
      if r.Ok? {
        RunKeepsLinksOk(r.st, events[1..]);
      }
    }
  }

  /** After a whole document renders, the queue is empty and the output holds
      the inline references 1, 2, ..., n in order and exactly one reference
      line for each of them, in the same order. */
  lemma RenderLinksComplete(columns: U16, events: seq<Event>)
    requires Render(columns, events).Ok?
    ensures
      var r := Render(columns, events).st;
      r.pending == [] && 1 <= r.nextIndex
      && Refs(r.out) == Range(1, r.nextIndex)
      && Indices(Lines(r.out)) == Range(1, r.nextIndex)
  {
    InitialLinksOk(columns);
    RunKeepsLinksOk(Initial(columns), events);
    var s := Run(Initial(columns), events).st;
    WritePendingLinksFacts(s);
  }

  // =====================================================================
  // Matched start and end tags

  /** Rendering a concatenation is rendering the first part, then the second
      from where the first stopped. */
  lemma {:induction false} RunAppend(s: State, a: seq<Event>, b: seq<Event>)
    ensures Run(s, a + b) == (var r := Run(s, a); if r.Fatal? then r else Run(r.st, b))
    decreases |a|
  {
    if a == [] {
      assert a + b == b;
    } else {
      assert (a + b)[0] == a[0];
      assert (a + b)[1..] == a[1..] + b;
      var r := WriteEvent(s, a[0]);
      if r.Ok? {
        RunAppend(r.st, a[1..], b);
      }
    }
  }

  lemma {:induction false} EventsOfAppend(a: seq<Tree>, b: seq<Tree>)
    ensures EventsOf(a + b) == EventsOf(a) + EventsOf(b)
    decreases |a|
  {
    if a == [] {
      assert a + b == b;
    } else {
      assert (a + b)[0] == a[0];
      assert (a + b)[1..] == a[1..] + b;
      EventsOfAppend(a[1..], b);
    }
  }

  /** The list stack after `m` more items of the innermost list: an ordered
      innermost frame counts on by `m`. */
  function AdvancedBy(lists: seq<ListItemKind>, m: nat): seq<ListItemKind>
  {
    if lists == [] then []
    else
      Pop(lists) + [match lists[|lists| - 1]
                    case Ordered(n) => Ordered(n + m)
                    case Unordered => Unordered]
  }

  lemma AdvancedByAdd(lists: seq<ListItemKind>, a: nat, b: nat)
    ensures AdvancedBy(AdvancedBy(lists, a), b) == AdvancedBy(lists, a + b)
  {
    if lists != [] {
      var l1 := AdvancedBy(lists, a);
      assert Pop(l1) == Pop(lists);
    }
  }

  lemma AdvancedByZero(lists: seq<ListItemKind>)
    ensures AdvancedBy(lists, 0) == lists
  {
    if lists != [] {
      assert Pop(lists) + [lists[|lists| - 1]] == lists;
    }
  }

  /** The style stack, the indentation and the emphasis depth agree. */
  ghost predicate SameLayout(a: State, b: State)
  {
    a.styles == b.styles && a.indent == b.indent && a.emphasis == b.emphasis
  }

  lemma PopPush<T>(xs: seq<T>, x: T)
    ensures Pop(xs + [x]) == xs
  {
    assert (xs + [x])[..|xs|] == xs;
  }

  /** A pushed style and its `reset_last_style` cancel out. */
  lemma StyledPairRestores(s: State, style: Style, s2: State)
    requires SameLayout(EnableStyle(s, style), s2)
    ensures SameLayout(s, ResetLastStyle(s2))
  {
    PopPush(s.styles, style);
  }

  lemma RulePairRestores(s: State, s2: State)
    requires SameLayout(StartTag(s, Rule).st, s2)
    ensures SameLayout(s, EndTag(s2, Rule).st)
  {
    PopPush(s.styles, Fg(LightBlack));
  }

  lemma HeaderPairRestores(s: State, level: int, s2: State)
    requires StartTag(s, Header(level)).Ok?
    requires SameLayout(StartTag(s, Header(level)).st, s2)
    ensures SameLayout(s, EndTag(s2, Header(level)).st)
    ensures StartTag(s, Header(level)).st.lists == s.lists
  {
    WritePendingLinksFacts(s);
    PopPush(s.styles + [Bold], Fg(Blue));
    PopPush(s.styles, Bold);
  }

  lemma BlockQuotePairRestores(s: State, s2: State)
    requires SameLayout(StartTag(s, BlockQuote).st, s2)
    ensures EndTag(s2, BlockQuote).Ok?
    ensures SameLayout(s, EndTag(s2, BlockQuote).st)
  {
    var q := if (s.emphasis + 1) % 2 == 1 then Italic else NoItalic;
    PopPush(s.styles + [Fg(LightBlack)], q);
    PopPush(s.styles, Fg(LightBlack));
  }

  lemma EmphasisPairRestores(s: State, s2: State)
    requires SameLayout(StartTag(s, Emphasis).st, s2)
    ensures EndTag(s2, Emphasis).Ok?
    ensures SameLayout(s, EndTag(s2, Emphasis).st)
  {
    PopPush(s.styles, if (s.emphasis + 1) % 2 == 1 then Italic else NoItalic);
  }

  lemma ItemPairRestores(s: State, s2: State)
    requires StartTag(s, Item).Ok?
    requires SameLayout(StartTag(s, Item).st, s2) && s2.lists == StartTag(s, Item).st.lists
    requires EndTag(s2, Item).Ok?
    ensures SameLayout(s, EndTag(s2, Item).st)
    ensures EndTag(s2, Item).st.lists == AdvancedBy(s.lists, 1)
  {
  }

  lemma LinkPairRestores(s2: State, destination: string, title: string)
    ensures SameLayout(s2, EndTag(s2, Tag.Link(destination, title)).st)
    ensures EndTag(s2, Tag.Link(destination, title)).st.lists == s2.lists
  {
    if s2.lastText != Some(destination) {
      LinkReferenced(s2, destination, title);
    }
  }

  /** Whether `tag` is one of the block-level tags. */
  predicate IsBlockTag(tag: Tag)
  {
    tag.Paragraph? || tag.Rule? || tag.Header? || tag.BlockQuote? || tag.CodeBlock?
    || tag.List? || tag.Item?
  }

  lemma BlockPairRestores(s: State, tag: Tag, s2: State)
    requires IsBlockTag(tag)
    requires StartTag(s, tag).Ok?
    requires SameLayout(StartTag(s, tag).st, s2)
    requires !tag.List? ==> s2.lists == StartTag(s, tag).st.lists
    requires tag.List? ==> Pop(s2.lists) == s.lists
    requires EndTag(s2, tag).Ok?
    ensures SameLayout(s, EndTag(s2, tag).st)
    ensures EndTag(s2, tag).st.lists == if tag == Item then AdvancedBy(s.lists, 1) else s.lists
  {
    match tag
    case Paragraph =>
    case Rule => RulePairRestores(s, s2);
    case Header(level) => HeaderPairRestores(s, level, s2);
    case BlockQuote => BlockQuotePairRestores(s, s2);
    case CodeBlock(_) => StyledPairRestores(StartInlineText(s), Fg(Yellow), s2);
    case List(_) =>
    case Item => ItemPairRestores(s, s2);
  }

  lemma InlinePairRestores(s: State, tag: Tag, s2: State)
    requires !IsBlockTag(tag)
    requires StartTag(s, tag).Ok?
    requires SameLayout(StartTag(s, tag).st, s2)
    requires s2.lists == StartTag(s, tag).st.lists
    requires EndTag(s2, tag).Ok?
    ensures SameLayout(s, EndTag(s2, tag).st)
    ensures EndTag(s2, tag).st.lists == s.lists
  {
    match tag
    case Emphasis => EmphasisPairRestores(s, s2);
    case Strong => StyledPairRestores(s, Bold, s2);
    case Code => StyledPairRestores(s, Fg(Yellow), s2);
    case Link(destination, title) => LinkPairRestores(s2, destination, title);
    case FootnoteDefinition(_) =>
    case Table =>
    case TableHead =>
    case TableRow =>
    case TableCell =>
    case Image(_, _) =>
  }

  /** An end tag undoes what its start tag did to the style stack, the
      indentation, the emphasis depth and the list stack, whatever ran in
      between as long as that left those as the start tag did; a list item
      instead leaves its list counted on by one. */
  lemma PairRestoresLayout(s: State, tag: Tag, s2: State)
    requires StartTag(s, tag).Ok?
    requires SameLayout(StartTag(s, tag).st, s2)
    requires !tag.List? ==> s2.lists == StartTag(s, tag).st.lists
    requires tag.List? ==> Pop(s2.lists) == s.lists
    requires EndTag(s2, tag).Ok?
    ensures SameLayout(s, EndTag(s2, tag).st)
    ensures EndTag(s2, tag).st.lists == if tag == Item then AdvancedBy(s.lists, 1) else s.lists
  {
    if IsBlockTag(tag) {
      BlockPairRestores(s, tag, s2);
    } else {
      InlinePairRestores(s, tag, s2);
    }
  }

  /** A well-nested construct that renders leaves the style stack, the
      indentation and the emphasis depth as it found them, and the list
      stack too, except that a list item counts its list on by one. */
  lemma {:induction false} TreeKeepsLayout(s: State, t: Tree)
    requires WellNested(t)
    requires Run(s, Events(t)).Ok?
    ensures SameLayout(s, Run(s, Events(t)).st)
    ensures Run(s, Events(t)).st.lists == if IsItem(t) then AdvancedBy(s.lists, 1) else s.lists
    decreases t
  {
    match t
    case Leaf(e) =>
      if e.SoftBreak? || e.HardBreak? {
        NewlineAndIndentFacts(s);
      }
    case Node(tag, ch) =>
      NodeRuns(s, tag, ch);
      ChildrenKeepLayout(StartTag(s, tag).st, tag.List?, ch);
      NodeKeepsLayout(s, tag, ch);
  }

  /** A node renders its start tag, then its children, then its end tag. */
  lemma NodeRuns(s: State, tag: Tag, ch: seq<Tree>)
    requires Run(s, Events(Node(tag, ch))).Ok?
    ensures StartTag(s, tag).Ok?
    ensures Run(StartTag(s, tag).st, EventsOf(ch)).Ok?
    ensures Run(s, Events(Node(tag, ch)))
         == EndTag(Run(StartTag(s, tag).st, EventsOf(ch)).st, tag)
  {
    var inner := EventsOf(ch);
    assert Events(Node(tag, ch)) == [Start(tag)] + (inner + [End(tag)]);
    RunAppend(s, [Start(tag)], inner + [End(tag)]);
    var s1 := StartTag(s, tag).st;
    RunAppend(s1, inner, [End(tag)]);
  }

  /** The layout after a node, given the layout after its children. */
  lemma NodeKeepsLayout(s: State, tag: Tag, ch: seq<Tree>)
    requires StartTag(s, tag).Ok?
    requires Run(StartTag(s, tag).st, EventsOf(ch)).Ok?
    requires Run(s, Events(Node(tag, ch))).Ok?
    requires Run(s, Events(Node(tag, ch)))
          == EndTag(Run(StartTag(s, tag).st, EventsOf(ch)).st, tag)
    requires var s1 := StartTag(s, tag).st;
             var s2 := Run(s1, EventsOf(ch)).st;
             SameLayout(s1, s2) && s2.lists == if tag.List? then AdvancedBy(s1.lists, |ch|) else s1.lists
    ensures SameLayout(s, Run(s, Events(Node(tag, ch))).st)
    ensures Run(s, Events(Node(tag, ch))).st.lists == if tag == Item then AdvancedBy(s.lists, 1) else s.lists
  {
    var s1 := StartTag(s, tag).st;
    var s2 := Run(s1, EventsOf(ch)).st;
    if tag.List? {
      assert s1.lists == s.lists + [FrameOf(tag.start)];
    }
    PairRestoresLayout(s, tag, s2);
  }

  /** The first sibling renders first, then the others from where it
      stopped. */
  lemma ChildrenSplit(s: State, ch: seq<Tree>)
    requires ch != [] && Run(s, EventsOf(ch)).Ok?
    ensures Run(s, Events(ch[0])).Ok?
    ensures Run(Run(s, Events(ch[0])).st, EventsOf(ch[1..])) == Run(s, EventsOf(ch))
  {
    RunAppend(s, Events(ch[0]), EventsOf(ch[1..]));
  }

  lemma ChildrenTail(inList: bool, ch: seq<Tree>)
    requires ch != [] && ChildrenWellNested(inList, ch)
    ensures WellNested(ch[0]) && (IsItem(ch[0]) <==> inList)
    ensures ChildrenWellNested(inList, ch[1..])
  {
    forall i | 0 <= i < |ch[1..]|
      ensures WellNested(ch[1..][i]) && (IsItem(ch[1..][i]) <==> inList)
    {
      assert ch[1..][i] == ch[i + 1];
    }
  }

  /** The layout after one sibling, then after `n` more. */
  lemma LayoutChain(s: State, s1: State, r: State, inList: bool, n: nat)
    requires SameLayout(s, s1) && s1.lists == if inList then AdvancedBy(s.lists, 1) else s.lists
    requires SameLayout(s1, r) && r.lists == if inList then AdvancedBy(s1.lists, n) else s1.lists
    ensures SameLayout(s, r) && r.lists == if inList then AdvancedBy(s.lists, n + 1) else s.lists
  {
    if inList {
      AdvancedByAdd(s.lists, 1, n);
    }
  }

  /** A sequence of well-nested siblings keeps the layout; inside a list,
      each of them is an item and counts the list on by one. */
  lemma {:induction false} ChildrenKeepLayout(s: State, inList: bool, ch: seq<Tree>)
    requires ChildrenWellNested(inList, ch)
    requires Run(s, EventsOf(ch)).Ok?
    ensures SameLayout(s, Run(s, EventsOf(ch)).st)
    ensures Run(s, EventsOf(ch)).st.lists == if inList then AdvancedBy(s.lists, |ch|) else s.lists
    decreases ch
  {
    if ch == [] {
      AdvancedByZero(s.lists);
    } else {
      ChildrenSplit(s, ch);
      ChildrenTail(inList, ch);
      TreeKeepsLayout(s, ch[0]);
      var s1 := Run(s, Events(ch[0])).st;
      ChildrenKeepLayout(s1, inList, ch[1..]);
      LayoutChain(s, s1, Run(s1, EventsOf(ch[1..])).st, inList, |ch| - 1);
    }
  }

  lemma EventsOfSplit(ch: seq<Tree>, i: nat)
    requires i < |ch|
    ensures EventsOf(ch) == EventsOf(ch[..i]) + Events(ch[i]) + EventsOf(ch[i + 1..])
  {
    var rest := ch[i..];
    assert ch[..i] + rest == ch;
    EventsOfAppend(ch[..i], rest);
    assert rest[0] == ch[i] && rest[1..] == ch[i + 1..];
    assert EventsOf(rest) == Events(ch[i]) + EventsOf(ch[i + 1..]);
  }

  lemma ItemsPrefix(start: Option<nat>, ch: seq<Tree>, i: nat)
    requires WellNested(Node(List(start), ch)) && i < |ch|
    ensures ChildrenWellNested(true, ch[..i])
    ensures IsItem(ch[i])
  {
    forall j | 0 <= j < i
      ensures WellNested(ch[..i][j]) && IsItem(ch[..i][j])
    {
      assert ch[..i][j] == ch[j];
    }
  }

  /** The list stack after the first `i` children of a list. */
  lemma ListAfterItems(s: State, start: Option<nat>, ch: seq<Tree>, i: nat)
    requires WellNested(Node(List(start), ch)) && i < |ch|
    requires Run(StartTag(s, List(start)).st, EventsOf(ch[..i])).Ok?
    ensures Run(StartTag(s, List(start)).st, EventsOf(ch[..i])).st.lists
         == s.lists + [match start case Some(k) => Ordered(k + i) case None => Unordered]
  {
    var s1 := StartTag(s, List(start)).st;
    ItemsPrefix(start, ch, i);
    ChildrenKeepLayout(s1, true, ch[..i]);
    assert s1.lists == s.lists + [FrameOf(start)];
    PopPush(s.lists, FrameOf(start));
  }

  /** The marker of the item a list's `i`-th child (from 0) opens: the
      indentation, then a bullet or the list's first number plus `i`, however
      deeply the earlier items nest other lists. */
  lemma ItemMarker(s: State, start: Option<nat>, ch: seq<Tree>, i: nat)
    requires WellNested(Node(List(start), ch)) && i < |ch|
    requires Run(StartTag(s, List(start)).st, EventsOf(ch[..i])).Ok?
    ensures Events(ch[i])[0] == Start(Item)
    ensures
      var s2 := Run(StartTag(s, List(start)).st, EventsOf(ch[..i])).st;
      StartTag(s2, Item).Ok?
      && StartTag(s2, Item).st.out
         == s2.out + [Spaces(s2.indent), match start case Some(k) => Num(k + i) case None => Bullet]
  {
    ItemsPrefix(start, ch, i);
    ListAfterItems(s, start, ch, i);
  }

  // =====================================================================
  // The terminal's styles and the style stack

  lemma RuleStartSync(s: State)
    requires InSync(s)
    ensures InSync(StartTag(s, Rule).st)
  {
    var a := StartInlineText(s);
    var b := EnableStyle(a, Fg(LightBlack));
    assert InSync(Write(b, [RuleChars(s.columns)])) by {
      StartInlineTextFacts(s);
      EnableStyleFacts(a, Fg(LightBlack));
      WriteNeutral(b, RuleChars(s.columns));
    }
  }

  lemma HeaderStartSync(s: State, level: int)
    requires InSync(s)
    ensures InSync(StartTag(s, Header(level)).st)
  {
    var w := WritePendingLinks(s);
    assert InSync(w) by {
      WritePendingLinksFacts(s);
    }
    var a := StartInlineText(w);
    assert InSync(a) by {
      StartInlineTextFacts(w);
    }
    if level >= 1 {
      var b := EnableStyle(a, Bold);
      var c := EnableStyle(b, Fg(Blue));
      assert InSync(Write(c, [HeaderTicks(level - 1)])) by {
        EnableStyleFacts(a, Bold);
        EnableStyleFacts(b, Fg(Blue));
        WriteNeutral(c, HeaderTicks(level - 1));
      }
    }
  }

  lemma BlockQuoteStartSync(s: State)
    requires InSync(s)
    ensures InSync(StartTag(s, BlockQuote).st)
  {
    var s0 := s.(indent := s.indent + 4);
    var a := StartInlineText(s0);
    var b := EnableStyle(a, Fg(LightBlack));
    assert InSync(EnableEmphasis(b)) by {
      StartInlineTextFacts(s0);
      EnableStyleFacts(a, Fg(LightBlack));
      EnableEmphasisFacts(b);
    }
  }

  lemma StartItemSync(s: State)
    requires InSync(s)
    ensures InSync(StartItem(s).st)
  {
    WriteNeutral(s, Spaces(s.indent));
    var s1 := Indent(s).(level := Inline);
    if s1.lists != [] {
      match s1.lists[|s1.lists| - 1]
      case Unordered => WriteNeutral(s1, Bullet);
      case Ordered(n) => WriteNeutral(s1, Num(n));
    }
  }

  /** Every start handler keeps the terminal showing exactly the stack. */
  lemma StartTagSync(s: State, tag: Tag)
    requires InSync(s)
    ensures InSync(StartTag(s, tag).st)
  {
    match tag
    case Paragraph => StartInlineTextFacts(s);
    case Rule => RuleStartSync(s);
    case Header(level) => HeaderStartSync(s, level);
    case BlockQuote => BlockQuoteStartSync(s);
    case CodeBlock(_) =>
      StartInlineTextFacts(s);
      EnableStyleFacts(StartInlineText(s), Fg(Yellow));
    case List(start) => NewlineReflushes(s.(lists := s.lists + [FrameOf(start)]));
    case Item => StartItemSync(s);
    case Emphasis => EnableEmphasisFacts(s);
    case Strong => EnableStyleFacts(s, Bold);
    case Code => EnableStyleFacts(s, Fg(Yellow));
    case _ =>
  }

  lemma BlockQuoteEndSync(s: State)
    requires InSync(s)
    ensures InSync(EndTag(s, BlockQuote).st)
  {
    if s.indent >= 4 && s.emphasis >= 1 {
      var s1 := PopStyle(s.(indent := s.indent - 4, emphasis := s.emphasis - 1));
      assert InSync(EndInlineTextWithMargin(ResetLastStyle(s1))) by {
        ResetLastStyleFacts(s1);
        EndInlineTextFacts(ResetLastStyle(s1));
      }
    }
  }

  lemma EndItemSync(s: State)
    requires InSync(s)
    ensures InSync(EndItem(s).st)
  {
    EndInlineTextFacts(s);
    if s.indent >= 4 {
      EndInlineTextFacts(s.(indent := s.indent - 4));
    }
    if s.indent >= 2 {
      EndInlineTextFacts(s.(indent := s.indent - 2));
    }
  }

  /** Every end handler keeps the terminal showing exactly the stack, except
      that closing a rule or a header at block level pops a style without
      writing a reset. */
  lemma EndTagSync(s: State, tag: Tag)
    requires InSync(s)
    requires tag.Rule? || tag.Header? ==> s.level == Inline
    ensures InSync(EndTag(s, tag).st)
  {
    match tag
    case Paragraph => EndInlineTextFacts(s);
    case Rule => EndInlineTextFacts(PopStyle(s));
    case Header(_) => EndInlineTextFacts(PopStyle(PopStyle(s)));
    case BlockQuote => BlockQuoteEndSync(s);
    case CodeBlock(_) =>
      ResetLastStyleFacts(s);
      EndInlineTextFacts(ResetLastStyle(s));
    case List(_) => EndInlineTextFacts(s.(lists := Pop(s.lists)));
    case Item => EndItemSync(s);
    case Emphasis => ResetLastStyleFacts(s);
    case Strong => ResetLastStyleFacts(s);
    case Code => ResetLastStyleFacts(s);
    case Link(destination, title) =>
      if s.lastText != Some(destination) {
        LinkReferenced(s, destination, title);
      }
    case _ =>
  }

  /** Each event keeps the terminal showing exactly the style stack, also when
      it stops rendering, except a rule or header end at block level. */
  lemma StepKeepsSync(s: State, e: Event)
    requires InSync(s)
    requires e.End? && (e.tag.Rule? || e.tag.Header?) ==> s.level == Inline
    ensures InSync(WriteEvent(s, e).st)
  {
    match e
    case SoftBreak => NewlineAndIndentFacts(s);
    case HardBreak => NewlineAndIndentFacts(s);
    case Text(t) => WriteNeutral(s, Literal(t));
    case Start(tag) => StartTagSync(s, tag);
    case End(tag) => EndTagSync(s, tag);
    case _ =>
  }

  /** The exception is real: a rule closed at block level leaves its colour
      on the terminal although it is no longer on the stack. */
  lemma RuleEndAtBlockLevelKeepsColour()
    ensures
      var s := State(80, [SetStyle(Fg(LightBlack))], [Fg(LightBlack)], 0, 0, Block, [], [], 1, None);
      InSync(s) && EndTag(s, Rule).Ok? && EndTag(s, Rule).st.styles == []
      && Effective(EndTag(s, Rule).st.out) == [Fg(LightBlack)]
  {
    var s := State(80, [SetStyle(Fg(LightBlack))], [Fg(LightBlack)], 0, 0, Block, [], [], 1, None);
    assert s.out[..0] == [];
  }
}
