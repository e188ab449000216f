/** The TTY renderer of src/tty.rs: a rendering context updated in place by
    one handler per markdown event.

    The writer is the field `out`, which every method only extends. Each
    method is proved to leave the context in the state the reference model
    TtySpec computes from the state before the call.
 */
module Tty {
  import opened Terminal
  import opened Markdown
  import opened TtySpec

  class Context {
    /** The terminal width, used for horizontal rules only. */
    const columns: U16
    /** What has been written to the terminal so far. */
    var out: seq<Token>
    /** All styles applied to the current text, bottom first. */
    var activeStyles: seq<Style>
    /** Emphasis nesting depth; its parity chooses italic or upright. */
    var emphasisLevel: nat
    /** The number of blanks to indent with. */
    var indentLevel: nat
    var blockLevel: BlockLevel
    /** One frame per open list, innermost last. */
    var listItemKind: seq<ListItemKind>
    /** Links waiting for their reference line, oldest first. */
    var pendingLinks: seq<Link>
    /** The index the next link gets. */
    var nextLinkIndex: nat
    /** The last text written, to recognise links whose text is their
        destination. */
    var lastText: Option<string>

    /** The context as a value of the reference model. */
    function Snap(): State
      reads this
    {
      State(columns, out, activeStyles, emphasisLevel, indentLevel, blockLevel,
            listItemKind, pendingLinks, nextLinkIndex, lastText)
    }

    constructor (columns: U16)
      ensures Snap() == TtySpec.Initial(columns)
    {
      this.columns := columns;
      out := [];
      activeStyles := [];
      emphasisLevel := 0;
      indentLevel := 0;
      // Rendering starts inline; blocks are started explicitly.
      blockLevel := Inline;
      listItemKind := [];
      pendingLinks := [];
      nextLinkIndex := 1;
      lastText := None;
    }

    method StartInlineText()
      modifies this
      ensures Snap() == TtySpec.StartInlineText(old(Snap()))
    {
      if blockLevel == Block {
        NewlineAndIndent();
      }
      blockLevel := Inline;
    }

    method EndInlineTextWithMargin()
      modifies this
      ensures Snap() == TtySpec.EndInlineTextWithMargin(old(Snap()))
    {
      if blockLevel == Inline {
        Newline();
      }
      blockLevel := Block;
    }

    method FlushStyles()
      modifies this
      ensures Snap() == TtySpec.FlushStyles(old(Snap()))
    {
      out := out + StyleTokens(activeStyles);
    }

    method Newline()
      modifies this
      ensures Snap() == TtySpec.Newline(old(Snap()))
    {
      out := out + [Reset, LineFeed];
      FlushStyles();
    }

    method NewlineAndIndent()
      modifies this
      ensures Snap() == TtySpec.NewlineAndIndent(old(Snap()))
    {
      Newline();
      Indent();
    }

    method Indent()
      modifies this
      ensures Snap() == TtySpec.Indent(old(Snap()))
    {
      out := out + [Spaces(indentLevel)];
    }

    method EnableStyle(style: Style)
      modifies this
      ensures Snap() == TtySpec.EnableStyle(old(Snap()), style)
    {
      activeStyles := activeStyles + [style];
      out := out + [SetStyle(style)];
    }

    method ResetLastStyle()
      modifies this
      ensures Snap() == TtySpec.ResetLastStyle(old(Snap()))
    {
      activeStyles := Pop(activeStyles);
      out := out + [Reset];
      FlushStyles();
    }

    method EnableEmphasis()
      modifies this
      ensures Snap() == TtySpec.EnableEmphasis(old(Snap()))
    {
      emphasisLevel := emphasisLevel + 1;
      if emphasisLevel % 2 == 1 {
        EnableStyle(Italic);
      } else {
        EnableStyle(NoItalic);
      }
    }

    method AddLink(destination: string, title: string) returns (index: nat)
      modifies this
      ensures (Snap(), index) == TtySpec.AddLink(old(Snap()), destination, title)
    {
      index := nextLinkIndex;
      nextLinkIndex := nextLinkIndex + 1;
      pendingLinks := pendingLinks + [Link.Link(index, destination, title)];
    }

    method WritePendingLinks()
      modifies this
      ensures Snap() == TtySpec.WritePendingLinks(old(Snap()))
    {
      if pendingLinks != [] {
        Newline();
        EnableStyle(Fg(Blue));
        ghost var drained := DrainLinks(Snap());
        while pendingLinks != []
          invariant DrainLinks(Snap()) == drained
          decreases |pendingLinks|
        {
          ghost var before := Snap();
          var link := pendingLinks[0];
          pendingLinks := pendingLinks[1..];
          out := out + [LinkLine(link.index, link.destination, link.title)];
          assert Snap() == before.(pending := before.pending[1..], out := before.out + [LinkLine(link.index, link.destination, link.title)]);
          Newline();
          assert Snap() == WriteOneLink(before);
        }
        assert Snap() == drained;
        ResetLastStyle();
      }
    }
  }

  /** `write_event`: returns the failure at which rendering stops, if any. */
  method WriteEvent(ctx: Context, event: Event) returns (failure: Option<Failure>)
    modifies ctx
    ensures ctx.Snap() == TtySpec.WriteEvent(old(ctx.Snap()), event).st
    ensures failure == TtySpec.WriteEvent(old(ctx.Snap()), event).Error()
  {
    failure := None;
    match event
    case SoftBreak => ctx.NewlineAndIndent();
    case HardBreak => ctx.NewlineAndIndent();
    case Text(text) =>
      ctx.out := ctx.out + [Literal(text)];
      ctx.lastText := Some(text);
    case Start(tag) => failure := StartTag(ctx, tag);
    case End(tag) => failure := EndTag(ctx, tag);
    case Html(_) => failure := Some(UnsupportedHtml);
    case InlineHtml(_) => failure := Some(UnsupportedInlineHtml);
    case FootnoteReference(_) => failure := Some(UnsupportedFootnotes);
  }

  /** `start_tag`. */
  method StartTag(ctx: Context, tag: Tag) returns (failure: Option<Failure>)
    modifies ctx
    ensures ctx.Snap() == TtySpec.StartTag(old(ctx.Snap()), tag).st
    ensures failure == TtySpec.StartTag(old(ctx.Snap()), tag).Error()
  {
    failure := None;
    match tag
    case Paragraph => ctx.StartInlineText();
    case Rule => StartRule(ctx);
    case Header(level) => failure := StartHeader(ctx, level);
    case BlockQuote => StartBlockQuote(ctx);
    case CodeBlock(_) =>
      ctx.StartInlineText();
      ctx.EnableStyle(Fg(Yellow));
    case List(start) =>
      ctx.listItemKind := ctx.listItemKind + [FrameOf(start)];
      ctx.Newline();
    case Item => failure := StartItem(ctx);
    case FootnoteDefinition(_) => failure := Some(UnsupportedFootnotes);
    case Table => failure := Some(UnsupportedTables);
    case TableHead => failure := Some(UnsupportedTables);
    case TableRow => failure := Some(UnsupportedTables);
    case TableCell => failure := Some(UnsupportedTables);
    case Emphasis => ctx.EnableEmphasis();
    case Strong => ctx.EnableStyle(Bold);
    case Code => ctx.EnableStyle(Fg(Yellow));
    case Link(_, _) =>
      // Links are rendered when they close.
    case Image(_, _) => failure := Some(UnsupportedImages);
  }

  /** The `Rule` arm of `start_tag`. */
  method StartRule(ctx: Context)
    modifies ctx
    ensures ctx.Snap() == TtySpec.StartTag(old(ctx.Snap()), Rule).st
  {
    ctx.StartInlineText();
    ctx.EnableStyle(Fg(LightBlack));
    ctx.out := ctx.out + [RuleChars(ctx.columns)];
  }

  /** The `Header` arm of `start_tag`. */
  method StartHeader(ctx: Context, level: int) returns (failure: Option<Failure>)
    modifies ctx
    ensures ctx.Snap() == TtySpec.StartTag(old(ctx.Snap()), Header(level)).st
    ensures failure == TtySpec.StartTag(old(ctx.Snap()), Header(level)).Error()
  {
    // Pending links go out first, close to the text that introduced them.
    ctx.WritePendingLinks();
    ctx.StartInlineText();
    if level < 1 {
      return Some(HeaderLevelUnderflow);
    }
    ctx.EnableStyle(Bold);
    ctx.EnableStyle(Fg(Blue));
    ctx.out := ctx.out + [HeaderTicks(level - 1)];
    failure := None;
  }

  /** The `BlockQuote` arm of `start_tag`. */
  method StartBlockQuote(ctx: Context)
    modifies ctx
    ensures ctx.Snap() == TtySpec.StartTag(old(ctx.Snap()), BlockQuote).st
  {
    ctx.indentLevel := ctx.indentLevel + 4;
    ctx.StartInlineText();
    ctx.EnableStyle(Fg(LightBlack));
    ctx.EnableEmphasis();
  }

  /** `end_tag`. */
  method EndTag(ctx: Context, tag: Tag) returns (failure: Option<Failure>)
    modifies ctx
    ensures ctx.Snap() == TtySpec.EndTag(old(ctx.Snap()), tag).st
    ensures failure == TtySpec.EndTag(old(ctx.Snap()), tag).Error()
  {
    failure := None;
    match tag
    case Paragraph => ctx.EndInlineTextWithMargin();
    case Rule =>
      ctx.activeStyles := Pop(ctx.activeStyles);
      ctx.EndInlineTextWithMargin();
    case Header(_) =>
      ctx.activeStyles := Pop(ctx.activeStyles);
      ctx.activeStyles := Pop(ctx.activeStyles);
      ctx.EndInlineTextWithMargin();
    case BlockQuote => failure := EndBlockQuote(ctx);
    case CodeBlock(_) =>
      ctx.ResetLastStyle();
      ctx.EndInlineTextWithMargin();
    case List(_) =>
      ctx.listItemKind := Pop(ctx.listItemKind);
      ctx.EndInlineTextWithMargin();
    case Item => failure := EndItem(ctx);
    case FootnoteDefinition(_) =>
    case Table =>
    case TableHead =>
    case TableRow =>
    case TableCell =>
    case Emphasis => failure := EndEmphasis(ctx);
    case Strong => ctx.ResetLastStyle();
    case Code => ctx.ResetLastStyle();
    case Link(destination, title) => EndLink(ctx, destination, title);
    case Image(_, _) =>
  }

  /** The `BlockQuote` arm of `end_tag`. */
  method EndBlockQuote(ctx: Context) returns (failure: Option<Failure>)
    modifies ctx
    ensures ctx.Snap() == TtySpec.EndTag(old(ctx.Snap()), BlockQuote).st
    ensures failure == TtySpec.EndTag(old(ctx.Snap()), BlockQuote).Error()
  {
    if ctx.indentLevel < 4 {
      return Some(IndentUnderflow);
    }
    ctx.indentLevel := ctx.indentLevel - 4;
    if ctx.emphasisLevel == 0 {
      return Some(EmphasisUnderflow);
    }
    ctx.emphasisLevel := ctx.emphasisLevel - 1;
    ctx.activeStyles := Pop(ctx.activeStyles);
    ctx.ResetLastStyle();
    ctx.EndInlineTextWithMargin();
    failure := None;
  }

  /** The `Emphasis` arm of `end_tag`. */
  method EndEmphasis(ctx: Context) returns (failure: Option<Failure>)
    modifies ctx
    ensures ctx.Snap() == TtySpec.EndTag(old(ctx.Snap()), Emphasis).st
    ensures failure == TtySpec.EndTag(old(ctx.Snap()), Emphasis).Error()
  {
    ctx.ResetLastStyle();
    if ctx.emphasisLevel == 0 {
      return Some(EmphasisUnderflow);
    }
    ctx.emphasisLevel := ctx.emphasisLevel - 1;
    failure := None;
  }

  /** The `Item` arm of `start_tag`. */
  method StartItem(ctx: Context) returns (failure: Option<Failure>)
    modifies ctx
    ensures ctx.Snap() == TtySpec.StartItem(old(ctx.Snap())).st
    ensures failure == TtySpec.StartItem(old(ctx.Snap())).Error()
  {
    failure := None;
    ctx.Indent();
    ctx.blockLevel := Inline;
    if ctx.listItemKind == [] {
      return Some(ListItemWithoutKind);
    }
    var kind := ctx.listItemKind[|ctx.listItemKind| - 1];
    ctx.listItemKind := Pop(ctx.listItemKind);
    match kind
    case Unordered =>
      ctx.out := ctx.out + [Bullet];
      ctx.indentLevel := ctx.indentLevel + 2;
      ctx.listItemKind := ctx.listItemKind + [Unordered];
    case Ordered(number) =>
      ctx.out := ctx.out + [Num(number)];
      ctx.indentLevel := ctx.indentLevel + 4;
      ctx.listItemKind := ctx.listItemKind + [Ordered(number + 1)];
  }

  /** The `Item` arm of `end_tag`. */
  method EndItem(ctx: Context) returns (failure: Option<Failure>)
    modifies ctx
    ensures ctx.Snap() == TtySpec.EndItem(old(ctx.Snap())).st
    ensures failure == TtySpec.EndItem(old(ctx.Snap())).Error()
  {
    failure := None;
    if ctx.listItemKind != [] {
      match ctx.listItemKind[|ctx.listItemKind| - 1]
      case Ordered(_) =>
        if ctx.indentLevel < 4 {
          return Some(IndentUnderflow);
        }
        ctx.indentLevel := ctx.indentLevel - 4;
      case Unordered =>
        if ctx.indentLevel < 2 {
          return Some(IndentUnderflow);
        }
        ctx.indentLevel := ctx.indentLevel - 2;
    }
    ctx.EndInlineTextWithMargin();
  }

  /** The `Link` arm of `end_tag`. */
  method EndLink(ctx: Context, destination: string, title: string)
    modifies ctx
    ensures ctx.Snap() == TtySpec.EndLink(old(ctx.Snap()), destination, title)
  {
    if ctx.lastText != Some(destination) {
      var index := ctx.AddLink(destination, title);
      ctx.EnableStyle(Fg(Blue));
      ctx.out := ctx.out + [RefIdx(index)];
      ctx.ResetLastStyle();
    }
  }

  /** `push_tty`: render `events` on a terminal `columns` wide, then write the
      links still pending. Returns what was written and the failure at which
      rendering stopped, if any. */
  method PushTty(columns: U16, events: seq<Event>) returns (out: seq<Token>, failure: Option<Failure>)
    ensures out == Render(columns, events).st.out
    ensures failure == Render(columns, events).Error()
  {
    var ctx := new Context(columns);
    for i := 0 to |events|
      invariant Run(ctx.Snap(), events[i..]) == Run(Initial(columns), events)
      invariant ctx.columns == columns
    {
      assert events[i..][1..] == events[i + 1..];
      failure := WriteEvent(ctx, events[i]);
      if failure.Some? {
        return ctx.out, failure;
      }
    }
    ctx.WritePendingLinks();
    return ctx.out, None;
  }
}
