/** Reference model of the TTY renderer in src/tty.rs.

    `State` holds every field of the rendering context, the output written so
    far included. There is one function per helper and per handler of the
    context; each returns the state after the call. Handlers that can panic
    return `Fatal` with the failure and the state at the moment of the panic.
    The imperative context in module Tty is proved against these functions.
 */
module TtySpec {
  import opened Terminal
  import opened Markdown

  /** The `u16` column count of the terminal. */
  type U16 = n: nat | n < 0x1_0000

  datatype BlockLevel = Block | Inline

  /** One frame of the list-nesting stack: an ordered frame holds the number of
      its next item. */
  datatype ListItemKind = Unordered | Ordered(number: nat)

  /** A deferred link reference. */
  datatype Link = Link(index: nat, destination: string, title: string)

  datatype State = State(
    columns: U16,
    out: seq<Token>,              // everything written so far
    styles: seq<Style>,           // the style stack, bottom first
    emphasis: nat,                // emphasis nesting depth
    indent: nat,                  // indentation in blanks
    level: BlockLevel,
    lists: seq<ListItemKind>,     // the list-nesting stack, outermost first
    pending: seq<Link>,           // the deferral queue, oldest first
    nextIndex: nat,               // the index the next link gets
    lastText: Option<string>)     // the last text written

  /** The reasons rendering stops. */
  datatype Failure =
    | UnsupportedHtml
    | UnsupportedInlineHtml
    | UnsupportedFootnotes
    | UnsupportedTables
    | UnsupportedImages
    | ListItemWithoutKind
    | IndentUnderflow
    | EmphasisUnderflow
    | HeaderLevelUnderflow

  /** The outcome of a handler: the new state, or the failure and the state at
      the moment rendering stopped. */
  datatype Result = Ok(st: State) | Fatal(failure: Failure, st: State)
  {
    function Error(): Option<Failure>
    {
      if Fatal? then Some(failure) else None
    }
  }

  /** `Vec::pop`, ignoring the popped value: popping an empty stack is a no-op. */
  function Pop<T>(xs: seq<T>): seq<T>
  {
    if xs == [] then [] else xs[..|xs| - 1]
  }

  // ---------------------------------------------------------------------
  // The context and its helpers

  /** `Context::new`: nothing written, empty stacks, inline mode, first link
      index 1. */
  function Initial(columns: U16): State
  {
    State(columns, [], [], 0, 0, Inline, [], [], 1, None)
  }

  /** `write!` on the writer. */
  function Write(s: State, toks: seq<Token>): State
  {
    s.(out := s.out + toks)
  }

  /** `flush_styles`: re-emit the whole style stack. */
  function FlushStyles(s: State): State
  {
    Write(s, StyleTokens(s.styles))
  }

  /** `newline`: reset, line feed, then the style stack again. */
  function Newline(s: State): State
  {
    FlushStyles(Write(s, [Reset, LineFeed]))
  }

  /** `indent`: as many blanks as the indentation level. */
  function Indent(s: State): State
  {
    Write(s, [Spaces(s.indent)])
  }

  /** `newline_and_indent`. */
  function NewlineAndIndent(s: State): State
  {
    Indent(Newline(s))
  }

  /** `start_inline_text`. */
  function StartInlineText(s: State): State
  {
    (if s.level == Block then NewlineAndIndent(s) else s).(level := Inline)
  }

  /** `end_inline_text_with_margin`. */
  function EndInlineTextWithMargin(s: State): State
  {
    (if s.level == Inline then Newline(s) else s).(level := Block)
  }

  /** `enable_style`: push the style and write it. */
  function EnableStyle(s: State, style: Style): State
  {
    Write(s.(styles := s.styles + [style]), [SetStyle(style)])
  }

  /** `active_styles.pop()` on its own: nothing is written. */
  function PopStyle(s: State): State
  {
    s.(styles := Pop(s.styles))
  }

  /** `reset_last_style`: pop, reset, and re-emit what is left of the stack. */
  function ResetLastStyle(s: State): State
  {
    FlushStyles(Write(PopStyle(s), [Reset]))
  }

  /** `enable_emphasis`. */
  function EnableEmphasis(s: State): State
  {
    var s1 := s.(emphasis := s.emphasis + 1);
    EnableStyle(s1, if s1.emphasis % 2 == 1 then Italic else NoItalic)
  }

  /** `add_link`: the new state and the index given to the link. */
  function AddLink(s: State, destination: string, title: string): (State, nat)
  {
    (s.(pending := s.pending + [Link.Link(s.nextIndex, destination, title)], nextIndex := s.nextIndex + 1),
     s.nextIndex)
  }

  /** One iteration of the `while let` loop of `write_pending_links`: dequeue
      the oldest link, write its reference line and a line break. */
  function WriteOneLink(s: State): State
    requires s.pending != []
  {
    var link := s.pending[0];
    Newline(Write(s.(pending := s.pending[1..]), [LinkLine(link.index, link.destination, link.title)]))
  }

  /** The `while let` loop of `write_pending_links`. */
  function DrainLinks(s: State): State
    decreases |s.pending|
  {
    if s.pending == [] then s else DrainLinks(WriteOneLink(s))
  }

  /** `write_pending_links`. */
  function WritePendingLinks(s: State): State
  {
    if s.pending == [] then s
    else ResetLastStyle(DrainLinks(EnableStyle(Newline(s), Fg(Blue))))
  }

  // ---------------------------------------------------------------------
  // The handlers

  /** `write_event`. */
  function WriteEvent(s: State, e: Event): Result
  {
    match e
    case SoftBreak => Ok(NewlineAndIndent(s))
    case HardBreak => Ok(NewlineAndIndent(s))
    case Text(text) => Ok(Write(s, [Literal(text)]).(lastText := Some(text)))
    case Start(tag) => StartTag(s, tag)
    case End(tag) => EndTag(s, tag)
    case Html(_) => Fatal(UnsupportedHtml, s)
    case InlineHtml(_) => Fatal(UnsupportedInlineHtml, s)
    case FootnoteReference(_) => Fatal(UnsupportedFootnotes, s)
  }

  /** The frame a `List` start pushes. */
  function FrameOf(start: Option<nat>): ListItemKind
  {
    match start
    case Some(n) => Ordered(n)
    case None => Unordered
  }

  /** `start_tag`. */
  function StartTag(s: State, tag: Tag): Result
  {
    match tag
    case Paragraph => Ok(StartInlineText(s))
    case Rule =>
      Ok(Write(EnableStyle(StartInlineText(s), Fg(LightBlack)), [RuleChars(s.columns)]))
    case Header(level) =>
      var s1 := StartInlineText(WritePendingLinks(s));
      if level < 1 then Fatal(HeaderLevelUnderflow, s1)
      else Ok(Write(EnableStyle(EnableStyle(s1, Bold), Fg(Blue)), [HeaderTicks(level - 1)]))
    case BlockQuote =>
      Ok(EnableEmphasis(EnableStyle(StartInlineText(s.(indent := s.indent + 4)), Fg(LightBlack))))
    case CodeBlock(_) => Ok(EnableStyle(StartInlineText(s), Fg(Yellow)))
    case List(start) => Ok(Newline(s.(lists := s.lists + [FrameOf(start)])))
    case Item => StartItem(s)
    case FootnoteDefinition(_) => Fatal(UnsupportedFootnotes, s)
    case Table => Fatal(UnsupportedTables, s)
    case TableHead => Fatal(UnsupportedTables, s)
    case TableRow => Fatal(UnsupportedTables, s)
    case TableCell => Fatal(UnsupportedTables, s)
    case Emphasis => Ok(EnableEmphasis(s))
    case Strong => Ok(EnableStyle(s, Bold))
    case Code => Ok(EnableStyle(s, Fg(Yellow)))
    case Link(_, _) => Ok(s)
    case Image(_, _) => Fatal(UnsupportedImages, s)
  }

  /** The `Item` arm of `start_tag`: indent, go inline, then write the marker
      of the innermost list and advance its frame. */
  function StartItem(s: State): Result
  {
    var s1 := Indent(s).(level := Inline);
    if s1.lists == [] then Fatal(ListItemWithoutKind, s1)
    else
      match s1.lists[|s1.lists| - 1]
      case Unordered => Ok(Write(s1, [Bullet]).(indent := s1.indent + 2))
      case Ordered(n) =>
        Ok(Write(s1, [Num(n)]).(indent := s1.indent + 4, lists := Pop(s1.lists) + [Ordered(n + 1)]))
  }

  /** `end_tag`. */
  function EndTag(s: State, tag: Tag): Result
  {
    match tag
    case Paragraph => Ok(EndInlineTextWithMargin(s))
    case Rule => Ok(EndInlineTextWithMargin(PopStyle(s)))
    case Header(_) => Ok(EndInlineTextWithMargin(PopStyle(PopStyle(s))))
    case BlockQuote =>
      if s.indent < 4 then Fatal(IndentUnderflow, s)
      else
        var s1 := s.(indent := s.indent - 4);
        if s1.emphasis == 0 then Fatal(EmphasisUnderflow, s1)
        else Ok(EndInlineTextWithMargin(ResetLastStyle(PopStyle(s1.(emphasis := s1.emphasis - 1)))))
    case CodeBlock(_) => Ok(EndInlineTextWithMargin(ResetLastStyle(s)))
    case List(_) => Ok(EndInlineTextWithMargin(s.(lists := Pop(s.lists))))
    case Item => EndItem(s)
    case FootnoteDefinition(_) => Ok(s)
    case Table => Ok(s)
    case TableHead => Ok(s)
    case TableRow => Ok(s)
    case TableCell => Ok(s)
    case Emphasis =>
      var s1 := ResetLastStyle(s);
      if s1.emphasis == 0 then Fatal(EmphasisUnderflow, s1)
      else Ok(s1.(emphasis := s1.emphasis - 1))
    case Strong => Ok(ResetLastStyle(s))
    case Code => Ok(ResetLastStyle(s))
    case Link(destination, title) => Ok(EndLink(s, destination, title))
    case Image(_, _) => Ok(s)
  }

  /** The `Item` arm of `end_tag`: undo the indentation of the innermost
      list's marker, then end the block. */
  function EndItem(s: State): Result
  {
    if s.lists == [] then Ok(EndInlineTextWithMargin(s))
    else
      match s.lists[|s.lists| - 1]
      case Ordered(_) =>
        if s.indent < 4 then Fatal(IndentUnderflow, s)
        else Ok(EndInlineTextWithMargin(s.(indent := s.indent - 4)))
      case Unordered =>
        if s.indent < 2 then Fatal(IndentUnderflow, s)
        else Ok(EndInlineTextWithMargin(s.(indent := s.indent - 2)))
  }

  /** The `Link` arm of `end_tag`: nothing when the last text is the
      destination itself; otherwise queue the link and write its index in
      blue. */
  function EndLink(s: State, destination: string, title: string): State
  {
    if s.lastText == Some(destination) then s
    else
      var (s1, index) := AddLink(s, destination, title);
      var s2 := EnableStyle(s1, Fg(Blue));
      ResetLastStyle(s2.(out := s2.out + [RefIdx(index)]))
  }

  /** The loop of `push_tty`: the events in order, stopping at the first
      failure. */
  function Run(s: State, events: seq<Event>): Result
    decreases |events|
  {
    if events == [] then Ok(s)
    else
      var r := WriteEvent(s, events[0]);
      if r.Fatal? then r else Run(r.st, events[1..])
  }

  /** `push_tty`: render all events from a fresh context, then flush the links
      still queued. */
  function Render(columns: U16, events: seq<Event>): Result
  {
    var r := Run(Initial(columns), events);
    if r.Fatal? then r else Ok(WritePendingLinks(r.st))
  }
}
