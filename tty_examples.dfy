/** Whole documents rendered by the reference model, token by token. */
module TtyExamples {
  import opened Terminal
  import opened Markdown
  import opened TtySpec

  /** A paragraph is its text and one line break; the initial inline level
      means no blank line comes first. */
  lemma ParagraphRendering()
    ensures Render(80, [Start(Paragraph), Text("hi"), End(Paragraph)]).Ok?
    ensures Render(80, [Start(Paragraph), Text("hi"), End(Paragraph)]).st.out
         == [Literal("hi"), Reset, LineFeed]
  {
  }

  lemma RunCons(s: State, e: Event, rest: seq<Event>)
    ensures Run(s, [e] + rest)
         == (var r := WriteEvent(s, e); if r.Fatal? then r else Run(r.st, rest))
  {
    assert ([e] + rest)[0] == e;
    assert ([e] + rest)[1..] == rest;
  }

  /** Two events at once. */
  lemma RunTwo(s: State, e: Event, f: Event, rest: seq<Event>, mid: State, r: State)
    requires WriteEvent(s, e) == Ok(mid) && WriteEvent(mid, f) == Ok(r)
    ensures Run(s, [e, f] + rest) == Run(r, rest)
  {
    RunCons(mid, f, rest);
    assert [e, f] + rest == [e] + ([f] + rest);
    RunCons(s, e, [f] + rest);
  }

  function Marker(frame: ListItemKind): Token
  {
    if frame.Unordered? then Bullet else Num(frame.number)
  }

  function Next(frame: ListItemKind): ListItemKind
  {
    if frame.Unordered? then Unordered else Ordered(frame.number + 1)
  }

  lemma ItemStartStep(s: State, frame: ListItemKind)
    requires s.indent == 0 && s.lists == [frame]
    ensures WriteEvent(s, Start(Item))
         == Ok(s.(out := s.out + [Spaces(0), Marker(frame)], level := Inline,
                  indent := if frame.Unordered? then 2 else 4, lists := [Next(frame)]))
  {
  }

  lemma ItemEndStep(s: State)
    requires s.styles == [] && s.level == Inline && |s.lists| == 1
    requires s.indent == if s.lists[0].Unordered? then 2 else 4
    ensures WriteEvent(s, End(Item))
         == Ok(s.(out := s.out + [Reset, LineFeed], level := Block, indent := 0))
  {
    assert Newline(s.(indent := 0)) == s.(indent := 0, out := s.out + [Reset, LineFeed]);
  }

  /** An item with text `x` in a list whose only frame is `frame`, at
      indentation 0 and with no styles. */
  lemma ItemSteps(s: State, x: string, frame: ListItemKind, rest: seq<Event>)
    requires s.styles == [] && s.indent == 0 && s.lists == [frame]
    ensures
      Run(s, [Start(Item), Text(x), End(Item)] + rest)
      == Run(s.(out := s.out + [Spaces(0), Marker(frame), Literal(x), Reset, LineFeed],
                level := Block, lists := [Next(frame)], lastText := Some(x)), rest)
  {
    var s1 := s.(out := s.out + [Spaces(0), Marker(frame)], level := Inline,
                 indent := if frame.Unordered? then 2 else 4, lists := [Next(frame)]);
    var s2 := s1.(out := s1.out + [Literal(x)], lastText := Some(x));
    var s3 := s2.(out := s2.out + [Reset, LineFeed], level := Block, indent := 0);
    ItemStartStep(s, frame);
    ItemEndStep(s2);
    RunTwo(s, Start(Item), Text(x), [End(Item)] + rest, s1, s2);
    assert [Start(Item), Text(x), End(Item)] + rest == [Start(Item), Text(x)] + ([End(Item)] + rest);
    RunCons(s2, End(Item), rest);
    assert s3.out == s.out + [Spaces(0), Marker(frame), Literal(x), Reset, LineFeed];
  }

  /** The items "a" and "b" and the end of the list, after its start. */
  lemma ListBody(start: Option<nat>)
    ensures
      var frame := FrameOf(start);
      var s1 := Initial(80).(out := [Reset, LineFeed], lists := [frame]);
      Run(s1, [Start(Item), Text("a"), End(Item), Start(Item), Text("b"), End(Item), End(List(start))])
      == Ok(s1.(out := s1.out + [Spaces(0), Marker(frame), Literal("a"), Reset, LineFeed]
                               + [Spaces(0), Marker(Next(frame)), Literal("b"), Reset, LineFeed],
                level := Block, lists := [], lastText := Some("b")))
  {
    var frame := FrameOf(start);
    var s1 := Initial(80).(out := [Reset, LineFeed], lists := [frame]);
    var tail := [End(List(start))];
    var second := [Start(Item), Text("b"), End(Item)] + tail;
    ItemSteps(s1, "a", frame, second);
    var s4 := s1.(out := s1.out + [Spaces(0), Marker(frame), Literal("a"), Reset, LineFeed],
                  level := Block, lists := [Next(frame)], lastText := Some("a"));
    ItemSteps(s4, "b", Next(frame), tail);
    var s7 := s4.(out := s4.out + [Spaces(0), Marker(Next(frame)), Literal("b"), Reset, LineFeed],
                  lastText := Some("b"), lists := [Next(Next(frame))]);
    RunCons(s7, End(List(start)), []);
    assert [Start(Item), Text("a"), End(Item)] + second
        == [Start(Item), Text("a"), End(Item), Start(Item), Text("b"), End(Item), End(List(start))];
  }

  lemma ListStartStep(start: Option<nat>, body: seq<Event>)
    ensures Run(Initial(80), [Start(List(start))] + body)
         == Run(Initial(80).(out := [Reset, LineFeed], lists := [FrameOf(start)]), body)
  {
    var s0 := Initial(80);
    assert WriteEvent(s0, Start(List(start))) == Ok(s0.(out := [Reset, LineFeed], lists := [FrameOf(start)]));
    RunCons(s0, Start(List(start)), body);
  }

  /** Renders a list of two items "a" and "b". */
  lemma TwoItems(start: Option<nat>)
    ensures
      var events := [Start(List(start)),
                     Start(Item), Text("a"), End(Item),
                     Start(Item), Text("b"), End(Item),
                     End(List(start))];
      Render(80, events).Ok?
      && Render(80, events).st.out
         == [Reset, LineFeed,
             Spaces(0), Marker(FrameOf(start)), Literal("a"), Reset, LineFeed,
             Spaces(0), Marker(Next(FrameOf(start))), Literal("b"), Reset, LineFeed]
  {
    var body := [Start(Item), Text("a"), End(Item), Start(Item), Text("b"), End(Item), End(List(start))];
    ListStartStep(start, body);
    ListBody(start);
    assert [Start(List(start))] + body
        == [Start(List(start)),
            Start(Item), Text("a"), End(Item),
            Start(Item), Text("b"), End(Item),
            End(List(start))];
  }

  /** Two bulleted items: each is indented, marked and closed by a line
      break. */
  lemma BulletListRendering()
    ensures
      var events := [Start(List(None)),
                     Start(Item), Text("a"), End(Item),
                     Start(Item), Text("b"), End(Item),
                     End(List(None))];
      Render(80, events).Ok?
      && Render(80, events).st.out
         == [Reset, LineFeed,
             Spaces(0), Bullet, Literal("a"), Reset, LineFeed,
             Spaces(0), Bullet, Literal("b"), Reset, LineFeed]
  {
    TwoItems(None);
  }

  /** An ordered list starting at 3 numbers its items 3 and 4. */
  lemma OrderedListRendering()
    ensures
      var events := [Start(List(Some(3))),
                     Start(Item), Text("a"), End(Item),
                     Start(Item), Text("b"), End(Item),
                     End(List(Some(3)))];
      Render(80, events).Ok?
      && Render(80, events).st.out
         == [Reset, LineFeed,
             Spaces(0), Num(3), Literal("a"), Reset, LineFeed,
             Spaces(0), Num(4), Literal("b"), Reset, LineFeed]
  {
    TwoItems(Some(3));
  }

  /** A link whose text is its own destination writes only that text. */
  lemma AutolinkRendering()
    ensures
      var events := [Start(Tag.Link("u", "")), Text("u"), End(Tag.Link("u", ""))];
      Render(80, events).Ok? && Render(80, events).st.out == [Literal("u")]
  {
  }

  lemma LinkEvents()
    ensures
      Run(Initial(80), [Start(Tag.Link("u", "t")), Text("site"), End(Tag.Link("u", "t"))])
      == Ok(State(80, [Literal("site"), SetStyle(Fg(Blue)), RefIdx(1), Reset], [], 0, 0, Inline, [],
                  [Link.Link(1, "u", "t")], 2, Some("site")))
  {
    var s0 := Initial(80);
    var s2 := s0.(out := [Literal("site")], lastText := Some("site"));
    RunCons(s2, End(Tag.Link("u", "t")), []);
    RunTwo(s0, Start(Tag.Link("u", "t")), Text("site"), [End(Tag.Link("u", "t"))], s0, s2);
  }

  lemma LinkFlush()
    ensures
      var s3 := State(80, [Literal("site"), SetStyle(Fg(Blue)), RefIdx(1), Reset], [], 0, 0, Inline, [],
                      [Link.Link(1, "u", "t")], 2, Some("site"));
      WritePendingLinks(s3).out
      == s3.out + [Reset, LineFeed, SetStyle(Fg(Blue)),
                   LinkLine(1, "u", "t"), Reset, LineFeed, SetStyle(Fg(Blue)),
                   Reset]
  {
    var s3 := State(80, [Literal("site"), SetStyle(Fg(Blue)), RefIdx(1), Reset], [], 0, 0, Inline, [],
                    [Link.Link(1, "u", "t")], 2, Some("site"));
    var o4 := s3.out + [Reset, LineFeed, SetStyle(Fg(Blue))];
    var s4 := s3.(out := o4, styles := [Fg(Blue)]);
    assert EnableStyle(Newline(s3), Fg(Blue)) == s4;
    var o5 := o4 + [LinkLine(1, "u", "t"), Reset, LineFeed, SetStyle(Fg(Blue))];
    var s5 := s4.(out := o5, pending := []);
    assert WriteOneLink(s4) == s5;
    assert DrainLinks(s4) == s5;
    assert StyleTokens([]) == [];
    assert ResetLastStyle(s5).out == o5 + [Reset];
  }

  /** Any other link writes its text and its index in blue; the reference
      line follows at the end of the document, also in blue. */
  lemma LinkRendering()
    ensures
      var events := [Start(Tag.Link("u", "t")), Text("site"), End(Tag.Link("u", "t"))];
      Render(80, events).Ok?
      && Render(80, events).st.out
         == [Literal("site"), SetStyle(Fg(Blue)), RefIdx(1), Reset,
             Reset, LineFeed, SetStyle(Fg(Blue)),
             LinkLine(1, "u", "t"), Reset, LineFeed, SetStyle(Fg(Blue)),
             Reset]
  {
    LinkEvents();
    LinkFlush();
  }

  /** Tables stop rendering. */
  lemma TableRendering()
    ensures Render(80, [Start(Table)]) == Fatal(UnsupportedTables, Initial(80))
  {
  }
}
