/** Output vocabulary of the TTY renderer.

    The renderer writes interleaved text, style escape sequences and layout
    whitespace. The escape bytes themselves belong to the terminal styling
    library, so each one is an opaque token here; `Effective` gives the
    meaning of a token stream to a terminal: which styles are in force after it.
 */
module Terminal {

  /** Foreground colours the renderer asks for. */
  datatype Color = LightBlack | Blue | Yellow

  /** Style directives the renderer asks for (everything but `Reset`). */
  datatype Style = Bold | Italic | NoItalic | Fg(color: Color)

  /** One unit of output. */
  datatype Token =
    | Literal(text: string)           // text written verbatim
    | SetStyle(style: Style)          // the escape sequence of a style
    | Reset                           // the escape sequence clearing all styles
    | LineFeed                        // "\n"
    | Spaces(count: nat)              // `count` blanks of indentation
    | Bullet                          // the unordered item marker and one blank
    | Num(number: nat)                // `number` right-aligned to width 2, then ". "
    | RefIdx(index: nat)              // an inline link reference "[index]"
    | RuleChars(count: nat)           // `count` horizontal box-drawing characters
    | HeaderTicks(count: nat)         // `count` dashed box-drawing characters
    | LinkLine(index: nat, destination: string, title: string)  // "[index]: destination title"

  /** The escape sequences of `styles`, concatenated in push order. */
  function StyleTokens(styles: seq<Style>): seq<Token>
  {
    seq(|styles|, i requires 0 <= i < |styles| => SetStyle(styles[i]))
  }

  /** The styles a terminal shows after receiving `toks`: every style set since
      the last reset, in the order they were set. */
  function Effective(toks: seq<Token>): seq<Style>
  {
    if toks == [] then []
    else
      var init := toks[..|toks| - 1];
      match toks[|toks| - 1]
      case Reset => []
      case SetStyle(st) => Effective(init) + [st]
      case _ => Effective(init)
  }

  /** Writing a run of style directives adds exactly those styles, in order. */
  lemma {:induction false} EffectiveAfterStyles(toks: seq<Token>, styles: seq<Style>)
    ensures Effective(toks + StyleTokens(styles)) == Effective(toks) + styles
    decreases |styles|
  {
    if styles == [] {
      assert toks + StyleTokens(styles) == toks;
    } else {
      var init := styles[..|styles| - 1];
      var last := styles[|styles| - 1];
      assert StyleTokens(styles) == StyleTokens(init) + [SetStyle(last)];
      assert toks + StyleTokens(styles) == (toks + StyleTokens(init)) + [SetStyle(last)];
      EffectiveAfterStyles(toks, init);
      assert init + [last] == styles;
    }
  }

  /** A reset, a line feed and a re-emission of `styles` leave exactly `styles`
      in force, whatever was in force before. */
  lemma ReflushEffective(toks: seq<Token>, styles: seq<Style>)
    ensures Effective(toks + [Reset, LineFeed] + StyleTokens(styles)) == styles
  {
    var pre := toks + [Reset, LineFeed];
    assert pre[..|pre| - 1] == toks + [Reset];
    assert Effective(pre) == [];
    EffectiveAfterStyles(pre, styles);
  }
}
