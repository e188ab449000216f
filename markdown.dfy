/** The markdown event vocabulary the renderer consumes.

    The events come from an external parser; the renderer only sees them one
    at a time. `Tree` describes the well-nested streams such a parser
    produces, so that properties of matched start/end pairs can be stated.
 */
module Markdown {

  datatype Option<T> = None | Some(value: T)

  /** The constructs a start or end event delimits. */
  datatype Tag =
    | Paragraph
    | Rule
    | Header(level: int)
    | BlockQuote
    | CodeBlock(info: string)
    | List(start: Option<nat>)        // Some(first number) for an ordered list
    | Item
    | FootnoteDefinition(name: string)
    | Table
    | TableHead
    | TableRow
    | TableCell
    | Emphasis
    | Strong
    | Code
    | Link(destination: string, title: string)
    | Image(destination: string, title: string)

  datatype Event =
    | Start(tag: Tag)
    | End(tag: Tag)
    | Text(text: string)
    | Html(html: string)
    | InlineHtml(html: string)
    | FootnoteReference(name: string)
    | SoftBreak
    | HardBreak

  /** A document as nested constructs; `Events` gives its event stream. */
  datatype Tree = Leaf(event: Event) | Node(tag: Tag, children: seq<Tree>)

  /** Leaves are not tag events, list items sit exactly in lists. */
  predicate WellNested(t: Tree)
    decreases t
  {
    match t
    case Leaf(e) => !e.Start? && !e.End?
    case Node(tag, ch) => ChildrenWellNested(tag.List?, ch)
  }

  /** Every child is well nested, and a child is a list item exactly when
      the parent is a list. */
  predicate ChildrenWellNested(inList: bool, ch: seq<Tree>)
    decreases ch
  {
    forall i :: 0 <= i < |ch| ==> WellNested(ch[i]) && (IsItem(ch[i]) <==> inList)
  }

  predicate IsItem(t: Tree)
  {
    t.Node? && t.tag == Item
  }

  /** The event stream of a tree: a node is its start event, its children's
      events, then its end event. */
  function Events(t: Tree): (r: seq<Event>)
    decreases t
    ensures t.Node? ==> |r| >= 2 && r[0] == Start(t.tag) && r[|r| - 1] == End(t.tag)
  {
    match t
    case Leaf(e) => [e]
    case Node(tag, ch) => [Start(tag)] + EventsOf(ch) + [End(tag)]
  }

  function EventsOf(ch: seq<Tree>): seq<Event>
    decreases ch
  {
    if ch == [] then [] else Events(ch[0]) + EventsOf(ch[1..])
  }
}
