/**
 * The `Heading` component used for Markdown headings: the level picks the
 * element h1..h6 and its text size; the element's id is the heading text.
 */
module Heading {
  import opened Wrappers

  datatype Tag = H1 | H2 | H3 | H4 | H5 | H6 | Div

  datatype Element = Element(tag: Tag, id: string, className: string, content: string)

  const Style: string := " font-semibold text-devscribe-text-primary mt-2 mb-2"

  /** The level a heading tag stands for; 0 for a plain `div`. */
  function TagLevel(t: Tag): nat {
    match t
    case H1 => 1 case H2 => 2 case H3 => 3 case H4 => 4 case H5 => 5 case H6 => 6
    case Div => 0
  }

  function TagFor(level: int): (t: Tag)
    ensures 1 <= level <= 6 ==> TagLevel(t) == level
    ensures !(1 <= level <= 6) ==> t == Div
  {
    if level == 1 then H1 else if level == 2 then H2 else if level == 3 then H3
    else if level == 4 then H4 else if level == 5 then H5 else if level == 6 then H6
    else Div
  }

  function SizeClass(level: int): string {
    if level == 1 then "text-3xl" else if level == 2 then "text-2xl" else if level == 3 then "text-xl"
    else if level == 4 then "text-lg" else if level == 5 then "text-base" else if level == 6 then "text-sm"
    else "text-base"
  }

  /** The component as written: its `default` branch builds a `div` but does
      not return it, so any other level renders nothing. */
  function HeadingAsWritten(level: int, children: string): (r: Option<Element>)
    ensures r.Some? <==> 1 <= level <= 6
    ensures r.Some? ==> TagLevel(r.value.tag) == level && r.value.id == children && r.value.content == children
    ensures r.Some? ==> r.value.className == SizeClass(level) + Style
  {
    if 1 <= level <= 6 then Some(Element(TagFor(level), children, SizeClass(level) + Style, children))
    else None
  }

  /** The component with the `default` branch returning its `div`. */
  function Heading(level: int, children: string): (r: Element)
    ensures r.id == children && r.content == children
    ensures 1 <= level <= 6 ==> HeadingAsWritten(level, children) == Some(r)
    ensures !(1 <= level <= 6) ==> r.tag == Div && r.className == "text-base" + Style
  {
    Element(TagFor(level), children, SizeClass(level) + Style, children)
  }

  /** Level 7 (or 0) produces no element at all in the component as written. */
  lemma OutOfRangeLevelRendersNothing()
    ensures HeadingAsWritten(7, "Title") == None
    ensures HeadingAsWritten(0, "Title") == None
    ensures Heading(7, "Title").tag == Div
  {
  }

  /** The size class of each level, from `text-3xl` for level 1 down to
      `text-sm` for level 6. */
  lemma SizesByLevel()
    ensures SizeClass(1) == "text-3xl" && SizeClass(2) == "text-2xl" && SizeClass(3) == "text-xl"
    ensures SizeClass(4) == "text-lg" && SizeClass(5) == "text-base" && SizeClass(6) == "text-sm"
  {
  }
}
