/** Inline rendering of the markdown preview (renderInlineMarkdown in markdown_editor.js). */
module MarkdownInline {
  import opened Options
  import opened Strings
  import opened Html
  import opened HtmlReader

  /** What stands at a position of a text; the fields are the positions of the closing delimiters. */
  datatype Token =
    | StrongSpan(end: nat)
    | EmSpan(end: nat)
    | CodeSpan(end: nat)
    | LinkSpan(closeLabel: nat, closeUrl: nat)
    | Plain

  /** The branch the loop takes at `index`. */
  function TokenAt(text: string, index: nat): (t: Token)
    requires index < |text|
    ensures t.StrongSpan? ==> index + 2 <= t.end <= |text| - 2
    ensures t.EmSpan? || t.CodeSpan? ==> index < t.end < |text|
    ensures t.LinkSpan? ==> index < t.closeLabel && t.closeLabel + 2 <= t.closeUrl < |text|
  {
    var strong := if StartsWithAt(text, "**", index) then IndexOf(text, "**", index + 2) else None;
    var em := if text[index] == '*' then IndexOf(text, "*", index + 1) else None;
    var code := if text[index] == '`' then IndexOf(text, "`", index + 1) else None;
    if strong.Some? then StrongSpan(strong.value)
    else if em.Some? then EmSpan(em.value)
    else if code.Some? then CodeSpan(code.value)
    else if text[index] == '[' then LinkAt(text, index)
    else Plain
  }

  function LinkAt(text: string, index: nat): (t: Token)
    requires index < |text|
    ensures t == Plain
            || (t.LinkSpan? && index < t.closeLabel && t.closeLabel + 2 <= t.closeUrl < |text|
                && IndexOf(text, "]", index + 1) == Some(t.closeLabel))
  {
    match IndexOf(text, "]", index + 1)
    case None => Plain
    case Some(closeLabel) =>
      if !StartsWithAt(text, "(", closeLabel + 1) then Plain
      else
        match IndexOf(text, ")", closeLabel + 2)
        case None => Plain
        case Some(closeUrl) => LinkSpan(closeLabel, closeUrl)
  }

  lemma NoStrongHere(text: string, index: nat)
    requires index < |text| && text[index] != '*'
    ensures !StartsWithAt(text, "**", index)
  {
    if index + 2 <= |text| { assert text[index..index + 2][0] == text[index]; }
  }

  lemma BracketToken(text: string, index: nat)
    requires index < |text| && text[index] == '['
    ensures TokenAt(text, index) == LinkAt(text, index)
  {
    NoStrongHere(text, index);
  }

  /** Where the loop goes on. */
  function Next(index: nat, t: Token): nat {
    match t
    case StrongSpan(end) => end + 2
    case EmSpan(end) => end + 1
    case CodeSpan(end) => end + 1
    case LinkSpan(_, closeUrl) => closeUrl + 1
    case Plain => index + 1
  }

  function Href(text: string, t: Token): string
    requires t.LinkSpan? && t.closeLabel + 2 <= t.closeUrl <= |text|
  {
    Trim(text[t.closeLabel + 2..t.closeUrl])
  }

  function LinkOpenTag(href: string): string { LINK_START + EscapeHtml(href) + LINK_END }

  /** What the loop appends for the token at `index`. */
  function RenderToken(text: string, index: nat, t: Token): string
    requires index < |text| && t == TokenAt(text, index)
    decreases |text|, 0, 0
  {
    match t
    case StrongSpan(end) => OpenTag(Strong) + Render(text[index + 2..end]) + CloseTag(Strong)
    case EmSpan(end) => OpenTag(Em) + Render(text[index + 1..end]) + CloseTag(Em)
    case CodeSpan(end) => OpenTag(Code) + EscapeHtml(text[index + 1..end]) + CloseTag(Code)
    case LinkSpan(closeLabel, closeUrl) =>
      if IsSafeHref(Href(text, t)) then
        LinkOpenTag(Href(text, t)) + Render(text[index + 1..closeLabel]) + CloseTag(Link)
      else EscapeHtml(text[index..closeUrl + 1])
    case Plain => EscapeHtml(text[index..index + 1])
  }

  function RenderFrom(text: string, index: nat): string
    decreases |text|, 1, |text| - index
  {
    if index >= |text| then ""
    else
      var t := TokenAt(text, index);
      RenderToken(text, index, t) + RenderFrom(text, Next(index, t))
  }

  /** renderInlineMarkdown. */
  function Render(text: string): string
    decreases |text|, 2, 0
  {
    RenderFrom(text, 0)
  }

  // ----- what a source text means -----

  /** What a token means: elements, link targets and characters, read off the source. */
  function TokenMarks(text: string, index: nat, t: Token): seq<Mark>
    requires index < |text| && t == TokenAt(text, index)
    decreases |text|, 0, 0
  {
    match t
    case StrongSpan(end) => Within(Begin(Strong), Document(text[index + 2..end]))
    case EmSpan(end) => Within(Begin(Em), Document(text[index + 1..end]))
    case CodeSpan(end) => Within(Begin(Code), Chars(text[index + 1..end]))
    case LinkSpan(closeLabel, closeUrl) =>
      var target := Trim(text[closeLabel + 2..closeUrl]);
      if IsSafeHref(target) then Within(BeginLink(target), Document(text[index + 1..closeLabel]))
      else Chars(text[index..closeUrl + 1])
    case Plain => [Char(text[index])]
  }

  function MarksFrom(text: string, index: nat): seq<Mark>
    decreases |text|, 1, |text| - index
  {
    if index >= |text| then []
    else
      var t := TokenAt(text, index);
      TokenMarks(text, index, t) + MarksFrom(text, Next(index, t))
  }

  /** What a source text means. */
  function Document(text: string): seq<Mark>
    decreases |text|, 2, 0
  {
    MarksFrom(text, 0)
  }

  // ----- the visible text -----

  /** The source text of a token without the markup that took effect. */
  function ShownToken(text: string, index: nat, t: Token): string
    requires index < |text| && t == TokenAt(text, index)
    decreases |text|, 0, 0
  {
    match t
    case StrongSpan(end) => Shown(text[index + 2..end])
    case EmSpan(end) => Shown(text[index + 1..end])
    case CodeSpan(end) => text[index + 1..end]
    case LinkSpan(closeLabel, closeUrl) =>
      if IsSafeHref(Href(text, t)) then Shown(text[index + 1..closeLabel]) else text[index..closeUrl + 1]
    case Plain => text[index..index + 1]
  }

  function ShownFrom(text: string, index: nat): string
    decreases |text|, 1, |text| - index
  {
    if index >= |text| then ""
    else
      var t := TokenAt(text, index);
      ShownToken(text, index, t) + ShownFrom(text, Next(index, t))
  }

  function Shown(text: string): string
    decreases |text|, 2, 0
  {
    ShownFrom(text, 0)
  }
}
