/** Every page the markdown preview produces is well formed. */
module MarkdownPages {
  import opened Options
  import opened Strings
  import opened HtmlReader
  import opened MarkdownInline
  import opened MarkdownLaws
  import opened MarkdownBlocks

  // ----- what a block means -----

  function SingleMarks(c: Contribution): seq<Mark> {
    match c
    case Blank => [Break]
    case Heading(level, text) =>
      Within(Begin(if level == 1 then H1 else if level == 2 then H2 else H3), Document(text))
    case QuoteLine(text) => Within(Begin(Quote), Document(text))
    case ListItem(text) => Within(Begin(Item), Document(text))
    case CodeLine(text) => Chars(text)
    case Prose(text) => Within(Begin(Paragraph), Document(text))
  }

  function ItemsMarks(texts: seq<string>): (marks: seq<seq<Mark>>)
    ensures |marks| == |texts|
  {
    seq(|texts|, i requires 0 <= i < |texts| => Within(Begin(Item), Document(texts[i])))
  }

  function LinesMarks(lines: seq<string>): (marks: seq<seq<Mark>>)
    ensures |marks| == |lines|
  {
    seq(|lines|, i requires 0 <= i < |lines| => Chars(lines[i]))
  }

  function BlockMarks(b: Block): seq<Mark> {
    match b
    case Single(c) => SingleMarks(c)
    case Bullets(items) => Within(Begin(List), Join(ItemsMarks(items), []))
    case CodeBlock(lines) => Within(Begin(Pre), Join(LinesMarks(lines), [Char('\n')]))
  }

  function BlocksMarks(blocks: seq<Block>): (marks: seq<seq<Mark>>)
    ensures |marks| == |blocks|
  {
    seq(|blocks|, i requires 0 <= i < |blocks| => BlockMarks(blocks[i]))
  }

  // ----- reading the blocks -----

  lemma PlainStackAllows(text: string, stack: seq<Element>)
    requires Code !in stack && Strong !in stack && Em !in stack && Link !in stack
    ensures Allowed(text, stack)
  {
  }

  /** An element around rendered text. */
  lemma ReadWrapped(e: Element, text: string, rest: string, stack: seq<Element>)
    requires e != Link && e != Code && e != Strong && e != Em && e !in stack
    requires Code !in stack && Strong !in stack && Em !in stack && Link !in stack
    ensures Read((OpenTag(e) + Render(text) + CloseTag(e)) + rest, stack)
            == Prepend(Within(Begin(e), Document(text)), Read(rest, stack))
  {
    PlainStackAllows(text, [e] + stack);
    ReadRender(text, CloseTag(e) + rest, [e] + stack);
    ReadElement(e, Render(text), Document(text), rest, stack);
  }

  lemma ReadSingle(c: Contribution, rest: string)
    ensures Read(SingleHtml(c) + rest, []) == Prepend(SingleMarks(c), Read(rest, []))
  {
    match c
    case Blank => ReadBreak(rest, []);
    case Heading(level, text) => ReadWrapped(HeadingElement(level), text, rest, []);
    case QuoteLine(text) => ReadWrapped(Quote, text, rest, []);
    case ListItem(text) => ReadWrapped(Item, text, rest, []);
    case CodeLine(text) => ReadEscaped(text, rest, []);
    case Prose(text) => ReadWrapped(Paragraph, text, rest, []);
  }

  /** Wherever `html` stands inside `stack`, it reads as `marks`. */
  ghost predicate ReadsAs(html: string, marks: seq<Mark>, stack: seq<Element>) {
    forall rest :: Read(html + rest, stack) == Prepend(marks, Read(rest, stack))
  }

  lemma ReadsHere(html: string, marks: seq<Mark>, stack: seq<Element>, rest: string)
    requires ReadsAs(html, marks, stack)
    ensures Read(html + rest, stack) == Prepend(marks, Read(rest, stack))
  {
  }

  lemma ReadTwo(a: string, marksA: seq<Mark>, b: string, marksB: seq<Mark>, stack: seq<Element>, rest: string)
    requires ReadsAs(a, marksA, stack) && ReadsAs(b, marksB, stack)
    ensures Read((a + b) + rest, stack) == Prepend(marksA + marksB, Read(rest, stack))
  {
    ReadsHere(a, marksA, stack, b + rest);
    ReadsHere(b, marksB, stack, rest);
    Associate(a, b, rest);
    PrependConcat(marksA, marksB, Read(rest, stack));
  }

  lemma ReadsAsConcat(a: string, marksA: seq<Mark>, b: string, marksB: seq<Mark>, stack: seq<Element>)
    requires ReadsAs(a, marksA, stack) && ReadsAs(b, marksB, stack)
    ensures ReadsAs(a + b, marksA + marksB, stack)
  {
    forall rest { ReadTwo(a, marksA, b, marksB, stack, rest); }
  }

  lemma NothingReadsAsNothing(stack: seq<Element>)
    ensures ReadsAs("", [], stack)
  {
    forall rest ensures Read("" + rest, stack) == Prepend([], Read(rest, stack)) {
      assert "" + rest == rest;
      PrependNothing(Read(rest, stack));
    }
  }

  /** Joined parts read as the joined marks. */
  lemma {:induction false} ReadJoin(
    parts: seq<string>, marks: seq<seq<Mark>>, separator: string, between: seq<Mark>, stack: seq<Element>)
    requires |parts| == |marks| && ReadsAs(separator, between, stack)
    requires forall i :: 0 <= i < |parts| ==> ReadsAs(parts[i], marks[i], stack)
    ensures ReadsAs(Join(parts, separator), Join(marks, between), stack)
  {
    var n := |parts| - 1;
    if parts == [] {
      NothingReadsAsNothing(stack);
    } else if n > 0 {
      ReadJoin(parts[..n], marks[..n], separator, between, stack);
      ReadsAsConcat(Join(parts[..n], separator), Join(marks[..n], between), separator, between, stack);
      ReadsAsConcat(Join(parts[..n], separator) + separator, Join(marks[..n], between) + between,
                    parts[n], marks[n], stack);
    }
  }

  lemma NewlineReads(stack: seq<Element>)
    ensures ReadsAs("\n", [Char('\n')], stack)
  {
    forall rest ensures Read("\n" + rest, stack) == Prepend([Char('\n')], Read(rest, stack)) {
      ReadUnit('\n', rest, stack);
    }
  }

  lemma ReadBullets(items: seq<string>, rest: string)
    ensures Read(BlockHtml(Bullets(items)) + rest, []) == Prepend(BlockMarks(Bullets(items)), Read(rest, []))
  {
    forall i | 0 <= i < |items| ensures ReadsAs(ItemsHtml(items)[i], ItemsMarks(items)[i], [List]) {
      forall after { ReadWrapped(Item, items[i], after, [List]); }
    }
    NothingReadsAsNothing([List]);
    ReadJoin(ItemsHtml(items), ItemsMarks(items), "", [], [List]);
    assert [List] + [] == [List];
    ReadElement(List, Join(ItemsHtml(items), ""), Join(ItemsMarks(items), []), rest, []);
  }

  lemma ReadCodeBlock(lines: seq<string>, rest: string)
    ensures Read(BlockHtml(CodeBlock(lines)) + rest, []) == Prepend(BlockMarks(CodeBlock(lines)), Read(rest, []))
  {
    forall i | 0 <= i < |lines| ensures ReadsAs(CodeHtml(lines)[i], LinesMarks(lines)[i], [Pre]) {
      forall after { ReadEscaped(lines[i], after, [Pre]); }
    }
    NewlineReads([Pre]);
    ReadJoin(CodeHtml(lines), LinesMarks(lines), "\n", [Char('\n')], [Pre]);
    assert [Pre] + [] == [Pre];
    ReadElement(Pre, Join(CodeHtml(lines), "\n"), Join(LinesMarks(lines), [Char('\n')]), rest, []);
  }

  lemma ReadBlock(b: Block, rest: string)
    ensures Read(BlockHtml(b) + rest, []) == Prepend(BlockMarks(b), Read(rest, []))
  {
    match b
    case Single(c) => ReadSingle(c, rest);
    case Bullets(items) => ReadBullets(items, rest);
    case CodeBlock(lines) => ReadCodeBlock(lines, rest);
  }

  /**
   For every markdown source the whole preview page is well formed: only the
   preview's tags, properly nested, no element inside one of its own kind, only
   safe hrefs, only escaped text between the tags; and a reader finds in it what
   its blocks mean, one after the other: headings of their level, quotes, lists,
   code and paragraphs.
   */
  lemma PreviewIsWellFormed(markdown: string)
    ensures Read(Preview(markdown), []) == Some(Join(BlocksMarks(Blocks(markdown)), [Char('\n')]))
  {
    var blocks := Blocks(markdown);
    forall i | 0 <= i < |blocks| ensures ReadsAs(BlocksHtml(blocks)[i], BlocksMarks(blocks)[i], []) {
      forall after { ReadBlock(blocks[i], after); }
    }
    NewlineReads([]);
    ReadJoin(BlocksHtml(blocks), BlocksMarks(blocks), "\n", [Char('\n')], []);
    assert Preview(markdown) + "" == Preview(markdown);
    var marks := Join(BlocksMarks(blocks), [Char('\n')]);
    assert marks + [] == marks;
  }
}
