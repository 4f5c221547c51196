/** Block structure of the markdown preview (renderMarkdownPreview in markdown_editor.js). */
module MarkdownBlocks {
  import opened Options
  import opened Strings
  import opened Html
  import opened HtmlReader
  import opened Decimals
  import Histories
  import opened MarkdownInline

  /** markdown.split('\n'). */
  function Lines(markdown: string): (lines: seq<string>)
    ensures lines != []
  {
    match IndexOf(markdown, "\n", 0)
    case None => [markdown]
    case Some(i) => [markdown[..i]] + Lines(markdown[i + 1..])
  }

  function Join<T>(parts: seq<seq<T>>, separator: seq<T>): seq<T> {
    if parts == [] then []
    else if |parts| == 1 then parts[0]
    else Join(parts[..|parts| - 1], separator) + separator + parts[|parts| - 1]
  }

  /** The number of digits in a row from `index` on. */
  function DigitsFrom(line: string, index: nat): nat
    decreases |line| - index
  {
    if index < |line| && IsDigit(line[index]) then 1 + DigitsFrom(line, index + 1) else 0
  }

  /** The length of an ordered list marker: digits, a dot and a space. */
  function OrderedPrefix(line: string): (r: Option<nat>)
    ensures r.Some? ==> r.value <= |line|
  {
    var n := DigitsFrom(line, 0);
    if n > 0 && StartsWithAt(line, ". ", n) then Some(n + 2) else None
  }

  function HeadingLevel(line: string): (r: Option<nat>)
    ensures r.Some? ==> r.value < |line|
  {
    if "### " <= line then Some(3) else if "## " <= line then Some(2) else if "# " <= line then Some(1) else None
  }

  /** What one line contributes to the page; the fields are source text. */
  datatype Contribution =
    | Blank
    | Heading(level: nat, text: string)
    | QuoteLine(text: string)
    | ListItem(text: string)
    | CodeLine(text: string)
    | Prose(text: string)

  /** The contribution of a line outside a code block. */
  function Classify(line: string): Contribution {
    if Trim(line) == "" then Blank
    else if HeadingLevel(line).Some? then
      Heading(HeadingLevel(line).value, line[HeadingLevel(line).value + 1..])
    else if "> " <= line then QuoteLine(line[2..])
    else if "- " <= line || "* " <= line then ListItem(line[2..])
    else if OrderedPrefix(line).Some? then ListItem(line[OrderedPrefix(line).value..])
    else Prose(line)
  }

  predicate IsFence(line: string) { "```" <= line }

  /** The contributions of the lines, in source order; fence lines contribute nothing. */
  function Contributions(lines: seq<string>, inCode: bool): seq<Contribution> {
    if lines == [] then []
    else if IsFence(lines[0]) then Contributions(lines[1..], !inCode)
    else [if inCode then CodeLine(lines[0]) else Classify(lines[0])] + Contributions(lines[1..], inCode)
  }

  /** A block of the page: one contribution, or a run of list items or of code lines. */
  datatype Block = Single(c: Contribution) | Bullets(items: seq<string>) | CodeBlock(lines: seq<string>)

  function Items(texts: seq<string>): seq<Contribution> {
    seq(|texts|, i requires 0 <= i < |texts| => ListItem(texts[i]))
  }

  function CodeLines(texts: seq<string>): seq<Contribution> {
    seq(|texts|, i requires 0 <= i < |texts| => CodeLine(texts[i]))
  }

  function BlockContributions(b: Block): seq<Contribution> {
    match b
    case Single(c) => [c]
    case Bullets(items) => Items(items)
    case CodeBlock(lines) => CodeLines(lines)
  }

  function Flatten(blocks: seq<Block>): seq<Contribution> {
    if blocks == [] then []
    else
      var last := blocks[|blocks| - 1];
      Flatten(blocks[..|blocks| - 1]) + BlockContributions(last)
  }

  /** The variables of the line loop. */
  datatype Doc = Doc(blocks: seq<Block>, items: seq<string>, code: seq<string>, inCode: bool)

  function FlushList(d: Doc): Doc {
    if d.items == [] then d else d.(blocks := d.blocks + [Bullets(d.items)], items := [])
  }

  function FlushCode(d: Doc): Doc {
    if d.code == [] then d else d.(blocks := d.blocks + [CodeBlock(d.code)], code := [])
  }

  function AddBlock(d: Doc, c: Contribution): Doc {
    var f := FlushList(d);
    f.(blocks := f.blocks + [Single(c)])
  }

  function LineStep(d: Doc, line: string): Doc {
    if IsFence(line) then
      var f := FlushList(d);
      if f.inCode then FlushCode(f).(inCode := false) else f.(inCode := true)
    else if d.inCode then d.(code := d.code + [line])
    else
      var c := Classify(line);
      if c.ListItem? then d.(items := d.items + [c.text]) else AddBlock(d, c)
  }

  function RunLines(lines: seq<string>): Doc {
    if lines == [] then Doc([], [], [], false) else LineStep(RunLines(lines[..|lines| - 1]), lines[|lines| - 1])
  }

  function Finish(d: Doc): seq<Block> { FlushList(if d.inCode then FlushCode(d) else d).blocks }

  function Blocks(markdown: string): seq<Block> { Finish(RunLines(Lines(markdown))) }

  // ----- HTML of the blocks -----

  function ItemHtml(text: string): string { OpenTag(Item) + Render(text) + CloseTag(Item) }

  function HeadingElement(level: nat): Element { if level == 1 then H1 else if level == 2 then H2 else H3 }

  function SingleHtml(c: Contribution): string {
    match c
    case Blank => "<br>"
    case Heading(level, text) => OpenTag(HeadingElement(level)) + Render(text) + CloseTag(HeadingElement(level))
    case QuoteLine(text) => OpenTag(Quote) + Render(text) + CloseTag(Quote)
    case ListItem(text) => ItemHtml(text)
    case CodeLine(text) => EscapeHtml(text)
    case Prose(text) => OpenTag(Paragraph) + Render(text) + CloseTag(Paragraph)
  }

  function ItemsHtml(items: seq<string>): (html: seq<string>)
    ensures |html| == |items|
  {
    seq(|items|, i requires 0 <= i < |items| => ItemHtml(items[i]))
  }

  function CodeHtml(lines: seq<string>): (html: seq<string>)
    ensures |html| == |lines|
  {
    seq(|lines|, i requires 0 <= i < |lines| => EscapeHtml(lines[i]))
  }

  function BlockHtml(b: Block): string {
    match b
    case Single(c) => SingleHtml(c)
    case Bullets(items) => OpenTag(List) + Join(ItemsHtml(items), "") + CloseTag(List)
    case CodeBlock(lines) => OpenTag(Pre) + Join(CodeHtml(lines), "\n") + CloseTag(Pre)
  }

  function BlocksHtml(blocks: seq<Block>): (html: seq<string>)
    ensures |html| == |blocks|
  {
    seq(|blocks|, i requires 0 <= i < |blocks| => BlockHtml(blocks[i]))
  }

  /** renderMarkdownPreview. */
  function Preview(markdown: string): string { Join(BlocksHtml(Blocks(markdown)), "\n") }

  // ----- what a contribution keeps of its line -----

  ghost predicate IsListMarker(marker: string) {
    || marker == "- " || marker == "* "
    || (&& |marker| > 2 && marker[|marker| - 2..] == ". "
        && forall i :: 0 <= i < |marker| - 2 ==> IsDigit(marker[i]))
  }

  lemma {:induction false} DigitsFromAreDigits(line: string, index: nat, i: nat)
    requires index <= i < index + DigitsFrom(line, index)
    ensures i < |line| && IsDigit(line[i])
    decreases |line| - index
  {
    if i > index { DigitsFromAreDigits(line, index + 1, i); }
  }

  lemma OrderedMarker(line: string)
    requires OrderedPrefix(line).Some?
    ensures IsListMarker(line[..OrderedPrefix(line).value])
  {
    var n := DigitsFrom(line, 0);
    var marker := line[..n + 2];
    forall i | 0 <= i < n ensures IsDigit(marker[i]) { DigitsFromAreDigits(line, 0, i); }
    assert marker[n..] == line[n..n + 2];
  }

  lemma PrefixAndRest(prefix: string, line: string)
    requires prefix <= line
    ensures line == prefix + line[|prefix|..]
  {
  }

  function HeadingMarker(level: nat): string { if level == 1 then "# " else if level == 2 then "## " else "### " }

  lemma HeadingKeepsText(line: string)
    requires HeadingLevel(line).Some?
    ensures var level := HeadingLevel(line).value;
            1 <= level <= 3 && line == HeadingMarker(level) + line[level + 1..]
  {
    PrefixAndRest(HeadingMarker(HeadingLevel(line).value), line);
  }

  lemma ListItemKeepsText(line: string)
    requires Classify(line).ListItem?
    ensures exists marker :: IsListMarker(marker) && line == marker + Classify(line).text
  {
    if "- " <= line {
      PrefixAndRest("- ", line);
    } else if "* " <= line {
      PrefixAndRest("* ", line);
    } else {
      OrderedMarker(line);
      PrefixAndRest(line[..OrderedPrefix(line).value], line);
    }
  }

  /** Outside a code block a contribution keeps its line but for the marker that decided its kind. */
  lemma ContributionsKeepTheirText(line: string)
    ensures match Classify(line)
            case Blank => Trim(line) == ""
            case Heading(level, text) => 1 <= level <= 3 && line == HeadingMarker(level) + text
            case QuoteLine(text) => line == "> " + text
            case ListItem(text) => exists marker :: IsListMarker(marker) && line == marker + text
            case Prose(text) => line == text
            case CodeLine(_) => false
  {
    match Classify(line)
    case Heading(_, _) => HeadingKeepsText(line);
    case QuoteLine(_) => PrefixAndRest("> ", line);
    case ListItem(_) => ListItemKeepsText(line);
    case _ =>
  }

  lemma {:induction false} DigitsEndAt(line: string, index: nat, n: nat)
    requires index <= n < |line| && !IsDigit(line[n]) && forall i :: index <= i < n ==> IsDigit(line[i])
    ensures DigitsFrom(line, index) == n - index
    decreases n - index
  {
    if index < n { DigitsEndAt(line, index + 1, n); }
  }

  lemma MarkerIsFound(line: string, marker: string)
    requires IsListMarker(marker) && marker <= line && Trim(line) != ""
    ensures Classify(line).ListItem?
  {
    if marker != "- " && marker != "* " {
      var n := |marker| - 2;
      assert marker[n..] == ". " && line[n..n + 2] == marker[n..];
      assert line[n] == marker[n..][0] == '.';
      forall i | 0 <= i < n ensures IsDigit(line[i]) { assert line[i] == marker[i]; }
      DigitsEndAt(line, 0, n);
      assert IsDigit(line[0]);
    }
  }

  /**
   The markers decide the kind: a line is blank exactly when trimming leaves nothing;
   any other line is a heading, a quote or a list item exactly when it starts with a
   marker of that kind, and prose otherwise.
   */
  lemma MarkersDecideTheKind(line: string)
    ensures Classify(line).Blank? <==> Trim(line) == ""
    ensures Trim(line) != "" ==>
              && (Classify(line).Heading? <==> "# " <= line || "## " <= line || "### " <= line)
              && (Classify(line).QuoteLine? <==> "> " <= line)
              && (Classify(line).ListItem? <==> exists marker :: IsListMarker(marker) && marker <= line)
  {
    if Trim(line) != "" {
      if Classify(line).ListItem? { ListItemKeepsText(line); }
      forall marker | IsListMarker(marker) && marker <= line ensures Classify(line).ListItem? {
        MarkerIsFound(line, marker);
      }
    }
  }

  // ----- nothing is lost or reordered -----

  /** List items are pending only outside a code block, code lines only inside one. */
  predicate DocOk(d: Doc) { (d.inCode ==> d.items == []) && (!d.inCode ==> d.code == []) }

  function Pending(d: Doc): seq<Contribution> { Flatten(d.blocks) + Items(d.items) + CodeLines(d.code) }

  lemma FlattenAppend(blocks: seq<Block>, b: Block)
    ensures Flatten(blocks + [b])
            == Flatten(blocks) + BlockContributions(b)
  {
    assert (blocks + [b])[..|blocks|] == blocks;
  }

  lemma FlushListPending(d: Doc)
    requires d.code == []
    ensures Pending(FlushList(d)) == Pending(d) && FlushList(d).items == [] && FlushList(d).code == []
    ensures Flatten(FlushList(d).blocks) == Pending(d)
  {
    FlattenAppend(d.blocks, Bullets(d.items));
  }

  lemma FlushCodePending(d: Doc)
    requires d.items == []
    ensures Pending(FlushCode(d)) == Pending(d) && FlushCode(d).items == [] && FlushCode(d).code == []
    ensures Flatten(FlushCode(d).blocks) == Pending(d)
  {
    FlattenAppend(d.blocks, CodeBlock(d.code));
  }

  lemma AddBlockPending(d: Doc, c: Contribution)
    requires d.code == []
    ensures Pending(AddBlock(d, c)) == Pending(d) + [c]
    ensures AddBlock(d, c).items == [] && AddBlock(d, c).code == [] && AddBlock(d, c).inCode == d.inCode
  {
    FlushListPending(d);
    FlattenAppend(FlushList(d).blocks, Single(c));
  }

  /** One line adds its contribution at the end, or nothing if it is a fence. */
  lemma LineStepPending(d: Doc, line: string)
    requires DocOk(d)
    ensures DocOk(LineStep(d, line))
    ensures Pending(LineStep(d, line)) == Pending(d) + Contributions([line], d.inCode)
    ensures LineStep(d, line).inCode == (d.inCode != IsFence(line))
  {
    assert [line][1..] == [];
    if IsFence(line) {
      if d.inCode { FlushCodePending(d); } else { FlushListPending(d); }
    } else if d.inCode {
      assert CodeLines(d.code + [line]) == CodeLines(d.code) + [CodeLine(line)];
    } else {
      var c := Classify(line);
      if c.ListItem? {
        assert Items(d.items + [c.text]) == Items(d.items) + [c];
      } else {
        AddBlockPending(d, c);
      }
    }
  }

  lemma {:induction false} ContributionsConcat(a: seq<string>, line: string, inCode: bool)
    ensures Contributions(a + [line], inCode)
            == Contributions(a, inCode) + Contributions([line], inCode != OddFences(a))
  {
    assert [line][1..] == [];
    if a == [] {
      assert a + [line] == [line];
    } else {
      assert (a + [line])[1..] == a[1..] + [line];
      ContributionsConcat(a[1..], line, if IsFence(a[0]) then !inCode else inCode);
    }
  }

  function OddFences(lines: seq<string>): bool {
    if lines == [] then false else IsFence(lines[0]) != OddFences(lines[1..])
  }

  lemma {:induction false} OddFencesConcat(a: seq<string>, line: string)
    ensures OddFences(a + [line]) == (OddFences(a) != IsFence(line))
  {
    assert [line][1..] == [];
    if a == [] {
      assert a + [line] == [line];
    } else {
      assert (a + [line])[1..] == a[1..] + [line];
      OddFencesConcat(a[1..], line);
    }
  }

  /** The state of the line loop holds the contributions of the lines read so far. */
  predicate Tracks(d: Doc, lines: seq<string>) {
    DocOk(d) && Pending(d) == Contributions(lines, false) && d.inCode == OddFences(lines)
  }

  lemma NextLineTracks(d: Doc, lines: seq<string>, line: string)
    requires Tracks(d, lines)
    ensures Tracks(LineStep(d, line), lines + [line])
  {
    LineStepPending(d, line);
    ContributionsConcat(lines, line, false);
    OddFencesConcat(lines, line);
  }

  lemma LastLineTracks(d: Doc, lines: seq<string>)
    requires lines != [] && Tracks(d, lines[..|lines| - 1])
    ensures Tracks(LineStep(d, lines[|lines| - 1]), lines)
  {
    NextLineTracks(d, lines[..|lines| - 1], lines[|lines| - 1]);
    assert lines == lines[..|lines| - 1] + [lines[|lines| - 1]];
  }

  lemma NothingTracked()
    ensures Tracks(RunLines([]), [])
  {
  }

  lemma {:induction false} RunLinesTracks(lines: seq<string>)
    ensures Tracks(RunLines(lines), lines)
  {
    if lines == [] {
      NothingTracked();
    } else {
      var n := |lines| - 1;
      RunLinesTracks(lines[..n]);
      LastLineTracks(RunLines(lines[..n]), lines);
    }
  }

  /**
   Block rendering loses and reorders nothing: the blocks of the page, flattened,
   are exactly the contributions of the non-fence lines in source order.
   */
  lemma NothingIsLostOrReordered(markdown: string)
    ensures Flatten(Blocks(markdown)) == Contributions(Lines(markdown), false)
  {
    var d := RunLines(Lines(markdown));
    RunLinesTracks(Lines(markdown));
    if d.inCode {
      FlushCodePending(d);
      FlushListPending(FlushCode(d));
    } else {
      FlushListPending(d);
    }
  }

  predicate AllItems(run: seq<string>) {
    forall i :: 0 <= i < |run| ==> !IsFence(run[i]) && Classify(run[i]).ListItem?
  }

  predicate NoFence(run: seq<string>) { forall i :: 0 <= i < |run| ==> !IsFence(run[i]) }

  /** No block was emitted between `d` and `e`; the lines read in between are all pending. */
  predicate Collects(d: Doc, run: seq<string>, e: Doc) {
    && e.blocks == d.blocks && e.inCode == d.inCode
    && (if d.inCode then e.code == d.code + run else |e.items| == |d.items| + |run|)
  }

  lemma NextIsCollected(d: Doc, line: string)
    requires !IsFence(line) && (!d.inCode ==> Classify(line).ListItem?)
    ensures Collects(d, [line], LineStep(d, line))
  {
  }

  lemma CollectsMore(d: Doc, run: seq<string>, e: Doc, line: string, f: Doc)
    requires Collects(d, run, e) && Collects(e, [line], f)
    ensures Collects(d, run + [line], f)
  {
  }

  lemma RunLinesLast(lines: seq<string>, line: string)
    ensures RunLines(lines + [line]) == LineStep(RunLines(lines), line)
  {
    assert (lines + [line])[..|lines|] == lines;
  }

  lemma {:induction false} RunIsCollected(lines: seq<string>, run: seq<string>)
    requires if RunLines(lines).inCode then NoFence(run) else AllItems(run)
    ensures Collects(RunLines(lines), run, RunLines(lines + run))
    decreases |run|
  {
    if run == [] {
      assert lines + run == lines;
    } else {
      var n := |run| - 1;
      RunIsCollected(lines, run[..n]);
      Histories.SplitLast(lines, run);
      RunLinesLast(lines + run[..n], run[n]);
      NextIsCollected(RunLines(lines + run[..n]), run[n]);
      assert run == run[..n] + [run[n]];
      CollectsMore(RunLines(lines), run[..n], RunLines(lines + run[..n]), run[n], RunLines(lines + run));
    }
  }

  /**
   Runs stay together: list items in a row outside a code block, and all lines
   inside one, are collected without a block being emitted between them.
   */
  lemma RunsStayTogether(lines: seq<string>, run: seq<string>)
    requires if OddFences(lines) then NoFence(run) else AllItems(run)
    ensures RunLines(lines + run).blocks == RunLines(lines).blocks
    ensures RunLines(lines + run).inCode == RunLines(lines).inCode
    ensures OddFences(lines) ==> RunLines(lines + run).code == RunLines(lines).code + run
    ensures !OddFences(lines) ==>
              |RunLines(lines + run).items| == |RunLines(lines).items| + |run|
  {
    RunLinesTracks(lines);
    RunIsCollected(lines, run);
  }

  /** Inside a code block no list item is pending, outside one no code line is. */
  lemma {:induction false} PendingLinesFitTheMode(lines: seq<string>)
    ensures RunLines(lines).inCode ==> RunLines(lines).items == []
    ensures !RunLines(lines).inCode ==> RunLines(lines).code == []
  {
    RunLinesTracks(lines);
  }
}
