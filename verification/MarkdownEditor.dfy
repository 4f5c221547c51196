/** The loops of markdown_editor.js, proved against the specification functions. */
module MarkdownEditor {
  import opened Options
  import opened Strings
  import opened Html
  import opened HtmlReader
  import opened MarkdownInline
  import opened MarkdownBlocks
  import opened Decimals

  /** The body of the inline loop: what it appends at `index`, and where it goes on. */
  method RenderAt(text: string, index: nat) returns (piece: string, next: nat)
    requires index < |text|
    ensures piece == RenderToken(text, index, TokenAt(text, index))
    ensures next == Next(index, TokenAt(text, index))
    decreases |text|, 1
  {
    if StartsWithAt(text, "**", index) {
      var end := IndexOf(text, "**", index + 2);
      if end.Some? {
        var content := RenderInlineMarkdown(text[index + 2..end.value]);
        return OpenTag(Strong) + content + CloseTag(Strong), end.value + 2;
      }
    }
    if text[index] == '*' {
      var end := IndexOf(text, "*", index + 1);
      if end.Some? {
        var content := RenderInlineMarkdown(text[index + 1..end.value]);
        return OpenTag(Em) + content + CloseTag(Em), end.value + 1;
      }
    }
    if text[index] == '`' {
      var end := IndexOf(text, "`", index + 1);
      if end.Some? {
        return OpenTag(Code) + EscapeHtml(text[index + 1..end.value]) + CloseTag(Code), end.value + 1;
      }
    }
    if text[index] == '[' {
      piece, next := RenderLinkAt(text, index);
      return;
    }
    return EscapeHtml(text[index..index + 1]), index + 1;
  }

  /** The branch for "[": a safe link, an unsafe one, or a plain bracket. */
  method RenderLinkAt(text: string, index: nat) returns (piece: string, next: nat)
    requires index < |text| && text[index] == '['
    ensures piece == RenderToken(text, index, TokenAt(text, index))
    ensures next == Next(index, TokenAt(text, index))
    decreases |text|, 0
  {
    BracketToken(text, index);
    var closeLabel := IndexOf(text, "]", index + 1);
    if closeLabel.Some? && StartsWithAt(text, "(", closeLabel.value + 1) {
      var closeUrl := IndexOf(text, ")", closeLabel.value + 2);
      if closeUrl.Some? {
        var href := Trim(text[closeLabel.value + 2..closeUrl.value]);
        if IsSafeHref(href) {
          var anchor := RenderInlineMarkdown(text[index + 1..closeLabel.value]);
          return LinkOpenTag(href) + anchor + CloseTag(Link), closeUrl.value + 1;
        }
        return EscapeHtml(text[index..closeUrl.value + 1]), closeUrl.value + 1;
      }
    }
    return EscapeHtml(text[index..index + 1]), index + 1;
  }

  /** renderInlineMarkdown. */
  method RenderInlineMarkdown(text: string) returns (output: string)
    ensures output == Render(text)
    decreases |text|, 2
  {
    output := "";
    var index := 0;
    while index < |text|
      invariant index <= |text|
      invariant output + RenderFrom(text, index) == Render(text)
    {
      var piece, next := RenderAt(text, index);
      assert (output + piece) + RenderFrom(text, next) == output + (piece + RenderFrom(text, next));
      output, index := output + piece, next;
    }
    assert output + "" == output;
  }

  /** orderedListPrefixLength: the digits at the start of the line, then ". ". */
  method OrderedListPrefixLength(line: string) returns (length: Option<nat>)
    ensures length == OrderedPrefix(line)
    ensures length.Some? <==>
            exists n: nat :: 0 < n && StartsWithAt(line, ". ", n) && forall i :: 0 <= i < n ==> IsDigit(line[i])
    ensures length.Some? ==> length.value >= 3 && line[length.value - 2] == '.'
  {
    var index := 0;
    while index < |line| && IsDigit(line[index])
      invariant index <= |line|
      invariant forall i :: 0 <= i < index ==> IsDigit(line[i])
      invariant index + DigitsFrom(line, index) == DigitsFrom(line, 0)
    {
      index := index + 1;
    }
    if index == 0 || !StartsWithAt(line, ". ", index) {
      forall n: nat | 0 < n && StartsWithAt(line, ". ", n) ensures exists i :: 0 <= i < n && !IsDigit(line[i]) {
        assert line[n..n + 2][0] == line[n];
        assert n != index && !IsDigit(line[index]);
      }
      return None;
    }
    assert line[index..index + 2][0] == line[index];
    return Some(index + 2);
  }

  /** The state of the line loop holds the markup of what the specification keeps as source text. */
  ghost predicate Shows(
    d: Doc, blocks: seq<string>, listItems: seq<string>, codeLines: seq<string>, inCodeBlock: bool) {
    && blocks == BlocksHtml(d.blocks)
    && listItems == ItemsHtml(d.items)
    && codeLines == CodeHtml(d.code)
    && inCodeBlock == d.inCode
  }

  method FlushedList(blocks: seq<string>, listItems: seq<string>, ghost d: Doc) returns (flushed: seq<string>)
    requires blocks == BlocksHtml(d.blocks) && listItems == ItemsHtml(d.items)
    ensures flushed == BlocksHtml(FlushList(d).blocks)
  {
    if |listItems| == 0 { return blocks; }
    flushed := blocks + [OpenTag(List) + Join(listItems, "") + CloseTag(List)];
  }

  method FlushedCodeBlock(blocks: seq<string>, codeLines: seq<string>, ghost d: Doc) returns (flushed: seq<string>)
    requires blocks == BlocksHtml(d.blocks) && codeLines == CodeHtml(d.code)
    ensures flushed == BlocksHtml(FlushCode(d).blocks)
  {
    if |codeLines| == 0 { return blocks; }
    flushed := blocks + [OpenTag(Pre) + Join(codeLines, "\n") + CloseTag(Pre)];
  }

  /** An element around the inline markup of some text. */
  method RenderWithin(element: Element, text: string) returns (html: string)
    requires element != Link
    ensures html == OpenTag(element) + Render(text) + CloseTag(element)
  {
    var content := RenderInlineMarkdown(text);
    html := OpenTag(element) + content + CloseTag(element);
  }

  /** A list item, if the line is one. */
  method RenderListItem(line: string) returns (item: Option<string>)
    requires Trim(line) != "" && HeadingLevel(line).None? && !("> " <= line)
    ensures item.Some? == Classify(line).ListItem?
    ensures item.Some? ==> item.value == ItemHtml(Classify(line).text)
  {
    if "- " <= line || "* " <= line {
      var html := RenderWithin(Item, line[2..]);
      return Some(html);
    }
    var orderedPrefixLength := OrderedListPrefixLength(line);
    if orderedPrefixLength.None? { return None; }
    var html := RenderWithin(Item, line[orderedPrefixLength.value..]);
    return Some(html);
  }

  method RenderHeading(line: string) returns (html: string)
    requires Trim(line) != "" && HeadingLevel(line).Some?
    ensures Classify(line).Heading? && html == SingleHtml(Classify(line))
  {
    var level := HeadingLevel(line).value;
    html := RenderWithin(HeadingElement(level), line[level + 1..]);
  }

  /** The markup of a quote or a paragraph. */
  method RenderProse(line: string) returns (html: string)
    requires Classify(line).QuoteLine? || Classify(line).Prose?
    ensures html == SingleHtml(Classify(line))
  {
    if "> " <= line {
      html := RenderWithin(Quote, line[2..]);
    } else {
      html := RenderWithin(Paragraph, line);
    }
  }

  /** The markup of a line outside a code block, and whether it is a list item. */
  method RenderTextLine(line: string) returns (isItem: bool, html: string)
    ensures isItem == Classify(line).ListItem?
    ensures html == SingleHtml(Classify(line))
  {
    isItem := false;
    if Trim(line) == "" { return false, "<br>"; }
    if HeadingLevel(line).Some? {
      html := RenderHeading(line);
      return;
    }
    if !("> " <= line) {
      var item := RenderListItem(line);
      if item.Some? { return true, item.value; }
    }
    html := RenderProse(line);
  }

  /** The body of the line loop. */
  method RenderLine(
      line: string, blocks: seq<string>, listItems: seq<string>, codeLines: seq<string>, inCodeBlock: bool,
      ghost d: Doc)
    returns (blocks': seq<string>, listItems': seq<string>, codeLines': seq<string>, inCodeBlock': bool)
    requires Shows(d, blocks, listItems, codeLines, inCodeBlock)
    ensures Shows(LineStep(d, line), blocks', listItems', codeLines', inCodeBlock')
  {
    blocks', listItems', codeLines', inCodeBlock' := blocks, listItems, codeLines, inCodeBlock;
    if IsFence(line) {
      blocks' := FlushedList(blocks, listItems, d);
      listItems' := [];
      if inCodeBlock {
        blocks' := FlushedCodeBlock(blocks', codeLines, FlushList(d));
        codeLines' := [];
      }
      inCodeBlock' := !inCodeBlock;
    } else if inCodeBlock {
      codeLines' := codeLines + [EscapeHtml(line)];
    } else {
      var isItem, piece := RenderTextLine(line);
      if isItem {
        listItems' := listItems + [piece];
      } else {
        blocks' := FlushedList(blocks, listItems, d);
        blocks', listItems' := blocks' + [piece], [];
      }
    }
  }

  /** renderMarkdownPreview. */
  method RenderMarkdownPreview(markdown: string) returns (html: string)
    ensures html == Preview(markdown)
  {
    var blocks: seq<string>, listItems: seq<string>, codeLines: seq<string>, inCodeBlock := [], [], [], false;
    var lines := Lines(markdown);
    for k := 0 to |lines|
      invariant Shows(RunLines(lines[..k]), blocks, listItems, codeLines, inCodeBlock)
    {
      assert lines[..k + 1][..k] == lines[..k];
      blocks, listItems, codeLines, inCodeBlock :=
        RenderLine(lines[k], blocks, listItems, codeLines, inCodeBlock, RunLines(lines[..k]));
    }
    ghost var d := RunLines(lines);
    assert lines[..|lines|] == lines;
    if inCodeBlock {
      blocks := FlushedCodeBlock(blocks, codeLines, d);
    }
    blocks := FlushedList(blocks, listItems, if d.inCode then FlushCode(d) else d);
    return Join(blocks, "\n");
  }
}
