/** What inline rendering guarantees for every source text. */
module MarkdownLaws {
  import opened Options
  import opened Strings
  import opened Html
  import opened HtmlReader
  import opened MarkdownInline

  /** Inside open elements, the delimiters that would nest an element in its own kind cannot occur. */
  ghost predicate Allowed(text: string, stack: seq<Element>) {
    && Code !in stack
    && (Strong in stack ==> Lacks(text, "**"))
    && (Em in stack ==> Lacks(text, "*") && Lacks(text, "**"))
    && (Link in stack ==> Lacks(text, "]"))
  }

  lemma PartLacks(text: string, p: string, a: nat, b: nat)
    requires a <= b <= |text| && Lacks(text, p)
    ensures Lacks(text[a..b], p)
  {
    SliceLacks(text, p, a, b);
  }

  lemma PartAllowed(text: string, a: nat, b: nat, stack: seq<Element>)
    requires a <= b <= |text| && Allowed(text, stack)
    ensures Allowed(text[a..b], stack)
  {
    if Lacks(text, "**") { PartLacks(text, "**", a, b); }
    if Lacks(text, "*") { PartLacks(text, "*", a, b); }
    if Lacks(text, "]") { PartLacks(text, "]", a, b); }
  }

  lemma LacksStars(text: string)
    requires Lacks(text, "*")
    ensures Lacks(text, "**")
  {
    forall i: nat ensures !StartsWithAt(text, "**", i) {
      if StartsWithAt(text, "**", i) {
        assert text[i..i + 2][0] == '*';
        assert text[i..i + 1] == "*";
        assert StartsWithAt(text, "*", i);
      }
    }
  }

  lemma FirstLacks(text: string, p: string, from: nat, end: nat)
    requires p != "" && IndexOf(text, p, from) == Some(end)
    ensures Lacks(text[from..end], p)
  {
    forall i: nat | from <= i && i + |p| <= end ensures !StartsWithAt(text, p, i) {
      if StartsWithAt(text, p, i) { IndexOfFinds(text, p, from, i); }
    }
    SliceLacks(text, p, from, end);
  }

  // ----- reading the rendered text -----

  lemma ReadStrong(text: string, index: nat, end: nat, rest: string, stack: seq<Element>)
    requires index < |text| && TokenAt(text, index) == StrongSpan(end) && Allowed(text, stack)
    ensures Read(RenderToken(text, index, StrongSpan(end)) + rest, stack)
            == Prepend(TokenMarks(text, index, StrongSpan(end)), Read(rest, stack))
    decreases |text|, 0, 0
  {
    var inner := text[index + 2..end];
    assert StartsWithAt(text, "**", index);
    PartAllowed(text, index + 2, end, stack);
    FirstLacks(text, "**", index + 2, end);
    assert Allowed(inner, [Strong] + stack) by { StarsNotInEm(text, index, stack); }
    ReadRender(inner, CloseTag(Strong) + rest, [Strong] + stack);
    ReadElement(Strong, Render(inner), Document(inner), rest, stack);
  }

  lemma StarsNotInEm(text: string, index: nat, stack: seq<Element>)
    requires index < |text| && StartsWithAt(text, "**", index) && Allowed(text, stack)
    ensures Strong !in stack && Em !in stack
  {
  }

  lemma ReadEm(text: string, index: nat, end: nat, rest: string, stack: seq<Element>)
    requires index < |text| && TokenAt(text, index) == EmSpan(end) && Allowed(text, stack)
    ensures Read(RenderToken(text, index, EmSpan(end)) + rest, stack)
            == Prepend(TokenMarks(text, index, EmSpan(end)), Read(rest, stack))
    decreases |text|, 0, 0
  {
    var inner := text[index + 1..end];
    assert text[index..index + 1] == "*";
    assert StartsWithAt(text, "*", index);
    PartAllowed(text, index + 1, end, stack);
    FirstLacks(text, "*", index + 1, end);
    LacksStars(inner);
    assert Allowed(inner, [Em] + stack);
    ReadRender(inner, CloseTag(Em) + rest, [Em] + stack);
    ReadElement(Em, Render(inner), Document(inner), rest, stack);
  }

  lemma ReadCode(text: string, index: nat, end: nat, rest: string, stack: seq<Element>)
    requires index < |text| && TokenAt(text, index) == CodeSpan(end) && Allowed(text, stack)
    ensures Read(RenderToken(text, index, CodeSpan(end)) + rest, stack)
            == Prepend(TokenMarks(text, index, CodeSpan(end)), Read(rest, stack))
  {
    var inner := text[index + 1..end];
    EscapeHtmlIsOnePass(inner);
    ReadText(inner, CloseTag(Code) + rest, [Code] + stack);
    ReadElement(Code, EscapeHtml(inner), Chars(inner), rest, stack);
  }

  /** A safe link is rendered as a link to the trimmed target, and means one. */
  lemma AnchorIs(text: string, index: nat, t: Token)
    requires index < |text| && t.LinkSpan? && TokenAt(text, index) == t && IsSafeHref(Href(text, t))
    ensures var inner, href := text[index + 1..t.closeLabel], Href(text, t);
            && RenderToken(text, index, t) == LinkTag(href) + Render(inner) + CloseTag(Link)
            && TokenMarks(text, index, t) == Within(BeginLink(href), Document(inner))
  {
    EscapeHtmlIsOnePass(Href(text, t));
  }

  /** A safe link: its label holds no "]", so no link is nested in it. */
  lemma ReadAnchor(text: string, index: nat, t: Token, rest: string, stack: seq<Element>)
    requires index < |text| && t.LinkSpan? && TokenAt(text, index) == t && Allowed(text, stack)
    requires IsSafeHref(Href(text, t))
    ensures Read(RenderToken(text, index, t) + rest, stack)
            == Prepend(TokenMarks(text, index, t), Read(rest, stack))
    decreases |text|, 0, 0
  {
    var inner := text[index + 1..t.closeLabel];
    var href := Href(text, t);
    IndexOfHits(text, "]", index + 1);
    PartAllowed(text, index + 1, t.closeLabel, stack);
    FirstLacks(text, "]", index + 1, t.closeLabel);
    assert Allowed(inner, [Link] + stack);
    ReadRender(inner, CloseTag(Link) + rest, [Link] + stack);
    AnchorIs(text, index, t);
    ReadLink(href, Render(inner), Document(inner), rest, stack);
  }

  lemma ReadEscaped(text: string, rest: string, stack: seq<Element>)
    ensures Read(EscapeHtml(text) + rest, stack) == Prepend(Chars(text), Read(rest, stack))
  {
    EscapeHtmlIsOnePass(text);
    ReadText(text, rest, stack);
  }

  /** A link whose address is not safe stays text. */
  lemma RefusedIs(text: string, index: nat, t: Token)
    requires index < |text| && t.LinkSpan? && TokenAt(text, index) == t && !IsSafeHref(Href(text, t))
    ensures RenderToken(text, index, t) == EscapeHtml(text[index..t.closeUrl + 1])
    ensures TokenMarks(text, index, t) == Chars(text[index..t.closeUrl + 1])
  {
  }

  lemma ReadRefused(text: string, index: nat, t: Token, rest: string, stack: seq<Element>)
    requires index < |text| && t.LinkSpan? && TokenAt(text, index) == t && !IsSafeHref(Href(text, t))
    ensures Read(RenderToken(text, index, t) + rest, stack)
            == Prepend(TokenMarks(text, index, t), Read(rest, stack))
  {
    RefusedIs(text, index, t);
    ReadEscaped(text[index..t.closeUrl + 1], rest, stack);
  }

  lemma ReadPlain(text: string, index: nat, rest: string, stack: seq<Element>)
    requires index < |text| && TokenAt(text, index) == Plain
    ensures Read(RenderToken(text, index, Plain) + rest, stack)
            == Prepend(TokenMarks(text, index, Plain), Read(rest, stack))
  {
    ReadEscaped(text[index..index + 1], rest, stack);
    assert Chars(text[index..index + 1]) == [Char(text[index])];
  }

  lemma ReadToken(text: string, index: nat, rest: string, stack: seq<Element>)
    requires index < |text| && Allowed(text, stack)
    ensures var t := TokenAt(text, index);
            Read(RenderToken(text, index, t) + rest, stack) == Prepend(TokenMarks(text, index, t), Read(rest, stack))
    decreases |text|, 1, 0
  {
    var t := TokenAt(text, index);
    match t
    case StrongSpan(end) => ReadStrong(text, index, end, rest, stack);
    case EmSpan(end) => ReadEm(text, index, end, rest, stack);
    case CodeSpan(end) => ReadCode(text, index, end, rest, stack);
    case LinkSpan(_, closeUrl) =>
      if IsSafeHref(Href(text, t)) {
        ReadAnchor(text, index, t, rest, stack);
      } else {
        ReadRefused(text, index, t, rest, stack);
      }
    case Plain => ReadPlain(text, index, rest, stack);
  }

  lemma {:induction false} ReadFrom(text: string, index: nat, rest: string, stack: seq<Element>)
    requires Allowed(text, stack)
    ensures Read(RenderFrom(text, index) + rest, stack) == Prepend(MarksFrom(text, index), Read(rest, stack))
    decreases |text|, 2, |text| - index
  {
    if index >= |text| {
      assert "" + rest == rest;
      PrependNothing(Read(rest, stack));
    } else {
      var t := TokenAt(text, index);
      var tail := RenderFrom(text, Next(index, t));
      assert RenderFrom(text, index) + rest == RenderToken(text, index, t) + (tail + rest);
      ReadToken(text, index, tail + rest, stack);
      ReadFrom(text, Next(index, t), rest, stack);
      PrependConcat(TokenMarks(text, index, t), MarksFrom(text, Next(index, t)), Read(rest, stack));
    }
  }

  /** The rendering of a text reads, inside any elements that allow it, as what the text means. */
  lemma ReadRender(text: string, rest: string, stack: seq<Element>)
    requires Allowed(text, stack)
    ensures Read(Render(text) + rest, stack) == Prepend(Document(text), Read(rest, stack))
    decreases |text|, 3, 0
  {
    ReadFrom(text, 0, rest, stack);
  }

  // ----- the visible text is a subsequence of the source -----

  lemma {:induction false} SubsequenceSkips(sub: string, pre: string, s: string)
    requires Subsequence(sub, s)
    ensures Subsequence(sub, pre + s)
  {
    if pre == "" {
      assert pre + s == s;
    } else {
      assert (pre + s)[1..] == pre[1..] + s;
      SubsequenceSkips(sub, pre[1..], s);
      if sub != "" && sub[0] == pre[0] { SubsequenceTail(sub, pre[1..] + s); }
    }
  }

  lemma {:induction false} SubsequenceTail(sub: string, s: string)
    requires sub != "" && Subsequence(sub, s)
    ensures Subsequence(sub[1..], s)
  {
    if sub[0] == s[0] {
      assert s == [s[0]] + s[1..];
      if sub[1..] != "" {
        if sub[1] == s[0] { SubsequenceTail(sub[1..], s[1..]); }
      }
    } else {
      SubsequenceTail(sub, s[1..]);
      if sub[1..] != "" && sub[1] == s[0] { SubsequenceTail(sub[1..], s[1..]); }
    }
  }

  lemma {:induction false} SubsequenceConcat(a: string, s: string, b: string, t: string)
    requires Subsequence(a, s) && Subsequence(b, t)
    ensures Subsequence(a + b, s + t)
  {
    if a == "" {
      assert a + b == b;
      SubsequenceSkips(b, s, t);
    } else {
      assert (s + t)[1..] == s[1..] + t;
      if a[0] == s[0] {
        assert (a + b)[1..] == a[1..] + b;
        SubsequenceConcat(a[1..], s[1..], b, t);
      } else {
        SubsequenceConcat(a, s[1..], b, t);
      }
    }
  }

  lemma {:induction false} SubsequenceOfItself(s: string)
    ensures Subsequence(s, s)
  {
    if s != "" { SubsequenceOfItself(s[1..]); }
  }

  /** A part of a text is a subsequence of it, and so is what is a subsequence of the part. */
  lemma PartSubsequence(sub: string, text: string, from: nat, a: nat, b: nat, to: nat)
    requires from <= a <= b <= to <= |text| && Subsequence(sub, text[a..b])
    ensures Subsequence(sub, text[from..to])
  {
    SubsequenceSkips(sub, text[from..a], text[a..b]);
    SubsequenceConcat(sub, text[from..a] + text[a..b], "", text[b..to]);
    assert text[from..to] == (text[from..a] + text[a..b]) + text[b..to];
    assert sub + "" == sub;
  }

  lemma {:induction false} ShownFromIsSubsequence(text: string, index: nat)
    requires index <= |text|
    ensures Subsequence(ShownFrom(text, index), text[index..])
    decreases |text|, |text| - index
  {
    if index < |text| {
      var t := TokenAt(text, index);
      var next := Next(index, t);
      match t {
        case StrongSpan(end) =>
          ShownIsSubsequence(text[index + 2..end]);
          PartSubsequence(Shown(text[index + 2..end]), text, index, index + 2, end, next);
        case EmSpan(end) =>
          ShownIsSubsequence(text[index + 1..end]);
          PartSubsequence(Shown(text[index + 1..end]), text, index, index + 1, end, next);
        case CodeSpan(end) =>
          SubsequenceOfItself(text[index + 1..end]);
          PartSubsequence(text[index + 1..end], text, index, index + 1, end, next);
        case LinkSpan(closeLabel, _) =>
          ShownIsSubsequence(text[index + 1..closeLabel]);
          PartSubsequence(Shown(text[index + 1..closeLabel]), text, index, index + 1, closeLabel, next);
          SubsequenceOfItself(text[index..next]);
        case Plain =>
          SubsequenceOfItself(text[index..next]);
      }
      ShownFromIsSubsequence(text, next);
      SubsequenceConcat(ShownToken(text, index, t), text[index..next], ShownFrom(text, next), text[next..]);
      assert text[index..] == text[index..next] + text[next..];
    }
  }

  lemma ShownIsSubsequence(text: string)
    ensures Subsequence(Shown(text), text)
    decreases |text|, |text| + 1
  {
    ShownFromIsSubsequence(text, 0);
    assert text[0..] == text;
  }

  /** A text without opening delimiters is shown as it is. */
  lemma {:induction false} PlainTextIsShown(text: string, index: nat)
    requires index <= |text|
    requires forall i :: 0 <= i < |text| ==> text[i] != '*' && text[i] != '`' && text[i] != '['
    ensures ShownFrom(text, index) == text[index..]
    decreases |text| - index
  {
    if index < |text| {
      NoStrongHere(text, index);
      PlainTextIsShown(text, index + 1);
      assert text[index..] == text[index..index + 1] + text[index + 1..];
    }
  }

  // ----- the characters and the links of a document -----

  /** The characters among the marks. */
  function TextOf(marks: seq<Mark>): string {
    if marks == [] then "" else (if marks[0].Char? then [marks[0].c] else "") + TextOf(marks[1..])
  }

  /** The link targets among the marks. */
  function LinksOf(marks: seq<Mark>): seq<string> {
    if marks == [] then [] else (if marks[0].BeginLink? then [marks[0].href] else []) + LinksOf(marks[1..])
  }

  lemma {:induction false} TextConcat(a: seq<Mark>, b: seq<Mark>)
    ensures TextOf(a + b) == TextOf(a) + TextOf(b)
  {
    if a == [] {
      assert a + b == b;
    } else {
      assert (a + b)[0] == a[0] && (a + b)[1..] == a[1..] + b;
      TextConcat(a[1..], b);
    }
  }

  lemma {:induction false} LinksConcat(a: seq<Mark>, b: seq<Mark>)
    ensures LinksOf(a + b) == LinksOf(a) + LinksOf(b)
  {
    if a == [] {
      assert a + b == b;
    } else {
      assert (a + b)[0] == a[0] && (a + b)[1..] == a[1..] + b;
      LinksConcat(a[1..], b);
    }
  }

  lemma MarksConcat(a: seq<Mark>, b: seq<Mark>)
    ensures TextOf(a + b) == TextOf(a) + TextOf(b) && LinksOf(a + b) == LinksOf(a) + LinksOf(b)
  {
    TextConcat(a, b);
    LinksConcat(a, b);
  }

  lemma {:induction false} MarksOfChars(text: string)
    ensures TextOf(Chars(text)) == text && LinksOf(Chars(text)) == []
  {
    if text != "" {
      assert Chars(text)[1..] == Chars(text[1..]);
      MarksOfChars(text[1..]);
      assert [text[0]] + text[1..] == text;
    }
  }

  lemma MarksWithin(m: Mark, content: seq<Mark>)
    requires m.Begin? || m.BeginLink?
    ensures TextOf(Within(m, content)) == TextOf(content)
    ensures LinksOf(Within(m, content)) == (if m.BeginLink? then [m.href] else []) + LinksOf(content)
  {
    assert [m][1..] == [] && [End(Opened(m))][1..] == [];
    MarksConcat([m], content);
    MarksConcat([m] + content, [End(Opened(m))]);
  }

  function TokenTargets(text: string, index: nat, t: Token): seq<string>
    requires index < |text| && t == TokenAt(text, index)
    decreases |text|, 0, 0
  {
    match t
    case StrongSpan(end) => Targets(text[index + 2..end])
    case EmSpan(end) => Targets(text[index + 1..end])
    case LinkSpan(closeLabel, closeUrl) =>
      var target := Trim(text[closeLabel + 2..closeUrl]);
      if IsSafeHref(target) then [target] + Targets(text[index + 1..closeLabel]) else []
    case _ => []
  }

  function TargetsFrom(text: string, index: nat): seq<string>
    decreases |text|, 1, |text| - index
  {
    if index >= |text| then []
    else
      var t := TokenAt(text, index);
      TokenTargets(text, index, t) + TargetsFrom(text, Next(index, t))
  }

  /** The targets of the links that take effect in a source text, in source order. */
  function Targets(text: string): seq<string>
    decreases |text|, 2, 0
  {
    TargetsFrom(text, 0)
  }

  lemma {:induction false} MarksFromHold(text: string, index: nat)
    ensures TextOf(MarksFrom(text, index)) == ShownFrom(text, index)
    ensures LinksOf(MarksFrom(text, index)) == TargetsFrom(text, index)
    decreases |text|, 2, |text| - index
  {
    if index < |text| {
      var t := TokenAt(text, index);
      TokenMarksHold(text, index, t);
      MarksFromHold(text, Next(index, t));
      MarksConcat(TokenMarks(text, index, t), MarksFrom(text, Next(index, t)));
    }
  }

  lemma DocumentHolds(text: string)
    ensures TextOf(Document(text)) == Shown(text) && LinksOf(Document(text)) == Targets(text)
    decreases |text|, 3, 0
  {
    MarksFromHold(text, 0);
  }

  lemma RefusedShows(text: string, index: nat, t: Token)
    requires index < |text| && t.LinkSpan? && TokenAt(text, index) == t && !IsSafeHref(Href(text, t))
    ensures ShownToken(text, index, t) == text[index..t.closeUrl + 1] && TokenTargets(text, index, t) == []
  {
  }

  lemma RefusedMarksHold(text: string, index: nat, t: Token)
    requires index < |text| && t == TokenAt(text, index) && t.LinkSpan? && !IsSafeHref(Href(text, t))
    ensures TextOf(TokenMarks(text, index, t)) == ShownToken(text, index, t)
    ensures LinksOf(TokenMarks(text, index, t)) == TokenTargets(text, index, t)
  {
    RefusedIs(text, index, t);
    RefusedShows(text, index, t);
    MarksOfChars(text[index..t.closeUrl + 1]);
  }

  lemma LinkMarksHold(text: string, index: nat, t: Token)
    requires index < |text| && t == TokenAt(text, index) && t.LinkSpan?
    ensures TextOf(TokenMarks(text, index, t)) == ShownToken(text, index, t)
    ensures LinksOf(TokenMarks(text, index, t)) == TokenTargets(text, index, t)
    decreases |text|, 0, 0
  {
    if IsSafeHref(Href(text, t)) {
      AnchorIs(text, index, t);
      DocumentHolds(text[index + 1..t.closeLabel]);
      MarksWithin(BeginLink(Href(text, t)), Document(text[index + 1..t.closeLabel]));
    } else {
      RefusedMarksHold(text, index, t);
    }
  }

  lemma TokenMarksHold(text: string, index: nat, t: Token)
    requires index < |text| && t == TokenAt(text, index)
    ensures TextOf(TokenMarks(text, index, t)) == ShownToken(text, index, t)
    ensures LinksOf(TokenMarks(text, index, t)) == TokenTargets(text, index, t)
    decreases |text|, 1, 0
  {
    match t
    case StrongSpan(end) =>
      DocumentHolds(text[index + 2..end]);
      MarksWithin(Begin(Strong), Document(text[index + 2..end]));
    case EmSpan(end) =>
      DocumentHolds(text[index + 1..end]);
      MarksWithin(Begin(Em), Document(text[index + 1..end]));
    case CodeSpan(end) =>
      MarksOfChars(text[index + 1..end]);
      MarksWithin(Begin(Code), Chars(text[index + 1..end]));
    case LinkSpan(_, _) => LinkMarksHold(text, index, t);
    case Plain =>
      assert [Char(text[index])][1..] == [];
      assert text[index..index + 1] == [text[index]];
  }

  /**
   For every source text, the rendered HTML is well formed: only the preview's own
   tags, properly nested, no element inside one of its own kind at any depth, only
   safe hrefs, and only escaped text between the tags. A reader finds in it exactly
   what the source means: its characters are the source without the markup that took
   effect, a subsequence of the source, and its links point to the trimmed targets
   written in the source, in that order.
   */
  lemma InlineIsWellFormed(text: string)
    ensures Read(Render(text), []) == Some(Document(text))
    ensures TextOf(Document(text)) == Shown(text) && Subsequence(Shown(text), text)
    ensures LinksOf(Document(text)) == Targets(text)
  {
    ReadRender(text, "", []);
    assert Render(text) + "" == Render(text);
    assert Document(text) + [] == Document(text);
    ShownIsSubsequence(text);
    DocumentHolds(text);
  }
}
