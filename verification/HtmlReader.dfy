/**
 A reader of the preview's HTML that knows nothing about how it was made. `Read`
 goes through an HTML string from left to right and yields what it finds: the
 characters, the elements and the link targets, in order. It
 accepts the string only if every tag is one of the preview's tags, tags are properly
 nested, no element is inside one of its own kind at any depth, every link has a
 safe href, and everything between tags is escaped text.
 */
module HtmlReader {
  import opened Options
  import opened Strings
  import opened Html

  datatype Element = Strong | Em | Code | Link | List | Item | Pre | Quote | H1 | H2 | H3 | Paragraph

  /** What a reader finds: a character, a line break, or the begin or end of an element. */
  datatype Mark = Char(c: char) | Break | Begin(e: Element) | BeginLink(href: string) | End(e: Element)

  function Chars(text: string): (marks: seq<Mark>)
    ensures |marks| == |text|
  {
    seq(|text|, i requires 0 <= i < |text| => Char(text[i]))
  }

  /** The element that a begin mark opens. */
  function Opened(m: Mark): Element { if m.Begin? then m.e else Link }

  /** isSafeHref. */
  predicate IsSafeHref(href: string) {
    "http://" <= href || "https://" <= href || "mailto:" <= href || ("/" <= href && !("//" <= href))
  }

  const LINK_START := "<a href=\""
  const LINK_END := "\"" + " class=\"text-primary underline\" target=\"_blank\" rel=\"noopener\">"

  /** The only element whose opening tag can start with '<' and these two characters. */
  function Candidate(c: char, d: char): Option<Element> {
    if c == 's' then Some(Strong)
    else if c == 'e' then Some(Em)
    else if c == 'c' then Some(Code)
    else if c == 'a' then Some(Link)
    else if c == 'u' then Some(List)
    else if c == 'l' then Some(Item)
    else if c == 'b' then Some(Quote)
    else if c == 'p' then Some(if d == 'r' then Pre else Paragraph)
    else if c == 'h' then if d == '1' then Some(H1) else if d == '2' then Some(H2) else Some(H3)
    else None
  }

  /** The opening tag of every element but Link, whose tag holds the href. */
  function OpenTag(e: Element): (tag: string)
    requires e != Link
    ensures |tag| > 3 && tag[0] == '<' && tag[1] != '/' && Candidate(tag[1], tag[2]) == Some(e)
    ensures !(tag[1] == 'b' && tag[2] == 'r')
  {
    match e
    case Strong => "<strong" + " class=\"font-bold\">"
    case Em => "<em" + " class=\"italic\">"
    case Code => "<code" + " class=\"bg-base-300 px-1 rounded text-sm\">"
    case List => "<ul" + " class=\"ml-4 list-disc\">"
    case Item => "<li>"
    case Pre => "<pre" + " class=\"bg-base-300 px-3 py-2 rounded text-sm overflow-x-auto\"><code>"
    case Quote => "<blockquote" + " class=\"border-l-4 border-primary pl-4 italic\">"
    case H1 => "<h1" + " class=\"text-2xl font-bold mb-3\">"
    case H2 => "<h2" + " class=\"text-xl font-bold mb-2\">"
    case H3 => "<h3" + " class=\"text-lg font-bold mb-2\">"
    case Paragraph => "<p" + " class=\"mb-2\">"
  }

  function CloseTag(e: Element): (tag: string)
    ensures |tag| > 3 && tag[0] == '<' && tag[1] == '/'
  {
    match e
    case Strong => "</strong>"
    case Em => "</em>"
    case Code => "</code>"
    case Link => "</a>"
    case List => "</ul>"
    case Item => "</li>"
    case Pre => "</code></pre>"
    case Quote => "</blockquote>"
    case H1 => "</h1>"
    case H2 => "</h2>"
    case H3 => "</h3>"
    case Paragraph => "</p>"
  }

  /** A link's opening tag: its href, which must be the escaped text of a safe address, and its length. */
  function LinkOpening(html: string): Option<(string, nat)> {
    if !(LINK_START <= html) then None
    else
      match IndexOf(html, "\"", |LINK_START|)
      case None => None
      case Some(quote) =>
        var href := Unescape(html[|LINK_START|..quote]);
        if href.Some? && IsSafeHref(href.value) && StartsWithAt(html, LINK_END, quote) then
          Some((href.value, quote + |LINK_END|))
        else None
  }

  /** The opening tag that stands at the start, and its length. */
  function Opening(html: string): (r: Option<(Mark, nat)>)
    ensures r.Some? ==> 0 < r.value.1 <= |html| && (r.value.0.Begin? || r.value.0.BeginLink?)
  {
    if |html| < 3 then None
    else
      match Candidate(html[1], html[2])
      case None => None
      case Some(Link) => (match LinkOpening(html) case None => None case Some((h, n)) => Some((BeginLink(h), n)))
      case Some(e) => if OpenTag(e) <= html then Some((Begin(e), |OpenTag(e)|)) else None
  }

  function Prepend(marks: seq<Mark>, rest: Option<seq<Mark>>): Option<seq<Mark>> {
    match rest case None => None case Some(t) => Some(marks + t)
  }

  /**
   Reads the rest of a document inside the open elements `stack`, innermost first:
   what a reader of the page finds, or None if the document is not well formed.
   */
  function Read(html: string, stack: seq<Element>): Option<seq<Mark>>
    decreases |html|
  {
    if html == "" then if stack == [] then Some([]) else None
    else if html[0] != '<' then
      if UnitLength(html) == 0 then None
      else Prepend([Char(UnitChar(html))], Read(html[UnitLength(html)..], stack))
    else if |html| > 1 && html[1] == '/' then
      if stack != [] && CloseTag(stack[0]) <= html then
        Prepend([End(stack[0])], Read(html[|CloseTag(stack[0])|..], stack[1..]))
      else None
    else if "<br>" <= html then Prepend([Break], Read(html[4..], stack))
    else
      match Opening(html)
      case None => None
      case Some((m, n)) =>
        if Opened(m) in stack then None else Prepend([m], Read(html[n..], [Opened(m)] + stack))
  }

  // ----- reading the pieces the renderer puts together -----

  lemma SkipPrefix(a: string, b: string)
    ensures a <= a + b && (a + b)[|a|..] == b
  {
  }

  lemma ReadOpen(e: Element, rest: string, stack: seq<Element>)
    requires e != Link && e !in stack
    ensures Read(OpenTag(e) + rest, stack) == Prepend([Begin(e)], Read(rest, [e] + stack))
  {
    var tag := OpenTag(e);
    var html := tag + rest;
    SkipPrefix(tag, rest);
    assert html[0] == tag[0] && html[1] == tag[1] && html[2] == tag[2];
    ReadOpening(html, Begin(e), |tag|, stack);
  }

  /** Reading a tag that is recognised. */
  lemma ReadOpening(html: string, m: Mark, n: nat, stack: seq<Element>)
    requires |html| > 1 && html[0] == '<' && html[1] != '/' && !("<br>" <= html) && Opened(m) !in stack
    requires 0 < n <= |html| && Opening(html) == Some((m, n))
    ensures Read(html, stack) == Prepend([m], Read(html[n..], [Opened(m)] + stack))
  {
  }

  lemma ReadClose(e: Element, rest: string, stack: seq<Element>)
    ensures Read(CloseTag(e) + rest, [e] + stack) == Prepend([End(e)], Read(rest, stack))
  {
    var html := CloseTag(e) + rest;
    SkipPrefix(CloseTag(e), rest);
    assert html[0] == CloseTag(e)[0] && html[1] == CloseTag(e)[1];
    assert ([e] + stack)[1..] == stack;
  }

  lemma ReadBreak(rest: string, stack: seq<Element>)
    ensures Read("<br>" + rest, stack) == Prepend([Break], Read(rest, stack))
  {
    var html := "<br>" + rest;
    SkipPrefix("<br>", rest);
    assert html[0] == '<' && html[1] == 'b';
  }

  lemma PrependConcat(a: seq<Mark>, b: seq<Mark>, rest: Option<seq<Mark>>)
    ensures Prepend(a, Prepend(b, rest)) == Prepend(a + b, rest)
  {
    if rest.Some? { assert a + (b + rest.value) == (a + b) + rest.value; }
  }

  lemma PrependNothing(rest: Option<seq<Mark>>)
    ensures Prepend([], rest) == rest
  {
    if rest.Some? { assert [] + rest.value == rest.value; }
  }

  lemma ReadUnit(c: char, rest: string, stack: seq<Element>)
    ensures Read(EscapeChar(c) + rest, stack) == Prepend([Char(c)], Read(rest, stack))
  {
    UnitOfEscape(c, rest);
  }

  lemma ReadNextUnit(c: char, seen: seq<Mark>, tail: string, rest: Option<seq<Mark>>, stack: seq<Element>)
    requires Read(tail, stack) == Prepend(seen, rest)
    ensures Read(EscapeChar(c) + tail, stack) == Prepend([Char(c)] + seen, rest)
  {
    ReadUnit(c, tail, stack);
    PrependConcat([Char(c)], seen, rest);
  }

  lemma TextSplits(text: string, rest: string)
    requires text != ""
    ensures Escape(text) + rest == EscapeChar(text[0]) + (Escape(text[1..]) + rest)
  {
    Associate(EscapeChar(text[0]), Escape(text[1..]), rest);
  }

  lemma CharsSplit(text: string)
    requires text != ""
    ensures Chars(text) == [Char(text[0])] + Chars(text[1..])
  {
  }

  /** The text reads as its characters, before whatever follows it. */
  ghost predicate TextReads(text: string, rest: string, stack: seq<Element>) {
    Read(Escape(text) + rest, stack) == Prepend(Chars(text), Read(rest, stack))
  }

  lemma NoTextReads(rest: string, stack: seq<Element>)
    ensures TextReads("", rest, stack)
  {
    assert Escape("") + rest == rest;
    PrependNothing(Read(rest, stack));
  }

  lemma MoreTextReads(text: string, rest: string, stack: seq<Element>)
    requires text != "" && TextReads(text[1..], rest, stack)
    ensures TextReads(text, rest, stack)
  {
    ReadNextUnit(text[0], Chars(text[1..]), Escape(text[1..]) + rest, Read(rest, stack), stack);
    TextSplits(text, rest);
    CharsSplit(text);
  }

  lemma {:induction false} EveryTextReads(text: string, rest: string, stack: seq<Element>)
    ensures TextReads(text, rest, stack)
  {
    if text == "" {
      NoTextReads(rest, stack);
    } else {
      EveryTextReads(text[1..], rest, stack);
      MoreTextReads(text, rest, stack);
    }
  }

  lemma ReadText(text: string, rest: string, stack: seq<Element>)
    ensures Read(Escape(text) + rest, stack) == Prepend(Chars(text), Read(rest, stack))
  {
    EveryTextReads(text, rest, stack);
  }

  lemma Regroup(a: string, b: string, c: string, d: string)
    ensures a + b + c + d == a + (b + (c + d))
  {
  }

  /** What stands in an element: its begin, its content and its end. */
  function Within(m: Mark, content: seq<Mark>): seq<Mark> { [m] + content + [End(Opened(m))] }

  lemma PrependWithin(m: Mark, content: seq<Mark>, rest: Option<seq<Mark>>)
    ensures Prepend([m], Prepend(content, Prepend([End(Opened(m))], rest))) == Prepend(Within(m, content), rest)
  {
    PrependConcat(content, [End(Opened(m))], rest);
    PrependConcat([m], content + [End(Opened(m))], rest);
    assert [m] + (content + [End(Opened(m))]) == Within(m, content);
  }

  /** A whole element reads as what its content reads as, inside the element. */
  lemma ReadElement(e: Element, content: string, seen: seq<Mark>, rest: string, stack: seq<Element>)
    requires e != Link && e !in stack
    requires Read(content + (CloseTag(e) + rest), [e] + stack) == Prepend(seen, Read(CloseTag(e) + rest, [e] + stack))
    ensures Read(OpenTag(e) + content + CloseTag(e) + rest, stack) == Prepend(Within(Begin(e), seen), Read(rest, stack))
  {
    Regroup(OpenTag(e), content, CloseTag(e), rest);
    ReadOpen(e, content + (CloseTag(e) + rest), stack);
    ReadClose(e, rest, stack);
    PrependWithin(Begin(e), seen, Read(rest, stack));
  }

  function LinkTag(href: string): string { LINK_START + Escape(href) + LINK_END }

  lemma LinkTagSlices(before: string, middle: string, after: string, rest: string)
    ensures var html := before + middle + after + rest;
            && html == before + (middle + (after + rest))
            && html[|before|..|before| + |middle|] == middle
            && html[|before| + |middle|..|before| + |middle| + |after|] == after
  {
  }

  lemma FirstQuote(html: string, from: nat, quote: nat)
    requires from <= quote < |html| && html[quote] == '"'
    requires forall i :: from <= i < quote ==> html[i] != '"'
    ensures IndexOf(html, "\"", from) == Some(quote)
  {
    assert html[quote..quote + 1] == "\"";
    IndexOfFinds(html, "\"", from, quote);
    IndexOfHits(html, "\"", from);
    var found := IndexOf(html, "\"", from).value;
    assert html[found..found + 1][0] == html[found];
  }

  /** The first quote after `before` is the one that starts `after`. */
  lemma QuoteAfter(before: string, middle: string, after: string, rest: string)
    requires '"' !in middle && after != "" && after[0] == '"'
    ensures IndexOf(before + middle + after + rest, "\"", |before|) == Some(|before| + |middle|)
  {
    var html := before + middle + after + rest;
    assert html[|before| + |middle|] == after[0];
    forall i | |before| <= i < |before| + |middle| ensures html[i] != '"' { assert html[i] == middle[i - |before|]; }
    FirstQuote(html, |before|, |before| + |middle|);
  }

  lemma LinkTagOpens(href: string, rest: string)
    requires IsSafeHref(href)
    ensures LinkOpening(LinkTag(href) + rest) == Some((href, |LinkTag(href)|))
  {
    LinkTagSlices(LINK_START, Escape(href), LINK_END, rest);
    SkipPrefix(LINK_START, Escape(href) + (LINK_END + rest));
    EscapeHasNoQuote(href);
    QuoteAfter(LINK_START, Escape(href), LINK_END, rest);
    UnescapeOfEscape(href);
  }

  lemma LinkOpens(html: string, href: string, n: nat)
    requires LinkOpening(html) == Some((href, n))
    ensures html[0] == '<' && html[1] == 'a' && Opening(html) == Some((BeginLink(href), n)) && !("<br>" <= html)
  {
    assert html[0] == LINK_START[0] && html[1] == LINK_START[1];
  }

  /** A link reads as what its content reads as, inside a link to its href. */
  lemma ReadLink(href: string, content: string, seen: seq<Mark>, rest: string, stack: seq<Element>)
    requires IsSafeHref(href) && Link !in stack
    requires Read(content + (CloseTag(Link) + rest), [Link] + stack)
             == Prepend(seen, Read(CloseTag(Link) + rest, [Link] + stack))
    ensures Read(LinkTag(href) + content + CloseTag(Link) + rest, stack)
            == Prepend(Within(BeginLink(href), seen), Read(rest, stack))
  {
    var tail := content + (CloseTag(Link) + rest);
    var html := LinkTag(href) + tail;
    Regroup(LinkTag(href), content, CloseTag(Link), rest);
    LinkTagOpens(href, tail);
    SkipPrefix(LinkTag(href), tail);
    LinkOpens(html, href, |LinkTag(href)|);
    ReadOpening(html, BeginLink(href), |LinkTag(href)|, stack);
    ReadClose(Link, rest, stack);
    PrependWithin(BeginLink(href), seen, Read(rest, stack));
  }
}
