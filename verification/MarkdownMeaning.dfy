/** The markup of a source text, told without reference to how it is searched for. */
module MarkdownMeaning {
  import opened Options
  import opened Strings
  import opened HtmlReader
  import opened MarkdownInline
  import opened MarkdownLaws

  // ----- delimiters -----

  ghost predicate NoneFrom(text: string, p: string, from: nat) {
    forall i: nat :: from <= i ==> !StartsWithAt(text, p, i)
  }

  /** `at` is the first occurrence at or after `from`. */
  ghost predicate FirstAt(text: string, p: string, from: nat, at: nat) {
    from <= at && StartsWithAt(text, p, at) && forall i: nat :: from <= i < at ==> !StartsWithAt(text, p, i)
  }

  lemma IndexOfIsFirst(text: string, p: string, from: nat)
    requires p != ""
    ensures match IndexOf(text, p, from)
            case None => NoneFrom(text, p, from)
            case Some(at) => FirstAt(text, p, from, at)
  {
    match IndexOf(text, p, from)
    case None =>
      forall i: nat | from <= i ensures !StartsWithAt(text, p, i) {
        if StartsWithAt(text, p, i) { IndexOfFinds(text, p, from, i); }
      }
    case Some(at) =>
      IndexOfHits(text, p, from);
      forall i: nat | from <= i < at ensures !StartsWithAt(text, p, i) {
        if StartsWithAt(text, p, i) { IndexOfFinds(text, p, from, i); }
      }
  }

  lemma FirstIsIndexOf(text: string, p: string, from: nat, at: nat)
    requires p != "" && FirstAt(text, p, from, at)
    ensures IndexOf(text, p, from) == Some(at)
  {
    IndexOfFinds(text, p, from, at);
    IndexOfIsFirst(text, p, from);
  }

  /** The label and the target of a link at `index` end at the nearest "]" and, right after "(", the nearest ")". */
  ghost predicate LinkAtIs(text: string, index: nat, closeLabel: nat, closeUrl: nat) {
    && FirstAt(text, "]", index + 1, closeLabel)
    && StartsWithAt(text, "(", closeLabel + 1)
    && FirstAt(text, ")", closeLabel + 2, closeUrl)
  }

  lemma LinkIsFound(text: string, index: nat, l: nat, u: nat)
    requires index < |text| && LinkAtIs(text, index, l, u)
    ensures LinkAt(text, index) == LinkSpan(l, u)
  {
    FirstIsIndexOf(text, "]", index + 1, l);
    FirstIsIndexOf(text, ")", l + 2, u);
  }

  lemma LinkEndsAtTheNearest(text: string, index: nat)
    requires index < |text|
    ensures match LinkAt(text, index)
            case LinkSpan(closeLabel, closeUrl) => LinkAtIs(text, index, closeLabel, closeUrl)
            case _ => forall l: nat, u: nat :: !LinkAtIs(text, index, l, u)
  {
    IndexOfIsFirst(text, "]", index + 1);
    var closeLabel := IndexOf(text, "]", index + 1);
    if closeLabel.Some? { IndexOfIsFirst(text, ")", closeLabel.value + 2); }
    forall l: nat, u: nat | LinkAtIs(text, index, l, u) ensures LinkAt(text, index) == LinkSpan(l, u) {
      LinkIsFound(text, index, l, u);
    }
  }

  /** Every span ends at the nearest closing delimiter, and a character is plain only if it opens no span. */
  lemma SpansEndAtTheNearestDelimiter(text: string, index: nat)
    requires index < |text|
    ensures match TokenAt(text, index)
            case StrongSpan(end) => StartsWithAt(text, "**", index) && FirstAt(text, "**", index + 2, end)
            case EmSpan(end) =>
              && text[index] == '*' && FirstAt(text, "*", index + 1, end)
              && (StartsWithAt(text, "**", index) ==> NoneFrom(text, "**", index + 2))
            case CodeSpan(end) => text[index] == '`' && FirstAt(text, "`", index + 1, end)
            case LinkSpan(closeLabel, closeUrl) => text[index] == '[' && LinkAtIs(text, index, closeLabel, closeUrl)
            case Plain =>
              && (text[index] == '*' ==> NoneFrom(text, "*", index + 1))
              && (text[index] == '`' ==> NoneFrom(text, "`", index + 1))
              && (text[index] == '[' ==> forall l: nat, u: nat :: !LinkAtIs(text, index, l, u))
  {
    IndexOfIsFirst(text, "**", index + 2);
    IndexOfIsFirst(text, "*", index + 1);
    IndexOfIsFirst(text, "`", index + 1);
    if text[index] == '[' {
      BracketToken(text, index);
      LinkEndsAtTheNearest(text, index);
    } else if text[index] != '*' {
      NoStrongHere(text, index);
    }
  }

  // ----- safe addresses -----

  /** What stands before the first colon, if there is one. */
  function Scheme(href: string): Option<string> {
    match IndexOf(href, ":", 0)
    case None => None
    case Some(colon) => Some(href[..colon])
  }

  lemma SchemeIs(href: string, scheme: string, rest: string)
    requires href == scheme + ":" + rest && ':' !in scheme
    ensures Scheme(href) == Some(scheme) && href[|scheme| + 1..] == rest
  {
    assert href[|scheme|] == ':' && href[0..|scheme|] == href[..|scheme|] == scheme;
    ClosesAt(href, ':', 0, |scheme|);
    assert [':'] == ":";
  }

  lemma SchemeEnds(href: string)
    requires Scheme(href).Some?
    ensures var n := |Scheme(href).value|; n < |href| && href[..n] == Scheme(href).value && href[n] == ':'
  {
    IndexOfHits(href, ":", 0);
    var colon := IndexOf(href, ":", 0).value;
    assert href[colon..colon + 1][0] == href[colon];
  }

  lemma SchemeAllows(href: string)
    requires Scheme(href) == Some("mailto")
             || ((Scheme(href) == Some("http") || Scheme(href) == Some("https"))
                 && StartsWithAt(href, "//", |Scheme(href).value| + 1))
    ensures IsSafeHref(href)
  {
    SchemeEnds(href);
    var n := |Scheme(href).value|;
    if Scheme(href) == Some("mailto") {
      assert href[..7] == href[..6] + [href[6]];
    } else {
      assert href[..n + 3] == href[..n] + [href[n]] + href[n + 1..n + 3];
    }
  }

  /**
   An address is safe exactly when it is a path of the site itself or has one of
   three schemes; so one of another scheme, of another host without a scheme, or a
   relative path is never linked to.
   */
  lemma SafeAddresses(href: string)
    ensures IsSafeHref(href) <==>
              || (href != "" && href[0] == '/' && (|href| > 1 ==> href[1] != '/'))
              || Scheme(href) == Some("mailto")
              || ((Scheme(href) == Some("http") || Scheme(href) == Some("https"))
                  && StartsWithAt(href, "//", |Scheme(href).value| + 1))
  {
    if "http://" <= href {
      assert href == "http" + ":" + ("//" + href[7..]);
      SchemeIs(href, "http", "//" + href[7..]);
    } else if "https://" <= href {
      assert href == "https" + ":" + ("//" + href[8..]);
      SchemeIs(href, "https", "//" + href[8..]);
    } else if "mailto:" <= href {
      assert href == "mailto" + ":" + href[7..];
      SchemeIs(href, "mailto", href[7..]);
    } else if Scheme(href) == Some("mailto")
              || ((Scheme(href) == Some("http") || Scheme(href) == Some("https"))
                  && StartsWithAt(href, "//", |Scheme(href).value| + 1)) {
      SchemeAllows(href);
    }
  }

  // ----- the markup of a single element -----

  predicate Lacking(text: string, c: char) { forall i :: 0 <= i < |text| ==> text[i] != c }

  predicate IsPlain(text: string) { Lacking(text, '*') && Lacking(text, '`') && Lacking(text, '[') }

  lemma {:induction false} PlainMarks(text: string, index: nat)
    requires IsPlain(text) && index <= |text|
    ensures MarksFrom(text, index) == Chars(text[index..])
    decreases |text| - index
  {
    if index < |text| {
      NoStrongHere(text, index);
      PlainMarks(text, index + 1);
      assert Chars(text[index..]) == [Char(text[index])] + Chars(text[index + 1..]);
    }
  }

  /** Text without delimiters means its characters. */
  lemma PlainTextMeansItself(text: string)
    requires IsPlain(text)
    ensures Document(text) == Chars(text)
  {
    PlainMarks(text, 0);
    assert text[0..] == text;
  }

  /** A text that is one span means what the span means. */
  lemma OneToken(text: string, t: Token)
    requires text != "" && TokenAt(text, 0) == t && Next(0, t) == |text|
    ensures Document(text) == TokenMarks(text, 0, t)
  {
    assert MarksFrom(text, |text|) == [];
  }

  /** The first closing character behind a content that lacks it. */
  lemma ClosesAt(text: string, c: char, from: nat, at: nat)
    requires from <= at < |text| && text[at] == c && Lacking(text[from..at], c)
    ensures IndexOf(text, [c], from) == Some(at)
  {
    forall i: nat | from <= i < at ensures !StartsWithAt(text, [c], i) {
      assert text[from..at][i - from] == text[i];
      assert text[i..i + 1][0] == text[i];
    }
    assert text[at..at + 1] == [c];
    FirstIsIndexOf(text, [c], from, at);
  }

  /** "**" around plain text is strong text. */
  lemma StarsMeanStrong(content: string)
    requires IsPlain(content)
    ensures Document("**" + content + "**") == Within(Begin(Strong), Chars(content))
  {
    var text, end := "**" + content + "**", 2 + |content|;
    assert text[0..2] == "**" && text[end..end + 2] == "**" && text[2..end] == content;
    forall i: nat | 2 <= i < end ensures !StartsWithAt(text, "**", i) {
      assert text[i] == content[i - 2];
      assert i + 2 <= |text| ==> text[i..i + 2][0] == text[i];
    }
    FirstIsIndexOf(text, "**", 2, end);
    OneToken(text, StrongSpan(end));
    PlainTextMeansItself(content);
  }

  /** "*" around plain text is emphasised text. */
  lemma StarMeansEm(content: string)
    requires IsPlain(content) && content != ""
    ensures Document("*" + content + "*") == Within(Begin(Em), Chars(content))
  {
    var text, end := "*" + content + "*", 1 + |content|;
    assert text[1..end] == content && text[1] == content[0] && text[end] == '*';
    assert text[0..2][1] == text[1];
    ClosesAt(text, '*', 1, end);
    OneToken(text, EmSpan(end));
    PlainTextMeansItself(content);
  }

  /** Backticks around text without a backtick are code, whatever else it holds. */
  lemma BackticksMeanCode(content: string)
    requires Lacking(content, '`')
    ensures Document("`" + content + "`") == Within(Begin(Code), Chars(content))
  {
    var text, end := "`" + content + "`", 1 + |content|;
    assert text[0] == '`' && text[1..end] == content && text[end] == '`';
    NoStrongHere(text, 0);
    ClosesAt(text, '`', 1, end);
    OneToken(text, CodeSpan(end));
  }

  lemma {:induction false} TrimOfTrimmed(s: string)
    requires s != "" && !IsSpace(s[0]) && !IsSpace(s[|s| - 1])
    ensures Trim(s) == s
  {
  }

  /** Where the brackets and parentheses of a link stand. */
  lemma BracketsAt(name: string, url: string)
    requires Lacking(name, ']') && Lacking(url, ')')
    ensures var text, l, u := "[" + name + "](" + url + ")", 1 + |name|, 3 + |name| + |url|;
            && |text| == u + 1 && text[1..l] == name && text[l + 2..u] == url
            && TokenAt(text, 0) == LinkSpan(l, u)
  {
    var text, l := "[" + name + "](" + url + ")", 1 + |name|;
    var u := l + 2 + |url|;
    assert text[0] == '[' && text[1..l] == name && text[l] == ']' && text[l + 1] == '(';
    assert text[l + 1..l + 2] == "(" && text[l + 2..u] == url && text[u] == ')';
    ClosesAt(text, ']', 1, l);
    ClosesAt(text, ')', l + 2, u);
    BracketToken(text, 0);
  }

  /** A link to a safe address links to exactly that address, and shows exactly its label. */
  lemma BracketsMeanLink(name: string, url: string)
    requires IsPlain(name) && Lacking(name, ']')
    requires Lacking(url, ')') && IsSafeHref(url) && !IsSpace(url[|url| - 1])
    ensures Document("[" + name + "](" + url + ")") == Within(BeginLink(url), Chars(name))
    ensures Read(Render("[" + name + "](" + url + ")"), []) == Some(Within(BeginLink(url), Chars(name)))
  {
    var text, t := "[" + name + "](" + url + ")", LinkSpan(1 + |name|, 3 + |name| + |url|);
    BracketsAt(name, url);
    SafeIsTrimmed(url);
    OneToken(text, t);
    PlainTextMeansItself(name);
    AnchorIs(text, 0, t);
    ReadRender(text, "", []);
    assert Render(text) + "" == Render(text) && Document(text) + [] == Document(text);
  }

  lemma SafeIsTrimmed(url: string)
    requires IsSafeHref(url) && !IsSpace(url[|url| - 1])
    ensures Trim(url) == url
  {
    assert url[0] == 'h' || url[0] == 'm' || url[0] == '/';
    TrimOfTrimmed(url);
  }
}
