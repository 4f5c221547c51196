/** Escaping in the markdown preview (escapeHtml in markdown_editor.js): five passes that are one map; its inverse. */
module Html {
  import opened Options

  // ----- escaping -----

  /** s.replaceAll(c, by) for a single character. */
  function ReplaceAll(s: string, c: char, sub: string): string {
    if s == "" then "" else (if s[0] == c then sub else [s[0]]) + ReplaceAll(s[1..], c, sub)
  }

  /** The passes after the first one. */
  function LaterPasses(text: string): string {
    ReplaceAll(ReplaceAll(ReplaceAll(ReplaceAll(text, '<', "&lt;"), '>', "&gt;"), '"', "&quot;"), '\'', "&#39;")
  }

  /** escapeHtml: five passes. */
  function EscapeHtml(text: string): string {
    LaterPasses(ReplaceAll(text, '&', "&amp;"))
  }

  function EscapeChar(c: char): (e: string)
    ensures e != ""
  {
    if c == '&' then "&amp;" else if c == '<' then "&lt;" else if c == '>' then "&gt;"
    else if c == '"' then "&quot;" else if c == '\'' then "&#39;" else [c]
  }

  /** The same as one pass. */
  function Escape(text: string): string {
    if text == "" then "" else EscapeChar(text[0]) + Escape(text[1..])
  }

  lemma {:induction false} ReplaceAllConcat(a: string, b: string, c: char, sub: string)
    ensures ReplaceAll(a + b, c, sub) == ReplaceAll(a, c, sub) + ReplaceAll(b, c, sub)
  {
    if a == "" {
      assert a + b == b;
    } else {
      assert (a + b)[1..] == a[1..] + b;
      ReplaceAllConcat(a[1..], b, c, sub);
    }
  }

  lemma EscapeHtmlConcat(a: string, b: string)
    ensures EscapeHtml(a + b) == EscapeHtml(a) + EscapeHtml(b)
  {
    ReplaceAllConcat(a, b, '&', "&amp;");
    var a1, b1 := ReplaceAll(a, '&', "&amp;"), ReplaceAll(b, '&', "&amp;");
    ReplaceAllConcat(a1, b1, '<', "&lt;");
    var a2, b2 := ReplaceAll(a1, '<', "&lt;"), ReplaceAll(b1, '<', "&lt;");
    ReplaceAllConcat(a2, b2, '>', "&gt;");
    var a3, b3 := ReplaceAll(a2, '>', "&gt;"), ReplaceAll(b2, '>', "&gt;");
    ReplaceAllConcat(a3, b3, '"', "&quot;");
    ReplaceAllConcat(ReplaceAll(a3, '"', "&quot;"), ReplaceAll(b3, '"', "&quot;"), '\'', "&#39;");
  }

  lemma Unaffected(s: string, c: char, sub: string)
    requires c !in s
    ensures ReplaceAll(s, c, sub) == s
  {
  }

  lemma One(c: char, sub: string)
    ensures ReplaceAll([c], c, sub) == sub
  {
    assert [c][1..] == "";
  }

  lemma LaterPassesKeep(e: string)
    requires '<' !in e && '>' !in e && '"' !in e && '\'' !in e
    ensures LaterPasses(e) == e
  {
    Unaffected(e, '<', "&lt;");
    Unaffected(e, '>', "&gt;");
    Unaffected(e, '"', "&quot;");
    Unaffected(e, '\'', "&#39;");
  }

  lemma EscapeAngle(c: char)
    requires c == '<' || c == '>'
    ensures LaterPasses([c]) == EscapeChar(c)
  {
    var e := EscapeChar(c);
    One(c, e);
    if c == '>' { Unaffected([c], '<', "&lt;"); } else { Unaffected(e, '>', "&gt;"); }
    Unaffected(e, '"', "&quot;");
    Unaffected(e, '\'', "&#39;");
  }

  lemma EscapeQuote(c: char)
    requires c == '"' || c == '\''
    ensures LaterPasses([c]) == EscapeChar(c)
  {
    var e := EscapeChar(c);
    One(c, e);
    Unaffected([c], '<', "&lt;");
    Unaffected([c], '>', "&gt;");
    if c == '"' { Unaffected(e, '\'', "&#39;"); } else { Unaffected([c], '"', "&quot;"); }
  }

  lemma EscapeOne(c: char)
    ensures EscapeHtml([c]) == EscapeChar(c)
  {
    if c == '&' {
      One(c, "&amp;");
      LaterPassesKeep("&amp;");
    } else {
      Unaffected([c], '&', "&amp;");
      if c == '<' || c == '>' {
        EscapeAngle(c);
      } else if c == '"' || c == '\'' {
        EscapeQuote(c);
      } else {
        LaterPassesKeep([c]);
      }
    }
  }

  /** The five sequential passes are one pass: no pass touches what an earlier one produced. */
  lemma {:induction false} EscapeHtmlIsOnePass(text: string)
    ensures EscapeHtml(text) == Escape(text)
  {
    if text != "" {
      assert text == [text[0]] + text[1..];
      EscapeHtmlConcat([text[0]], text[1..]);
      EscapeOne(text[0]);
      EscapeHtmlIsOnePass(text[1..]);
    }
  }

  // ----- reading text -----

  /** The entity that can start with these characters. */
  function Entity(html: string): string {
    if |html| < 2 then ""
    else if html[1] == 'a' then "&amp;"
    else if html[1] == 'l' then "&lt;"
    else if html[1] == 'g' then "&gt;"
    else if html[1] == 'q' then "&quot;"
    else if html[1] == '#' then "&#39;"
    else ""
  }

  /** The length of the character or entity at the start, or 0 if it is markup. */
  function UnitLength(html: string): (n: nat)
    requires html != ""
    ensures n <= |html|
  {
    if html[0] == '<' || html[0] == '>' || html[0] == '"' || html[0] == '\'' then 0
    else if html[0] != '&' then 1
    else if Entity(html) <= html then |Entity(html)| else 0
  }

  function UnitChar(html: string): char
    requires html != ""
  {
    if html[0] != '&' || |html| < 2 then html[0]
    else if html[1] == 'a' then '&'
    else if html[1] == 'l' then '<'
    else if html[1] == 'g' then '>'
    else if html[1] == 'q' then '"'
    else '\''
  }

  lemma UnitOfEscape(c: char, rest: string)
    ensures EscapeChar(c) + rest != ""
    ensures UnitLength(EscapeChar(c) + rest) == |EscapeChar(c)| && UnitChar(EscapeChar(c) + rest) == c
    ensures (EscapeChar(c) + rest)[|EscapeChar(c)|..] == rest
    ensures (EscapeChar(c) + rest)[0] != '<'
  {
    var html := EscapeChar(c) + rest;
    assert html[..|EscapeChar(c)|] == EscapeChar(c);
    assert html[0] == EscapeChar(c)[0];
    if |EscapeChar(c)| > 1 { assert html[1] == EscapeChar(c)[1]; }
  }

  /** The text an escaped string stands for, if it is escaped text. */
  function Unescape(html: string): Option<string> {
    if html == "" then Some("")
    else if UnitLength(html) == 0 then None
    else
      match Unescape(html[UnitLength(html)..])
      case None => None
      case Some(rest) => Some([UnitChar(html)] + rest)
  }

  /** Escaping is invertible. */
  lemma {:induction false} UnescapeOfEscape(text: string)
    ensures Unescape(Escape(text)) == Some(text)
  {
    if text != "" {
      assert text == [text[0]] + text[1..];
      UnescapeOfEscape(text[1..]);
      UnitOfEscape(text[0], Escape(text[1..]));
    }
  }

  lemma {:induction false} EscapeHasNoQuote(text: string)
    ensures forall i :: 0 <= i < |Escape(text)| ==> Escape(text)[i] != '"'
  {
    if text != "" { EscapeHasNoQuote(text[1..]); }
  }
}
