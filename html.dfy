/** `sanitizeHtml` of the contact-email function: five global replacements
    that turn `& < > " '` into character references, `&` first. */
module Html {

  /** `str.replace(/c/g, rep)`: every occurrence of `c` becomes `rep`. */
  function ReplaceAll(s: string, c: char, rep: string): (r: string)
  {
    if s == [] then []
    else (if s[0] == c then rep else [s[0]]) + ReplaceAll(s[1..], c, rep)
  }

  /** The replacement chain exactly as written, `&` first and `'` last. */
  function SanitizeHtml(s: string): (r: string)
  {
    ReplaceAll(ReplaceAll(ReplaceAll(ReplaceAll(ReplaceAll(
      s, '&', "&amp;"), '<', "&lt;"), '>', "&gt;"), '"', "&quot;"), '\'', "&#039;")
  }

  /** The reference each character stands for in the output. */
  function EscapeChar(c: char): (r: string)
  {
    match c
    case '&' => "&amp;"
    case '<' => "&lt;"
    case '>' => "&gt;"
    case '"' => "&quot;"
    case '\'' => "&#039;"
    case _ => [c]
  }

  /** Single-pass reference definition: each character replaced by its reference. */
  function Escape(s: string): (r: string)
  {
    if s == [] then [] else EscapeChar(s[0]) + Escape(s[1..])
  }

  /** Characters that `SanitizeHtml` rewrites. */
  predicate IsSpecial(c: char)
  {
    c == '&' || c == '<' || c == '>' || c == '"' || c == '\''
  }

  /** Characters that can open a tag or end an attribute value. */
  predicate IsMarkup(c: char)
  {
    c == '<' || c == '>' || c == '"' || c == '\''
  }

  /** Decoder for the five references, scanning left to right. */
  function Unescape(s: string): (r: string)
    decreases |s|
  {
    if s == [] then []
    else if "&amp;" <= s then ['&'] + Unescape(s[5..])
    else if "&lt;" <= s then ['<'] + Unescape(s[4..])
    else if "&gt;" <= s then ['>'] + Unescape(s[4..])
    else if "&quot;" <= s then ['"'] + Unescape(s[6..])
    else if "&#039;" <= s then ['\''] + Unescape(s[6..])
    else [s[0]] + Unescape(s[1..])
  }

  lemma {:induction false} ReplaceAllAppend(a: string, b: string, c: char, rep: string)
    ensures ReplaceAll(a + b, c, rep) == ReplaceAll(a, c, rep) + ReplaceAll(b, c, rep)
  {
    if a == [] {
      assert a + b == b;
    } else {
      assert (a + b)[1..] == a[1..] + b;
      ReplaceAllAppend(a[1..], b, c, rep);
    }
  }

  lemma {:induction false} ReplaceAllAbsent(s: string, c: char, rep: string)
    requires c !in s
    ensures ReplaceAll(s, c, rep) == s
  {
    if s != [] {
      ReplaceAllAbsent(s[1..], c, rep);
    }
  }

  lemma SanitizeAppend(a: string, b: string)
    ensures SanitizeHtml(a + b) == SanitizeHtml(a) + SanitizeHtml(b)
  {
    var a1, b1 := ReplaceAll(a, '&', "&amp;"), ReplaceAll(b, '&', "&amp;");
    ReplaceAllAppend(a, b, '&', "&amp;");
    var a2, b2 := ReplaceAll(a1, '<', "&lt;"), ReplaceAll(b1, '<', "&lt;");
    ReplaceAllAppend(a1, b1, '<', "&lt;");
    var a3, b3 := ReplaceAll(a2, '>', "&gt;"), ReplaceAll(b2, '>', "&gt;");
    ReplaceAllAppend(a2, b2, '>', "&gt;");
    var a4, b4 := ReplaceAll(a3, '"', "&quot;"), ReplaceAll(b3, '"', "&quot;");
    ReplaceAllAppend(a3, b3, '"', "&quot;");
    ReplaceAllAppend(a4, b4, '\'', "&#039;");
  }

  lemma ReplaceAllSingle(x: char, c: char, rep: string)
    ensures ReplaceAll([x], c, rep) == if x == c then rep else [x]
  {
    assert [x][1..] == [];
  }

  // Each reference holds none of the characters that the stages after
  // its own replace, so those stages leave it alone.

  lemma AmpRefInert()
    ensures '<' !in "&amp;" && '>' !in "&amp;" && '"' !in "&amp;" && '\'' !in "&amp;"
  {
    var t := "&amp;";
    assert t[0] == '&' && t[1] == 'a' && t[2] == 'm' && t[3] == 'p' && t[4] == ';';
  }

  lemma LtRefInert()
    ensures '>' !in "&lt;" && '"' !in "&lt;" && '\'' !in "&lt;"
  {
    var t := "&lt;";
    assert t[0] == '&' && t[1] == 'l' && t[2] == 't' && t[3] == ';';
  }

  lemma GtRefInert()
    ensures '"' !in "&gt;" && '\'' !in "&gt;"
  {
    var t := "&gt;";
    assert t[0] == '&' && t[1] == 'g' && t[2] == 't' && t[3] == ';';
  }

  lemma QuotRefInert()
    ensures '\'' !in "&quot;"
  {
    var t := "&quot;";
    assert t[0] == '&' && t[1] == 'q' && t[2] == 'u' && t[3] == 'o' && t[4] == 't' && t[5] == ';';
  }

  lemma SanitizeAmp(x: char)
    requires x == '&'
    ensures SanitizeHtml([x]) == "&amp;"
  {
    var s1 := ReplaceAll([x], '&', "&amp;");
    ReplaceAllSingle(x, '&', "&amp;");
    AmpRefInert();
    ReplaceAllAbsent(s1, '<', "&lt;");
    ReplaceAllAbsent(s1, '>', "&gt;");
    ReplaceAllAbsent(s1, '"', "&quot;");
    ReplaceAllAbsent(s1, '\'', "&#039;");
  }

  lemma SanitizeLt(x: char)
    requires x == '<'
    ensures SanitizeHtml([x]) == "&lt;"
  {
    ReplaceAllSingle(x, '&', "&amp;");
    var s2 := ReplaceAll([x], '<', "&lt;");
    ReplaceAllSingle(x, '<', "&lt;");
    LtRefInert();
    ReplaceAllAbsent(s2, '>', "&gt;");
    ReplaceAllAbsent(s2, '"', "&quot;");
    ReplaceAllAbsent(s2, '\'', "&#039;");
  }

  lemma SanitizeGt(x: char)
    requires x == '>'
    ensures SanitizeHtml([x]) == "&gt;"
  {
    ReplaceAllSingle(x, '&', "&amp;");
    ReplaceAllSingle(x, '<', "&lt;");
    var s3 := ReplaceAll([x], '>', "&gt;");
    ReplaceAllSingle(x, '>', "&gt;");
    GtRefInert();
    ReplaceAllAbsent(s3, '"', "&quot;");
    ReplaceAllAbsent(s3, '\'', "&#039;");
  }

  lemma SanitizeQuot(x: char)
    requires x == '"'
    ensures SanitizeHtml([x]) == "&quot;"
  {
    ReplaceAllSingle(x, '&', "&amp;");
    ReplaceAllSingle(x, '<', "&lt;");
    ReplaceAllSingle(x, '>', "&gt;");
    var s4 := ReplaceAll([x], '"', "&quot;");
    ReplaceAllSingle(x, '"', "&quot;");
    QuotRefInert();
    ReplaceAllAbsent(s4, '\'', "&#039;");
  }

  lemma SanitizeApos(x: char)
    requires x == '\''
    ensures SanitizeHtml([x]) == "&#039;"
  {
    ReplaceAllSingle(x, '&', "&amp;");
    ReplaceAllSingle(x, '<', "&lt;");
    ReplaceAllSingle(x, '>', "&gt;");
    ReplaceAllSingle(x, '"', "&quot;");
    ReplaceAllSingle(x, '\'', "&#039;");
  }

  lemma SanitizePlain(x: char)
    requires !IsSpecial(x)
    ensures SanitizeHtml([x]) == [x]
  {
    ReplaceAllSingle(x, '&', "&amp;");
    ReplaceAllSingle(x, '<', "&lt;");
    ReplaceAllSingle(x, '>', "&gt;");
    ReplaceAllSingle(x, '"', "&quot;");
    ReplaceAllSingle(x, '\'', "&#039;");
  }

  /** On one character the chain gives that character's reference. */
  lemma SanitizeChar(x: char)
    ensures SanitizeHtml([x]) == EscapeChar(x)
  {
    if x == '&' { SanitizeAmp(x); }
    else if x == '<' { SanitizeLt(x); }
    else if x == '>' { SanitizeGt(x); }
    else if x == '"' { SanitizeQuot(x); }
    else if x == '\'' { SanitizeApos(x); }
    else { SanitizePlain(x); }
  }

  /** The replacement chain is the single-pass escape: replacing `&` first
      means no later reference is itself rewritten. */
  lemma {:induction false} SanitizeIsEscape(s: string)
    ensures SanitizeHtml(s) == Escape(s)
  {
    if s == [] {
      assert SanitizeHtml(s) == [];
    } else {
      assert s == [s[0]] + s[1..];
      SanitizeAppend([s[0]], s[1..]);
      SanitizeChar(s[0]);
      SanitizeIsEscape(s[1..]);
    }
  }

  lemma UnescapeEscapeChar(x: char, rest: string)
    ensures Unescape(EscapeChar(x) + rest) == [x] + Unescape(rest)
  {
    var e := EscapeChar(x) + rest;
    if x == '&' {
      assert "&amp;" <= e && e[5..] == rest;
    } else if x == '<' {
      assert e[1] == 'l' && e[4..] == rest && "&lt;" <= e;
    } else if x == '>' {
      assert e[1] == 'g' && e[4..] == rest && "&gt;" <= e;
    } else if x == '"' {
      assert e[1] == 'q' && e[6..] == rest && "&quot;" <= e;
    } else if x == '\'' {
      assert e[1] == '#' && e[6..] == rest && "&#039;" <= e;
    } else {
      assert e[0] == x && e[1..] == rest;
      NotRefStart(e);
    }
  }

  /** Text that does not start with `&` starts with no reference. */
  lemma NotRefStart(e: string)
    requires |e| > 0 && e[0] != '&'
    ensures !("&amp;" <= e) && !("&lt;" <= e) && !("&gt;" <= e) && !("&quot;" <= e) && !("&#039;" <= e)
  {
    var a, l, g, q, p := "&amp;", "&lt;", "&gt;", "&quot;", "&#039;";
    assert a[0] == '&' && l[0] == '&' && g[0] == '&' && q[0] == '&' && p[0] == '&';
  }

  /** Decoding the references recovers the input exactly. */
  lemma {:induction false} UnescapeSanitize(s: string)
    ensures Unescape(SanitizeHtml(s)) == s
  {
    SanitizeIsEscape(s);
    UnescapeEscape(s);
  }

  lemma {:induction false} UnescapeEscape(s: string)
    ensures Unescape(Escape(s)) == s
  {
    if s != [] {
      UnescapeEscapeChar(s[0], Escape(s[1..]));
      UnescapeEscape(s[1..]);
      assert s == [s[0]] + s[1..];
    }
  }

  /** Distinct inputs never collapse to the same output. */
  lemma SanitizeInjective(a: string, b: string)
    requires SanitizeHtml(a) == SanitizeHtml(b)
    ensures a == b
  {
    UnescapeSanitize(a);
    UnescapeSanitize(b);
  }

  lemma {:induction false} EscapeNoMarkup(s: string)
    ensures forall i :: 0 <= i < |Escape(s)| ==> !IsMarkup(Escape(s)[i])
  {
    if s != [] {
      EscapeNoMarkup(s[1..]);
      var h, t := EscapeChar(s[0]), Escape(s[1..]);
      assert forall i :: 0 <= i < |h| ==> !IsMarkup(h[i]);
      assert forall i :: 0 <= i < |h + t| ==> (h + t)[i] == if i < |h| then h[i] else t[i - |h|];
    }
  }

  /** The output holds no `<`, `>`, `"` or `'`. */
  lemma SanitizeNoMarkup(s: string)
    ensures forall i :: 0 <= i < |SanitizeHtml(s)| ==> !IsMarkup(SanitizeHtml(s)[i])
  {
    SanitizeIsEscape(s);
    EscapeNoMarkup(s);
  }

  lemma {:induction false} EscapeUnchanged(s: string)
    requires forall i :: 0 <= i < |s| ==> !IsSpecial(s[i])
    ensures Escape(s) == s
  {
    if s != [] {
      EscapeUnchanged(s[1..]);
      assert s == [s[0]] + s[1..];
    }
  }

  /** A string with none of the five characters comes back unchanged. */
  lemma SanitizeUnchanged(s: string)
    requires forall i :: 0 <= i < |s| ==> !IsSpecial(s[i])
    ensures SanitizeHtml(s) == s
  {
    SanitizeIsEscape(s);
    EscapeUnchanged(s);
  }

  lemma {:induction false} EscapeLength(s: string)
    ensures |s| <= |Escape(s)| <= 6 * |s|
  {
    if s != [] {
      EscapeLength(s[1..]);
    }
  }

  /** Escaping never shortens and at most sextuples the length. */
  lemma SanitizeLength(s: string)
    ensures |s| <= |SanitizeHtml(s)| <= 6 * |s|
  {
    SanitizeIsEscape(s);
    EscapeLength(s);
  }
}
