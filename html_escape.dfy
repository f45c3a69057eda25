/**
 * The narrow HTML escape applied to the text of a POST request: exactly the four
 * characters `<`, `>`, `&` and `"` become entities, in one pass; every other
 * character, line breaks included, is copied unchanged.
 */
module HtmlEscape {
  import opened Options

  /** The characters the escape rewrites. */
  predicate IsSpecial(c: char)
  {
    c == '<' || c == '>' || c == '&' || c == '"'
  }

  /** The image of one character. */
  function EscapeChar(c: char): (r: string)
    ensures IsSpecial(c) ==> |r| >= 4 && r[0] == '&' && r[|r| - 1] == ';'
    ensures !IsSpecial(c) ==> r == [c]
    ensures forall i :: 0 <= i < |r| ==> r[i] != '<' && r[i] != '>' && r[i] != '"'
  {
    match c
    case '<' => "&lt;"
    case '>' => "&gt;"
    case '&' => "&amp;"
    case '"' => "&quot;"
    case _ => [c]
  }

  /** The escape of a non-null string: the images of its characters, in order. */
  function Escape(s: string): (r: string)
    ensures |r| >= |s|
    ensures forall i :: 0 <= i < |r| ==> r[i] != '<' && r[i] != '>' && r[i] != '"'
    ensures (forall i :: 0 <= i < |s| ==> !IsSpecial(s[i])) ==> r == s
  {
    if s == [] then [] else EscapeChar(s[0]) + Escape(s[1..])
  }

  /** The escape distributes over concatenation. */
  lemma {:induction false} EscapeAppend(a: string, b: string)
    ensures Escape(a + b) == Escape(a) + Escape(b)
  {
    if a == [] {
      assert a + b == b;
    } else {
      assert (a + b)[1..] == a[1..] + b;
      EscapeAppend(a[1..], b);
    }
  }

  /**
   * `htmlEncode`: a null source gives the empty string; otherwise the characters are
   * appended one by one to a buffer.
   */
  method HtmlEncode(source: Option<string>) returns (r: string)
    ensures source.None? ==> r == ""
    ensures source.Some? ==> r == Escape(source.value)
  {
    if source.None? {
      return "";
    }
    var s := source.value;
    var buffer: string := [];
    var i := 0;
    while i < |s|
      invariant 0 <= i <= |s|
      invariant buffer == Escape(s[..i])
    {
      EscapeAppend(s[..i], [s[i]]);
      assert s[..i + 1] == s[..i] + [s[i]];
      match s[i] {
        case '<' => buffer := buffer + "&lt;";
        case '>' => buffer := buffer + "&gt;";
        case '&' => buffer := buffer + "&amp;";
        case '"' => buffer := buffer + "&quot;";
        case _ => buffer := buffer + [s[i]];
      }
      i := i + 1;
    }
    assert s[..i] == s;
    r := buffer;
  }

  /**
   * A decoder of exactly the four entities the escape produces (any other text is copied),
   * used to prove that the escape loses nothing.
   */
  function Unescape(s: string): (r: string)
    ensures |r| <= |s|
    decreases |s|
  {
    if s == [] then []
    else if "&lt;" <= s then ['<'] + Unescape(s[4..])
    else if "&gt;" <= s then ['>'] + Unescape(s[4..])
    else if "&amp;" <= s then ['&'] + Unescape(s[5..])
    else if "&quot;" <= s then ['"'] + Unescape(s[6..])
    else [s[0]] + Unescape(s[1..])
  }

  lemma UnescapeAfterEscapeChar(c: char, rest: string)
    ensures Unescape(EscapeChar(c) + rest) == [c] + Unescape(rest)
  {
    var t := EscapeChar(c) + rest;
    if c == '<' {
      assert "&lt;" <= t && t[4..] == rest;
    } else if c == '>' {
      assert t[1] == 'g';
      assert "&gt;" <= t && t[4..] == rest;
    } else if c == '&' {
      assert t[1] == 'a';
      assert "&amp;" <= t && t[5..] == rest;
    } else if c == '"' {
      assert t[1] == 'q';
      assert "&quot;" <= t && t[6..] == rest;
    } else {
      assert t[0] == c && t[1..] == rest;
    }
  }

  /** Nothing is lost by the escape: the receiver recovers the original text. */
  lemma {:induction false} UnescapeEscape(s: string)
    ensures Unescape(Escape(s)) == s
  {
    if s != [] {
      UnescapeAfterEscapeChar(s[0], Escape(s[1..]));
      UnescapeEscape(s[1..]);
    }
  }

  /** So two different texts never escape to the same text. */
  lemma EscapeInjective(a: string, b: string)
    requires Escape(a) == Escape(b)
    ensures a == b
  {
    UnescapeEscape(a);
    UnescapeEscape(b);
  }
}
