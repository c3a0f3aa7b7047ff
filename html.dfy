/** `escapeHtml` of source/index.ts: one global regular-expression replacement
    of the six characters & ' ` " < > by their character references. */
module Html {

  /** The characters matched by the class `[&'`"<>]`. */
  predicate IsSpecial(c: char) {
    c == '&' || c == '\'' || c == '`' || c == '"' || c == '<' || c == '>'
  }

  /** The characters that may never appear in escaped text. */
  predicate IsUnsafe(c: char) {
    c == '\'' || c == '`' || c == '"' || c == '<' || c == '>'
  }

  /** The replacement of one character: the callback for a matched
      character, the character itself where the pattern does not match. */
  function EscapeChar(c: char): string {
    if c == '&' then "&amp;"
    else if c == '\'' then "&#x27;"
    else if c == '`' then "&#x60;"
    else if c == '"' then "&quot;"
    else if c == '<' then "&lt;"
    else if c == '>' then "&gt;"
    else [c]
  }

  /** `escapeHtml(text)`: each character is replaced once, left to right;
      the replacement text is not scanned again. */
  function EscapeHtml(text: string): string
    decreases |text|
  {
    if text == [] then [] else EscapeChar(text[0]) + EscapeHtml(text[1..])
  }

  /** What one replacement looks like: a special character becomes a
      reference that starts with `&` and is longer than one character;
      any other character is kept; no replacement holds an unsafe character. */
  lemma EscapeCharShape(c: char)
    ensures |EscapeChar(c)| >= 1
    ensures |EscapeChar(c)| == 1 <==> !IsSpecial(c)
    ensures !IsSpecial(c) ==> EscapeChar(c) == [c]
    ensures IsSpecial(c) ==> EscapeChar(c)[0] == '&'
    ensures forall i :: 0 <= i < |EscapeChar(c)| ==> !IsUnsafe(EscapeChar(c)[i])
  {
  }

  /** The output is at least as long as the input, and exactly as long iff
      the input holds none of the six characters. */
  lemma {:induction false} EscapeHtmlLength(text: string)
    ensures |EscapeHtml(text)| >= |text|
    ensures |EscapeHtml(text)| == |text| <==> forall i :: 0 <= i < |text| ==> !IsSpecial(text[i])
    decreases |text|
  {
    if text != [] {
      EscapeCharShape(text[0]);
      EscapeHtmlLength(text[1..]);
      assert forall i :: 1 <= i < |text| ==> text[i] == text[1..][i - 1];
    }
  }

  /** The output holds none of < > " ' ` . */
  lemma {:induction false} EscapeHtmlSafe(text: string)
    ensures forall i :: 0 <= i < |EscapeHtml(text)| ==> !IsUnsafe(EscapeHtml(text)[i])
    decreases |text|
  {
    if text != [] {
      EscapeCharShape(text[0]);
      EscapeHtmlSafe(text[1..]);
      var head, tail := EscapeChar(text[0]), EscapeHtml(text[1..]);
      assert EscapeHtml(text) == head + tail;
      assert forall i :: |head| <= i < |head + tail| ==> (head + tail)[i] == tail[i - |head|];
    }
  }

  /** Escaping distributes over concatenation. */
  lemma {:induction false} EscapeHtmlAppend(a: string, b: string)
    ensures EscapeHtml(a + b) == EscapeHtml(a) + EscapeHtml(b)
    decreases |a|
  {
    if a == [] {
      assert a + b == b;
    } else {
      assert (a + b)[0] == a[0];
      assert (a + b)[1..] == a[1..] + b;
      EscapeHtmlAppend(a[1..], b);
    }
  }

  /** Text without any of the six characters is returned unchanged. */
  lemma {:induction false} EscapeHtmlIdentity(text: string)
    requires forall i :: 0 <= i < |text| ==> !IsSpecial(text[i])
    ensures EscapeHtml(text) == text
    decreases |text|
  {
    if text != [] {
      EscapeCharShape(text[0]);
      EscapeHtmlIdentity(text[1..]);
    }
  }

  /** The replacement table, read back through `EscapeHtml`. */
  lemma EscapeHtmlTable()
    ensures EscapeHtml("&") == "&amp;"
    ensures EscapeHtml("'") == "&#x27;"
    ensures EscapeHtml("`") == "&#x60;"
    ensures EscapeHtml("\"") == "&quot;"
    ensures EscapeHtml("<") == "&lt;"
    ensures EscapeHtml(">") == "&gt;"
  {
    assert "&"[1..] == [];
    assert "'"[1..] == [];
    assert "`"[1..] == [];
    assert "\""[1..] == [];
    assert "<"[1..] == [];
    assert ">"[1..] == [];
  }

  /** A reference already in the input is escaped again (its `&` becomes
      `&amp;`), so escaping twice differs from escaping once. */
  lemma EscapeHtmlNotIdempotent()
    ensures EscapeHtml(EscapeHtml("<")) == "&amp;lt;"
  {
    EscapeHtmlTable();
    assert "&lt;" == "&" + "lt;";
    EscapeHtmlAppend("&", "lt;");
    EscapeHtmlIdentity("lt;");
  }

  predicate StartsWith(s: string, prefix: string) {
    |prefix| <= |s| && s[..|prefix|] == prefix
  }

  /** Reference decoder for the six character references that `EscapeHtml` writes. */
  function UnescapeHtml(s: string): string
    decreases |s|
  {
    if s == [] then []
    else if StartsWith(s, "&amp;") then "&" + UnescapeHtml(s[5..])
    else if StartsWith(s, "&#x27;") then "'" + UnescapeHtml(s[6..])
    else if StartsWith(s, "&#x60;") then "`" + UnescapeHtml(s[6..])
    else if StartsWith(s, "&quot;") then "\"" + UnescapeHtml(s[6..])
    else if StartsWith(s, "&lt;") then "<" + UnescapeHtml(s[4..])
    else if StartsWith(s, "&gt;") then ">" + UnescapeHtml(s[4..])
    else [s[0]] + UnescapeHtml(s[1..])
  }

  lemma StartsWithAppend(e: string, rest: string, prefix: string)
    requires |prefix| <= |e|
    ensures StartsWith(e + rest, prefix) <==> e[..|prefix|] == prefix
  {
    assert (e + rest)[..|prefix|] == e[..|prefix|];
  }

  lemma UnescapeAmp(rest: string)
    ensures UnescapeHtml("&amp;" + rest) == "&" + UnescapeHtml(rest)
  {
    var s := "&amp;" + rest;
    StartsWithAppend("&amp;", rest, "&amp;");
    assert s[5..] == rest;
  }

  lemma UnescapeApostrophe(rest: string)
    ensures UnescapeHtml("&#x27;" + rest) == "'" + UnescapeHtml(rest)
  {
    var s := "&#x27;" + rest;
    assert s[1] == '#';
    assert !StartsWith(s, "&amp;");
    StartsWithAppend("&#x27;", rest, "&#x27;");
    assert s[6..] == rest;
  }

  lemma UnescapeBacktick(rest: string)
    ensures UnescapeHtml("&#x60;" + rest) == "`" + UnescapeHtml(rest)
  {
    var s := "&#x60;" + rest;
    assert s[1] == '#' && s[3] == '6';
    assert !StartsWith(s, "&amp;") && !StartsWith(s, "&#x27;");
    StartsWithAppend("&#x60;", rest, "&#x60;");
    assert s[6..] == rest;
  }

  lemma UnescapeQuote(rest: string)
    ensures UnescapeHtml("&quot;" + rest) == "\"" + UnescapeHtml(rest)
  {
    var s := "&quot;" + rest;
    assert s[1] == 'q';
    assert !StartsWith(s, "&amp;") && !StartsWith(s, "&#x27;") && !StartsWith(s, "&#x60;");
    StartsWithAppend("&quot;", rest, "&quot;");
    assert s[6..] == rest;
  }

  lemma UnescapeLess(rest: string)
    ensures UnescapeHtml("&lt;" + rest) == "<" + UnescapeHtml(rest)
  {
    var s := "&lt;" + rest;
    assert s[1] == 'l';
    assert !StartsWith(s, "&amp;") && !StartsWith(s, "&#x27;") && !StartsWith(s, "&#x60;") && !StartsWith(s, "&quot;");
    StartsWithAppend("&lt;", rest, "&lt;");
    assert s[4..] == rest;
  }

  lemma UnescapeGreater(rest: string)
    ensures UnescapeHtml("&gt;" + rest) == ">" + UnescapeHtml(rest)
  {
    var s := "&gt;" + rest;
    assert s[1] == 'g';
    assert !StartsWith(s, "&amp;") && !StartsWith(s, "&#x27;") && !StartsWith(s, "&#x60;")
        && !StartsWith(s, "&quot;") && !StartsWith(s, "&lt;");
    StartsWithAppend("&gt;", rest, "&gt;");
    assert s[4..] == rest;
  }

  lemma UnescapePlain(c: char, rest: string)
    requires !IsSpecial(c)
    ensures UnescapeHtml([c] + rest) == [c] + UnescapeHtml(rest)
  {
    var s := [c] + rest;
    assert s[0] == c;
    assert !StartsWith(s, "&amp;") && !StartsWith(s, "&#x27;") && !StartsWith(s, "&#x60;")
        && !StartsWith(s, "&quot;") && !StartsWith(s, "&lt;") && !StartsWith(s, "&gt;");
    assert s[1..] == rest;
  }

  /** Decoding one replacement followed by anything gives its character back. */
  lemma UnescapeChar(c: char, rest: string)
    ensures UnescapeHtml(EscapeChar(c) + rest) == [c] + UnescapeHtml(rest)
  {
    if c == '&' {
      UnescapeAmp(rest);
    } else if c == '\'' {
      UnescapeApostrophe(rest);
    } else if c == '`' {
      UnescapeBacktick(rest);
    } else if c == '"' {
      UnescapeQuote(rest);
    } else if c == '<' {
      UnescapeLess(rest);
    } else if c == '>' {
      UnescapeGreater(rest);
    } else {
      UnescapePlain(c, rest);
    }
  }

  /** Escaping loses nothing: decoding the six references gives the text back,
      so the `&` written by one replacement is never re-escaped in the same call. */
  lemma {:induction false} UnescapeEscapeHtml(text: string)
    ensures UnescapeHtml(EscapeHtml(text)) == text
    decreases |text|
  {
    if text != [] {
      UnescapeChar(text[0], EscapeHtml(text[1..]));
      UnescapeEscapeHtml(text[1..]);
    }
  }
}
