/**
  Trimming of surrounding whitespace, as Python's `str.strip()` and
  JavaScript's `String.prototype.trim()` do it. The two languages disagree on
  what whitespace is, so each has its own character set and every operation
  takes the set it trims.
*/
module Text {

  /** Python's `str.isspace()`: the ASCII separators and the Unicode spaces and line breaks. */
  predicate IsPythonSpace(c: char)
  {
    || ('\t' <= c <= '\r')                 // tab, line feed, vertical tab, form feed, carriage return
    || ('\U{1C}' <= c <= ' ')               // the four information separators and space
    || c == '\U{85}' || c == '\U{A0}' || c == '\U{1680}'
    || ('\U{2000}' <= c <= '\U{200A}')
    || c == '\U{2028}' || c == '\U{2029}' || c == '\U{202F}' || c == '\U{205F}' || c == '\U{3000}'
  }

  /** ECMAScript's WhiteSpace and LineTerminator characters, which `trim()` removes. */
  predicate IsJsSpace(c: char)
  {
    || ('\t' <= c <= '\r')
    || c == ' ' || c == '\U{A0}' || c == '\U{1680}'
    || ('\U{2000}' <= c <= '\U{200A}')
    || c == '\U{2028}' || c == '\U{2029}' || c == '\U{202F}' || c == '\U{205F}' || c == '\U{3000}'
    || c == '\U{FEFF}'
  }

  const PythonWhitespace: set<char> := set c: char | IsPythonSpace(c)

  const JsWhitespace: set<char> := set c: char | IsJsSpace(c)

  /** Every character of `s` is whitespace (in particular the empty string). */
  predicate AllIn(s: string, ws: set<char>)
  {
    forall i :: 0 <= i < |s| ==> s[i] in ws
  }

  /** `s` with its leading whitespace removed. */
  function TrimStart(s: string, ws: set<char>): (r: string)
  {
    if s != [] && s[0] in ws then TrimStart(s[1..], ws) else s
  }

  /** `s` with its trailing whitespace removed. */
  function TrimEnd(s: string, ws: set<char>): (r: string)
  {
    if s != [] && s[|s| - 1] in ws then TrimEnd(s[..|s| - 1], ws) else s
  }

  /** `s.strip()` / `s.trim()`: whitespace removed at both ends. */
  function Strip(s: string, ws: set<char>): (r: string)
  {
    TrimStart(TrimEnd(s, ws), ws)
  }

  /** TrimStart drops a whitespace-only prefix and stops at the first other character. */
  lemma {:induction false} TrimStartDropsPrefix(s: string, ws: set<char>)
    ensures var r := TrimStart(s, ws);
      && |r| <= |s| && r == s[|s| - |r|..]
      && AllIn(s[..|s| - |r|], ws)
      && (r == [] || r[0] !in ws)
  {
    if s != [] && s[0] in ws {
      TrimStartDropsPrefix(s[1..], ws);
      var r := TrimStart(s[1..], ws);
      assert s[1..][..|s| - 1 - |r|] == s[1..|s| - |r|];
    }
  }

  /** TrimEnd drops a whitespace-only suffix and stops at the last other character. */
  lemma {:induction false} TrimEndDropsSuffix(s: string, ws: set<char>)
    ensures var r := TrimEnd(s, ws);
      && |r| <= |s| && r == s[..|r|]
      && AllIn(s[|r|..], ws)
      && (r == [] || r[|r| - 1] !in ws)
  {
    if s != [] && s[|s| - 1] in ws {
      TrimEndDropsSuffix(s[..|s| - 1], ws);
      var r := TrimEnd(s[..|s| - 1], ws);
      assert s[..|s| - 1][..|r|] == s[..|r|];
      assert s[|r|..] == s[..|s| - 1][|r|..] + [s[|s| - 1]];
    }
  }

  /**
    What stripping means: the result is the slice of `s` between a
    whitespace-only prefix and a whitespace-only suffix, and it neither starts
    nor ends with whitespace.
  */
  lemma StripIsTrimmedSlice(s: string, ws: set<char>)
    ensures var r := Strip(s, ws); var k := |TrimEnd(s, ws)| - |r|;
      && 0 <= k && k + |r| <= |s|
      && r == s[k..k + |r|]
      && AllIn(s[..k], ws) && AllIn(s[k + |r|..], ws)
      && (r != [] ==> r[0] !in ws && r[|r| - 1] !in ws)
  {
    var e := TrimEnd(s, ws);
    var r := TrimStart(e, ws);
    TrimEndDropsSuffix(s, ws);
    TrimStartDropsPrefix(e, ws);
    var k := |e| - |r|;
    assert s[..k] == e[..k];
    assert r == s[k..k + |r|];
    if r != [] {
      assert r[|r| - 1] == e[|e| - 1];
    }
  }

  /** Text that neither starts nor ends with whitespace is its own stripped form. */
  lemma StripKeepsTrimmed(s: string, ws: set<char>)
    requires s != [] && s[0] !in ws && s[|s| - 1] !in ws
    ensures Strip(s, ws) == s
  {
  }

  /** Stripping leaves nothing exactly when the text is all whitespace. */
  lemma StripBlankIffAllWhitespace(s: string, ws: set<char>)
    ensures Strip(s, ws) == [] <==> AllIn(s, ws)
  {
    var e := TrimEnd(s, ws);
    var r := TrimStart(e, ws);
    TrimEndDropsSuffix(s, ws);
    TrimStartDropsPrefix(e, ws);
    if r == [] {
      assert e[..|e| - |r|] == e;
      assert e == [];
      assert s[|e|..] == s;
    } else {
      var k := |e| - |r|;
      assert r[0] == e[k] == s[k];
    }
  }

  /** Whitespace appended at the end changes nothing once the text is stripped. */
  lemma {:induction false} StripAppendWhitespace(s: string, c: char, ws: set<char>)
    requires c in ws
    ensures Strip(s + [c], ws) == Strip(s, ws)
  {
    var t := s + [c];
    assert t[|t| - 1] == c;
    assert t[..|t| - 1] == s;
    assert TrimEnd(t, ws) == TrimEnd(s, ws);
  }

  /** Stripping twice is stripping once. */
  lemma {:induction false} StripIdempotent(s: string, ws: set<char>)
    ensures Strip(Strip(s, ws), ws) == Strip(s, ws)
  {
    var r := Strip(s, ws);
    StripIsTrimmedSlice(s, ws);
    if r != [] {
      assert TrimEnd(r, ws) == r;
      assert TrimStart(r, ws) == r;
    }
  }

  /** Python and JavaScript disagree on blankness: U+001C is whitespace to Python only, U+FEFF to JavaScript only. */
  lemma BlanknessDiffers()
    ensures Strip("\U{1C}\U{1C}\U{1C}", PythonWhitespace) == [] && Strip("\U{1C}\U{1C}\U{1C}", JsWhitespace) != []
    ensures Strip("\U{FEFF}\U{FEFF}\U{FEFF}", JsWhitespace) == [] && Strip("\U{FEFF}\U{FEFF}\U{FEFF}", PythonWhitespace) != []
  {
    var fs, bom := "\U{1C}\U{1C}\U{1C}", "\U{FEFF}\U{FEFF}\U{FEFF}";
    StripBlankIffAllWhitespace(fs, PythonWhitespace);
    StripBlankIffAllWhitespace(fs, JsWhitespace);
    StripBlankIffAllWhitespace(bom, JsWhitespace);
    StripBlankIffAllWhitespace(bom, PythonWhitespace);
    assert fs[0] !in JsWhitespace;
    assert bom[0] !in PythonWhitespace;
  }
}
