/** JSON Pointer: writing a path as the adapter does, reading it as RFC 6901 says. */
module JsonPointer {
  import opened Options

  // ---- Writing -------------------------------------------------------------

  /** `s.replace(c, with)` for a single character. */
  function ReplaceChar(s: string, c: char, with: string): string {
    if s == "" then ""
    else (if s[0] == c then with else [s[0]]) + ReplaceChar(s[1..], c, with)
  }

  /** Escapes "~" before "/", so that the second pass cannot touch the first one's output. */
  function Escape(key: string): string {
    ReplaceChar(ReplaceChar(key, '~', "~0"), '/', "~1")
  }

  function PathOf(tokens: seq<string>): string {
    if tokens == [] then "" else "/" + Escape(tokens[0]) + PathOf(tokens[1..])
  }

  // ---- Reading: sections 3 and 4 of RFC 6901 -------------------------------

  /** Replaces each occurrence of "~" followed by `digit`, left to right. */
  function ReplacePair(s: string, digit: char, plain: char): string {
    if |s| < 2 then s
    else if s[0] == '~' && s[1] == digit then [plain] + ReplacePair(s[2..], digit, plain)
    else [s[0]] + ReplacePair(s[1..], digit, plain)
  }

  /** Section 4: first "~1" becomes "/", then "~0" becomes "~". */
  function Unescape(token: string): string {
    ReplacePair(ReplacePair(token, '1', '/'), '0', '~')
  }

  /** The text up to the next separator. */
  function Segment(s: string): (segment: string)
    ensures segment <= s && '/' !in segment
    ensures |segment| < |s| ==> s[|segment|] == '/'
  {
    if s == "" || s[0] == '/' then "" else [s[0]] + Segment(s[1..])
  }

  /** The reference tokens of a pointer; a non-empty pointer must begin with "/". */
  function Tokens(pointer: string): Option<seq<string>> {
    if pointer == "" then Some([])
    else if pointer[0] != '/' then None
    else
      var segment := Segment(pointer[1..]);
      var rest := Tokens(pointer[1 + |segment|..]);
      if rest.None? then None else Some([Unescape(segment)] + rest.value)
  }

  // ---- Round trip ----------------------------------------------------------

  lemma {:induction false} EscapeStep(key: string)
    requires key != ""
    ensures Escape(key) ==
            (if key[0] == '~' then "~0" else if key[0] == '/' then "~1" else [key[0]]) + Escape(key[1..])
  {
    var rest := ReplaceChar(key[1..], '~', "~0");
    if key[0] == '~' {
      assert ReplaceChar(key, '~', "~0") == "~0" + rest;
      assert ("~0" + rest)[1..] == "0" + rest && ("0" + rest)[1..] == rest;
      assert ReplaceChar("0" + rest, '/', "~1") == "0" + Escape(key[1..]);
      assert Escape(key) == "~" + ("0" + Escape(key[1..]));
      assert "~" + ("0" + Escape(key[1..])) == "~0" + Escape(key[1..]);
    } else {
      assert ReplaceChar(key, '~', "~0") == [key[0]] + rest;
      assert ([key[0]] + rest)[1..] == rest;
    }
  }

  lemma {:induction false} EscapeHasNoSeparator(key: string)
    ensures '/' !in Escape(key)
  {
    if key != "" {
      EscapeStep(key);
      EscapeHasNoSeparator(key[1..]);
    }
  }

  /** Escaping leaves no "~" that is not followed by a digit of its own. */
  lemma {:induction false} UnescapeEscape(key: string)
    ensures Unescape(Escape(key)) == key
  {
    if key != "" {
      EscapeStep(key);
      UnescapeEscape(key[1..]);
      var tail := Escape(key[1..]);
      if key[0] == '~' {
        ReplacePairHead('~', "0" + tail, '1', '/');
        ReplacePairHead('0', tail, '1', '/');
        assert "~0" + tail == "~" + ("0" + tail);
        var first := ReplacePair(tail, '1', '/');
        assert ReplacePair("~0" + tail, '1', '/') == "~0" + first;
        assert ("~0" + first)[2..] == first;
      } else if key[0] == '/' {
        assert ("~1" + tail)[2..] == tail;
        ReplacePairHead('/', ReplacePair(tail, '1', '/'), '0', '~');
      } else {
        ReplacePairHead(key[0], tail, '1', '/');
        ReplacePairHead(key[0], ReplacePair(tail, '1', '/'), '0', '~');
      }
    }
  }

  lemma ReplacePairHead(c: char, tail: string, digit: char, plain: char)
    requires c != '~' || (tail != "" && tail[0] != digit)
    ensures ReplacePair([c] + tail, digit, plain) == [c] + ReplacePair(tail, digit, plain)
  {
    assert ([c] + tail)[1..] == tail;
  }

  lemma {:induction false} SegmentOfConcat(a: string, b: string)
    requires '/' !in a
    requires b == "" || b[0] == '/'
    ensures Segment(a + b) == a
    decreases |a|
  {
    if a != "" {
      assert '/' !in a[1..];
      assert (a + b)[1..] == a[1..] + b;
      SegmentOfConcat(a[1..], b);
    } else {
      assert a + b == b;
    }
  }

  lemma TokensHead(head: string, rest: string)
    requires '/' !in head
    requires rest == "" || rest[0] == '/'
    ensures Tokens("/" + head + rest) ==
            if Tokens(rest).None? then None else Some([Unescape(head)] + Tokens(rest).value)
  {
    var pointer := "/" + head + rest;
    assert pointer[1..] == head + rest;
    SegmentOfConcat(head, rest);
    assert pointer[1 + |head|..] == rest;
  }

  /** Every list of keys survives being written as a path and read back. */
  lemma {:induction false} TokensOfPath(tokens: seq<string>)
    ensures Tokens(PathOf(tokens)) == Some(tokens)
  {
    if tokens != [] {
      var head, rest := Escape(tokens[0]), PathOf(tokens[1..]);
      EscapeHasNoSeparator(tokens[0]);
      UnescapeEscape(tokens[0]);
      TokensOfPath(tokens[1..]);
      TokensHead(head, rest);
      assert tokens == [tokens[0]] + tokens[1..];
    }
  }

  lemma {:induction false} PathOfAppend(tokens: seq<string>, key: string)
    ensures PathOf(tokens + [key]) == PathOf(tokens) + "/" + Escape(key)
  {
    if tokens == [] {
      assert [key][1..] == [];
      assert PathOf([key]) == "/" + Escape(key) + "";
    } else {
      assert (tokens + [key])[1..] == tokens[1..] + [key];
      PathOfAppend(tokens[1..], key);
    }
  }
}
