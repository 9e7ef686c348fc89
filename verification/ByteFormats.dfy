/** Texts that are hashed: fields between delimiters, and fields behind their lengths. */
module ByteFormats {

  // ---- Delimiters ------------------------------------------------------------

  function IndexOf(s: string, c: char): nat {
    if s == "" || s[0] == c then 0 else 1 + IndexOf(s[1..], c)
  }

  lemma {:induction false} IndexOfDelimiter(a: string, x: string, c: char)
    requires c !in a
    ensures IndexOf(a + [c] + x, c) == |a|
    decreases |a|
  {
    var all := a + [c] + x;
    if a != "" {
      assert all[0] == a[0] && a[0] in a;
      assert all[1..] == a[1..] + [c] + x;
      IndexOfDelimiter(a[1..], x, c);
    }
  }

  /** A field that cannot contain the delimiter ends where the delimiter stands. */
  lemma SplitAtDelimiter(a: string, b: string, x: string, y: string, c: char)
    requires c !in a && c !in b && a + [c] + x == b + [c] + y
    ensures a == b && x == y
  {
    IndexOfDelimiter(a, x, c);
    IndexOfDelimiter(b, y, c);
    assert a == (a + [c] + x)[..|a|] && b == (b + [c] + y)[..|b|];
    assert x == (a + [c] + x)[|a| + 1..] && y == (b + [c] + y)[|b| + 1..];
  }

  function Join(parts: seq<string>): string {
    if parts == [] then ""
    else if |parts| == 1 then parts[0]
    else parts[0] + "/" + Join(parts[1..])
  }

  ghost predicate Plain(parts: seq<string>) { forall i | 0 <= i < |parts| :: '/' !in parts[i] }

  lemma {:induction false} JoinedSlash(parts: seq<string>)
    requires Plain(parts) && parts != []
    ensures '/' in Join(parts) <==> |parts| > 1
  {
    if |parts| > 1 { assert Join(parts)[|parts[0]|] == '/'; }
  }

  /** Components without separators can be read back from the joined name. */
  lemma {:induction false} JoinInjective(a: seq<string>, b: seq<string>)
    requires Plain(a) && Plain(b) && a != [] && b != [] && Join(a) == Join(b)
    ensures a == b
    decreases |a|
  {
    JoinedSlash(a);
    JoinedSlash(b);
    if |a| > 1 {
      assert '/' !in a[0] && '/' !in b[0];
      SplitAtDelimiter(a[0], b[0], Join(a[1..]), Join(b[1..]), '/');
      JoinInjective(a[1..], b[1..]);
      assert a == [a[0]] + a[1..] && b == [b[0]] + b[1..];
    } else {
      assert a == [a[0]] && b == [b[0]];
    }
  }

  // ---- Decimal numbers -------------------------------------------------------

  const DIGITS: string := "0123456789"

  function Decimal(n: nat): string {
    if n < 10 then [DIGITS[n]] else Decimal(n / 10) + [DIGITS[n % 10]]
  }

  lemma DigitsDiffer(i: nat, j: nat)
    requires i < 10 && j < 10 && DIGITS[i] == DIGITS[j]
    ensures i == j
  {
  }

  lemma {:induction false} DecimalIsDigits(n: nat)
    ensures Decimal(n) != "" && (|Decimal(n)| == 1 <==> n < 10) && forall c | c in Decimal(n) :: c in DIGITS
  {
    if n >= 10 {
      DecimalIsDigits(n / 10);
      assert DIGITS[n % 10] in DIGITS;
    } else {
      assert DIGITS[n] in DIGITS;
    }
  }

  lemma {:induction false} DecimalInjective(a: nat, b: nat)
    requires Decimal(a) == Decimal(b)
    ensures a == b
    decreases a + b
  {
    DecimalIsDigits(a);
    DecimalIsDigits(b);
    if a < 10 {
      DigitsDiffer(a, b);
    } else {
      var x, y := Decimal(a / 10), Decimal(b / 10);
      assert (x + [DIGITS[a % 10]])[|x|] == DIGITS[a % 10] && (y + [DIGITS[b % 10]])[|y|] == DIGITS[b % 10];
      DigitsDiffer(a % 10, b % 10);
      assert x == (x + [DIGITS[a % 10]])[..|x|] == (y + [DIGITS[b % 10]])[..|y|] == y;
      DecimalInjective(a / 10, b / 10);
    }
  }

  // ---- Lengths in front ------------------------------------------------------

  function Power(width: nat): nat {
    if width == 0 then 1 else 256 * Power(width - 1)
  }

  /** `width` bytes, the most significant first. */
  function BigEndian(width: nat, n: nat): (bytes: string)
    ensures |bytes| == width
  {
    if width == 0 then "" else BigEndian(width - 1, n / 256) + [(n % 256) as char]
  }

  lemma {:induction false} BigEndianInjective(width: nat, a: nat, b: nat)
    requires a < Power(width) && b < Power(width) && BigEndian(width, a) == BigEndian(width, b)
    ensures a == b
  {
    if width > 0 {
      var x, y := BigEndian(width - 1, a / 256), BigEndian(width - 1, b / 256);
      assert (x + [(a % 256) as char])[width - 1] == (a % 256) as char;
      assert (y + [(b % 256) as char])[width - 1] == (b % 256) as char;
      assert x == (x + [(a % 256) as char])[..width - 1] == (y + [(b % 256) as char])[..width - 1] == y;
      BigEndianInjective(width - 1, a / 256, b / 256);
    }
  }

  function Prefixed(width: nat, text: string): string { BigEndian(width, |text|) + text }

  /** A length in front says where the text ends, whatever follows. */
  lemma PrefixedInjective(width: nat, a: string, b: string, x: string, y: string)
    requires |a| < Power(width) && |b| < Power(width)
    requires Prefixed(width, a) + x == Prefixed(width, b) + y
    ensures a == b && x == y
  {
    var left, right := Prefixed(width, a) + x, Prefixed(width, b) + y;
    assert left[..width] == BigEndian(width, |a|) && right[..width] == BigEndian(width, |b|);
    BigEndianInjective(width, |a|, |b|);
    assert left[width..] == a + x && right[width..] == b + y;
    assert (a + x)[..|a|] == a && (b + y)[..|b|] == b;
    assert (a + x)[|a|..] == x && (b + y)[|b|..] == y;
  }

  // ---- Skill files -----------------------------------------------------------

  datatype SkillFile = SkillFile(path: string, content: string)

  const PATH_WIDTH: nat := 4
  const CONTENT_WIDTH: nat := 8

  /** Both lengths fit their prefixes. */
  predicate Fits(files: seq<SkillFile>) {
    forall i | 0 <= i < |files| :: |files[i].path| < Power(PATH_WIDTH) && |files[i].content| < Power(CONTENT_WIDTH)
  }

  function SkillText(files: seq<SkillFile>): string {
    if files == [] then ""
    else Prefixed(PATH_WIDTH, files[0].path) + (Prefixed(CONTENT_WIDTH, files[0].content) + SkillText(files[1..]))
  }

  /** Two lists of skill files with one text are the same list. */
  lemma {:induction false} SkillTextInjective(a: seq<SkillFile>, b: seq<SkillFile>)
    requires Fits(a) && Fits(b) && SkillText(a) == SkillText(b)
    ensures a == b
    decreases |a|
  {
    if a != [] && b != [] {
      var x := Prefixed(CONTENT_WIDTH, a[0].content) + SkillText(a[1..]);
      var y := Prefixed(CONTENT_WIDTH, b[0].content) + SkillText(b[1..]);
      PrefixedInjective(PATH_WIDTH, a[0].path, b[0].path, x, y);
      PrefixedInjective(CONTENT_WIDTH, a[0].content, b[0].content, SkillText(a[1..]), SkillText(b[1..]));
      SkillTextInjective(a[1..], b[1..]);
      assert a == [a[0]] + a[1..] && b == [b[0]] + b[1..];
    } else {
      assert a == [] ==> |SkillText(b)| == 0;
      assert b == [] ==> |SkillText(a)| == 0;
    }
  }
}
