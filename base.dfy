// Shared vocabulary of the model: optional values and results, the whitespace
// rules behind `trimmingCharacters(in: .whitespacesAndNewlines)`, plain
// substring search, decimal rendering and UTF-8 encoding of strings.
module Base {

  datatype Option<+T> = None | Some(value: T) {
    function GetOr(default: T): T {
      match this
      case Some(v) => v
      case None => default
    }
  }

  datatype Result<+T, +E> = Ok(value: T) | Err(error: E)

  type Byte = b: int | 0 <= b < 256

  // ---------------------------------------------------------------------------
  // Whitespace and trimming

  /** Foundation's `whitespacesAndNewlines`: the Unicode White_Space
      characters (tab through carriage return, space, next line, no-break
      space, the Ogham space mark, the en quad through the hair space, the
      line and paragraph separators, the narrow no-break and medium
      mathematical spaces, and the ideographic space). */
  predicate IsWhitespace(c: char) {
    ('\t' <= c <= '\r') || c == ' ' || c == '\U{0085}' || c == '\U{00A0}'
    || c == '\U{1680}' || ('\U{2000}' <= c <= '\U{200A}')
    || c == '\U{2028}' || c == '\U{2029}' || c == '\U{202F}'
    || c == '\U{205F}' || c == '\U{3000}'
  }

  predicate AllWhitespace(s: string) {
    forall i :: 0 <= i < |s| ==> IsWhitespace(s[i])
  }

  /** Drops the leading whitespace. */
  function TrimStart(s: string): (r: string)
    ensures |r| <= |s|
    ensures r != [] ==> !IsWhitespace(r[0])
  {
    if s != [] && IsWhitespace(s[0]) then TrimStart(s[1..]) else s
  }

  /** What `TrimStart` keeps is a suffix of `s`, and only whitespace goes. */
  lemma {:induction false} TrimStartDropsWhitespace(s: string)
    ensures var r := TrimStart(s);
      r == s[|s| - |r|..] && AllWhitespace(s[..|s| - |r|])
  {
    if s != [] && IsWhitespace(s[0]) {
      TrimStartDropsWhitespace(s[1..]);
      var r := TrimStart(s);
      assert s[..|s| - |r|] == [s[0]] + s[1..][..|s| - 1 - |r|];
    }
  }

  /** Drops the trailing whitespace. */
  function TrimEnd(s: string): (r: string)
    ensures |r| <= |s|
    ensures r != [] ==> !IsWhitespace(r[|r| - 1])
  {
    if s != [] && IsWhitespace(s[|s| - 1]) then TrimEnd(s[..|s| - 1]) else s
  }

  /** What `TrimEnd` keeps is a prefix of `s`, and only whitespace goes. */
  lemma {:induction false} TrimEndDropsWhitespace(s: string)
    ensures var r := TrimEnd(s);
      r == s[..|r|] && AllWhitespace(s[|r|..])
  {
    if s != [] && IsWhitespace(s[|s| - 1]) {
      var init := s[..|s| - 1];
      TrimEndDropsWhitespace(init);
      var r := TrimEnd(s);
      assert s[|r|..] == init[|r|..] + [s[|s| - 1]];
    }
  }

  /** `trimmingCharacters(in: .whitespacesAndNewlines)`. */
  function Trim(s: string): (r: string)
    ensures |r| <= |s|
    ensures r != [] ==> !IsWhitespace(r[0]) && !IsWhitespace(r[|r| - 1])
  {
    TrimEndDropsWhitespace(TrimStart(s));
    TrimEnd(TrimStart(s))
  }

  /** Non-ASCII white space is trimmed too: a no-break space around a word
      and a lone line separator both go. */
  lemma UnicodeSpaceTrimmed()
    ensures Trim(" \U{00A0}hi\U{00A0}") == "hi"
    ensures IsBlank("\U{2028}")
  {
    assert TrimStart(" \U{00A0}hi\U{00A0}") == "hi\U{00A0}" by {
      assert " \U{00A0}hi\U{00A0}"[1..] == "\U{00A0}hi\U{00A0}";
      assert "\U{00A0}hi\U{00A0}"[1..] == "hi\U{00A0}";
    }
    assert TrimEnd("hi\U{00A0}") == "hi" by {
      assert "hi\U{00A0}"[..2] == "hi";
    }
    assert TrimStart("\U{2028}") == [] by {
      assert "\U{2028}"[1..] == [];
    }
  }

  /** The result of trimming is a contiguous piece of the input, and only
      whitespace was removed on either side. */
  lemma TrimIsInfix(s: string)
    ensures exists a, b :: 0 <= a <= b <= |s| && Trim(s) == s[a..b]
                           && AllWhitespace(s[..a]) && AllWhitespace(s[b..])
  {
    var t := TrimStart(s);
    TrimStartDropsWhitespace(s);
    TrimEndDropsWhitespace(t);
    var a := |s| - |t|;
    var b := a + |TrimEnd(t)|;
    assert Trim(s) == s[a..b];
    assert s[b..] == t[|TrimEnd(t)|..];
    assert AllWhitespace(s[..a]) && AllWhitespace(s[b..]);
  }

  predicate IsBlank(s: string) {
    Trim(s) == []
  }

  /** A string is blank exactly when every character is whitespace. */
  lemma {:induction false} BlankIffAllWhitespace(s: string)
    ensures IsBlank(s) <==> AllWhitespace(s)
  {
    var t := TrimStart(s);
    TrimStartDropsWhitespace(s);
    if t != [] {
      assert t[0] == s[|s| - |t|];
      var e := TrimEnd(t);
      TrimEndDropsWhitespace(t);
      assert t[0..] == t;
      assert !AllWhitespace(t);
      assert e != [];
    } else {
      assert s[..|s|] == s;
    }
  }

  /** A string that opens with a non-whitespace character is not blank. */
  lemma LeadingTextNotBlank(s: string, p: string)
    requires StartsWith(s, p) && p != [] && !IsWhitespace(p[0])
    ensures !IsBlank(s)
  {
    assert s[0] == s[..|p|][0];
    BlankIffAllWhitespace(s);
  }

  // ---------------------------------------------------------------------------
  // Substring search (`contains`, without case folding)

  predicate OccursAt(hay: string, needle: string, i: int) {
    0 <= i && i + |needle| <= |hay| && hay[i..i + |needle|] == needle
  }

  function Contains(hay: string, needle: string): (r: bool)
    ensures r <==> exists i :: OccursAt(hay, needle, i)
    decreases |hay|
  {
    if |needle| > |hay| then false
    else if hay[..|needle|] == needle then (assert OccursAt(hay, needle, 0); true)
    else
      var rest := Contains(hay[1..], needle);
      assert forall i :: OccursAt(hay[1..], needle, i) ==> OccursAt(hay, needle, i + 1) by {
        forall i | OccursAt(hay[1..], needle, i) ensures OccursAt(hay, needle, i + 1) {
          assert hay[i + 1..i + 1 + |needle|] == hay[1..][i..i + |needle|];
        }
      }
      assert forall i :: OccursAt(hay, needle, i) ==> i == 0 || OccursAt(hay[1..], needle, i - 1) by {
        forall i | OccursAt(hay, needle, i) && i != 0 ensures OccursAt(hay[1..], needle, i - 1) {
          forall k | 0 <= k < |needle| ensures hay[1..][i - 1..i - 1 + |needle|][k] == needle[k] {
            assert hay[i..i + |needle|][k] == needle[k];
          }
        }
      }
      rest
  }

  predicate StartsWith(s: string, p: string) {
    |p| <= |s| && s[..|p|] == p
  }

  lemma PrefixOfConcat(a: string, b: string)
    ensures StartsWith(a + b, a)
  {
    assert (a + b)[..|a|] == a;
  }

  // ---------------------------------------------------------------------------
  // Where the pieces of a concatenation sit

  /** Dropping the first piece of a three-piece concatenation. */
  lemma DropFirstPiece<T>(x: seq<T>, y: seq<T>, z: seq<T>)
    ensures (x + y + z)[|x|..] == y + z
  {
  }

  /** The empty sequence is a unit of concatenation. */
  lemma EmptyPrefix<T>(x: seq<T>)
    ensures [] + x == x
  {
  }

  lemma EmptySuffix<T>(x: seq<T>)
    ensures x + [] == x
  {
  }

  /** Concatenation is associative. */
  lemma AppendAssoc<T>(x: seq<T>, y: seq<T>, z: seq<T>)
    ensures x + (y + z) == x + y + z
  {
  }

  /** Regrouping the last three pieces of a five-piece concatenation. */
  lemma RegroupLastThree<T>(a: seq<T>, b: seq<T>, c: seq<T>, d: seq<T>, e: seq<T>)
    ensures a + b + (c + d + e) == a + b + c + d + e
  {
  }

  /** Regrouping a concatenation after its first piece. */
  lemma RegroupAfterFirst<T>(a: seq<T>, b: seq<T>, c: seq<T>, d: seq<T>, e: seq<T>)
    ensures a + b + c + d + e == a + (b + c + d + e)
  {
  }

  /** The second and third pieces of `w + x + y + z`, by position. */
  lemma InnerPieces<T>(w: seq<T>, x: seq<T>, y: seq<T>, z: seq<T>)
    ensures var s := w + x + y + z;
      && |w| + |x| + |y| <= |s|
      && s[|w|..|w| + |x|] == x
      && s[|w| + |x|..|w| + |x| + |y|] == y
  {
    var s := w + x + y + z;
    assert s[|w|..|w| + |x|] == (w + x)[|w|..];
    assert s[|w| + |x|..|w| + |x| + |y|] == (w + x + y)[|w| + |x|..];
  }

  /** The first piece of a two-piece prefix opens the whole concatenation. */
  lemma FirstOfFour<T>(p: seq<T>, q: seq<T>, x: seq<T>, y: seq<T>)
    ensures var s := p + q + x + y;
      |p| <= |s| && s[..|p|] == p
  {
    var s := p + q + x + y;
    assert s[..|p|] == (p + q)[..|p|];
  }

  /** The end of the two-piece prefix `f + h` of `f + h + x + y` is `h`. */
  lemma SecondOfFour<T>(f: seq<T>, h: seq<T>, x: seq<T>, y: seq<T>)
    ensures var s := f + h + x + y; var k := |f + h|;
      |h| <= k <= |s| && s[k - |h|..k] == h
  {
    var s := f + h + x + y;
    assert s[|f|..|f| + |h|] == (f + h)[|f|..];
  }

  /** When `s` is `w + x + e` with `e == y + z`, `x` and `y` follow `w`. */
  lemma MiddlePieces<T>(s: seq<T>, w: seq<T>, x: seq<T>, e: seq<T>, y: seq<T>, z: seq<T>)
    requires s == w + x + e && e == y + z
    ensures && |w| + |x| + |y| <= |s|
            && s[|w|..|w| + |x|] == x
            && s[|w| + |x|..|w| + |x| + |y|] == y
  {
    AppendAssoc(w + x, y, z);
    InnerPieces(w, x, y, z);
  }

  /** When `s` ends with `e == y + z`, it ends with `z`. */
  lemma EndsWithLastPiece<T>(s: seq<T>, a: seq<T>, x: seq<T>, e: seq<T>, y: seq<T>, z: seq<T>)
    requires s == a + x + e && e == y + z
    ensures |z| <= |s| && s[|s| - |z|..] == z
  {
  }

  predicate EndsWith(s: string, p: string) {
    |p| <= |s| && s[|s| - |p|..] == p
  }

  // ---------------------------------------------------------------------------
  // Decimal rendering (`"\(n)"` for an Int)

  predicate IsDigit(c: char) {
    '0' as int <= c as int <= '9' as int
  }

  function DigitChar(d: int): char
    requires 0 <= d < 10
  {
    "0123456789"[d]
  }

  function NatToString(n: nat): (r: string)
    ensures r != [] && forall i :: 0 <= i < |r| ==> IsDigit(r[i])
  {
    if n < 10 then [DigitChar(n)] else NatToString(n / 10) + [DigitChar(n % 10)]
  }

  function IntToString(n: int): string {
    if n < 0 then "-" + NatToString(-n) else NatToString(n)
  }

  /** The value a string of decimal digits denotes. */
  function DigitsValue(s: string): nat
    requires forall i :: 0 <= i < |s| ==> IsDigit(s[i])
  {
    if s == [] then 0
    else
      assert IsDigit(s[|s| - 1]);
      10 * DigitsValue(s[..|s| - 1]) + (s[|s| - 1] as int - '0' as int)
  }

  /** Reading back the decimal rendering gives the number. */
  lemma {:induction false} NatToStringRoundTrip(n: nat)
    ensures DigitsValue(NatToString(n)) == n
  {
    if n >= 10 {
      var s := NatToString(n);
      assert s[..|s| - 1] == NatToString(n / 10);
      NatToStringRoundTrip(n / 10);
    }
  }

  // ---------------------------------------------------------------------------
  // UTF-8 (`string.data(using: .utf8)`)

  function Utf8Char(c: char): (r: seq<Byte>)
    ensures 1 <= |r| <= 4
    ensures (c as int < 0x80) <==> |r| == 1
  {
    var n := c as int;
    if n < 0x80 then [n]
    else if n < 0x800 then [0xC0 + n / 0x40, 0x80 + n % 0x40]
    else if n < 0x10000 then [0xE0 + n / 0x1000, 0x80 + (n / 0x40) % 0x40, 0x80 + n % 0x40]
    else [0xF0 + n / 0x40000, 0x80 + (n / 0x1000) % 0x40, 0x80 + (n / 0x40) % 0x40, 0x80 + n % 0x40]
  }

  function Utf8(s: string): (r: seq<Byte>)
    ensures |r| >= |s|
  {
    if s == [] then [] else Utf8Char(s[0]) + Utf8(s[1..])
  }

  /** Encoding distributes over concatenation. */
  lemma {:induction false} Utf8Append(a: string, b: string)
    ensures Utf8(a + b) == Utf8(a) + Utf8(b)
  {
    if a != [] {
      assert (a + b)[0] == a[0];
      assert (a + b)[1..] == a[1..] + b;
      Utf8Append(a[1..], b);
    } else {
      assert a + b == b;
    }
  }

  /** Encoding a concatenation of three strings. */
  lemma Utf8Append3(a: string, b: string, c: string)
    ensures Utf8(a + b + c) == Utf8(a) + Utf8(b) + Utf8(c)
  {
    Utf8Append(a + b, c);
    Utf8Append(a, b);
  }
}
