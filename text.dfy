/**
 * String helpers shared by the models: character classes of Python and Go,
 * stripping, splitting on one separator and on whitespace runs, ASCII case
 * mapping, decimal numerals and the integer parsers of Python's `int()` and
 * Go's `strconv.Atoi`.
 */
module Text {
  import opened Wrappers

  type String = seq<char>

  // ---------------------------------------------------------------------
  // Character classes

  predicate IsAsciiDigit(c: char) { '0' <= c <= '9' }

  predicate AllDigits(s: String) { forall i :: 0 <= i < |s| ==> IsAsciiDigit(s[i]) }

  predicate IsAsciiLetter(c: char) { 'a' <= c <= 'z' || 'A' <= c <= 'Z' }

  /** Python's `str.isspace()`: ASCII 9-13 and 28-32, NEL, NBSP and the Unicode space separators. */
  predicate IsPySpace(c: char)
  {
    || 9 <= c as int <= 13 || 28 <= c as int <= 32
    || c as int == 0x85 || c as int == 0xA0 || c as int == 0x1680
    || 0x2000 <= c as int <= 0x200A
    || c as int == 0x2028 || c as int == 0x2029 || c as int == 0x202F
    || c as int == 0x205F || c as int == 0x3000
  }

  /** Go's `unicode.IsSpace`, which `strings.TrimSpace` uses. */
  predicate IsGoSpace(c: char)
  {
    || 9 <= c as int <= 13 || c as int == 32
    || c as int == 0x85 || c as int == 0xA0 || c as int == 0x1680
    || 0x2000 <= c as int <= 0x200A
    || c as int == 0x2028 || c as int == 0x2029 || c as int == 0x202F
    || c as int == 0x205F || c as int == 0x3000
  }

  /** The whitespace of Python's `bytes.split()`: space, \t, \n, \r, \x0b, \x0c. */
  predicate IsByteSpace(c: char) { 9 <= c as int <= 13 || c as int == 32 }

  // ---------------------------------------------------------------------
  // Prefixes, suffixes, substrings

  predicate StartsWith(s: String, p: String) { |p| <= |s| && s[..|p|] == p }

  predicate EndsWith(s: String, p: String) { |p| <= |s| && s[|s| - |p|..] == p }

  /** Ending with one character is a matter of the last character. */
  lemma {:induction false} EndsWithChar(s: String, c: char)
    ensures EndsWith(s, [c]) <==> s != [] && s[|s| - 1] == c
  {
    if s != [] {
      assert s[|s| - 1..] == [s[|s| - 1]];
    }
  }

  /** A string ending with a non-empty `t` ends with the last character of `t`. */
  lemma {:induction false} EndsWithLast(s: String, t: String)
    requires EndsWith(s, t) && t != []
    ensures s[|s| - 1] == t[|t| - 1]
  {
    assert s[|s| - |t|..][|t| - 1] == s[|s| - 1];
  }

  /** `p in s` for strings: p occurs at some position of s. */
  predicate Contains(s: String, p: String)
  {
    exists i | 0 <= i <= |s| - |p| :: OccursAt(s, p, i)
  }

  predicate OccursAt(s: String, p: String, i: int)
  {
    0 <= i <= |s| - |p| && s[i..i + |p|] == p
  }

  // ---------------------------------------------------------------------
  // Stripping

  /** The number of leading characters of s in the class ws. */
  function LeadingCount(s: String, ws: char -> bool): (n: nat)
    ensures n <= |s|
  {
    if s != [] && ws(s[0]) then 1 + LeadingCount(s[1..], ws) else 0
  }

  /** The number of trailing characters of s in the class ws. */
  function TrailingCount(s: String, ws: char -> bool): (n: nat)
    ensures n <= |s|
  {
    if s != [] && ws(s[|s| - 1]) then 1 + TrailingCount(s[..|s| - 1], ws) else 0
  }

  /** The leading run is all in the class and is followed by a character that is not. */
  lemma {:induction false} LeadingCountSpec(s: String, ws: char -> bool)
    ensures forall i :: 0 <= i < LeadingCount(s, ws) ==> ws(s[i])
    ensures LeadingCount(s, ws) < |s| ==> !ws(s[LeadingCount(s, ws)])
  {
    if s != [] && ws(s[0]) {
      LeadingCountSpec(s[1..], ws);
    }
  }

  /** The trailing run is all in the class and is preceded by a character that is not. */
  lemma {:induction false} TrailingCountSpec(s: String, ws: char -> bool)
    ensures forall i :: |s| - TrailingCount(s, ws) <= i < |s| ==> ws(s[i])
    ensures TrailingCount(s, ws) < |s| ==> !ws(s[|s| - TrailingCount(s, ws) - 1])
  {
    if s != [] && ws(s[|s| - 1]) {
      TrailingCountSpec(s[..|s| - 1], ws);
    }
  }

  /** A string whose first character is outside the class has no leading run. */
  lemma {:induction false} LeadingCountZero(s: String, ws: char -> bool)
    requires s != [] ==> !ws(s[0])
    ensures LeadingCount(s, ws) == 0
  {
  }

  lemma {:induction false} TrailingCountZero(s: String, ws: char -> bool)
    requires s != [] ==> !ws(s[|s| - 1])
    ensures TrailingCount(s, ws) == 0
  {
  }

  function TrimLeft(s: String, ws: char -> bool): String
  {
    s[LeadingCount(s, ws)..]
  }

  function TrimRight(s: String, ws: char -> bool): String
  {
    s[..|s| - TrailingCount(s, ws)]
  }

  /** Python's `str.strip()` / Go's `strings.TrimSpace`, for the given whitespace class. */
  function Strip(s: String, ws: char -> bool): String
  {
    TrimRight(TrimLeft(s, ws), ws)
  }

  /**
   * Stripping keeps a substring of s that neither starts nor ends with a
   * character of the class, and drops only characters of the class.
   */
  lemma {:induction false} StripSpec(s: String, ws: char -> bool)
    ensures var r := Strip(s, ws);
      && OccursAt(s, r, LeadingCount(s, ws)) && Contains(s, r)
      && (r != [] ==> !ws(r[0]) && !ws(r[|r| - 1]))
      && (forall i :: 0 <= i < LeadingCount(s, ws) ==> ws(s[i]))
      && (forall i :: LeadingCount(s, ws) + |r| <= i < |s| ==> ws(s[i]))
  {
    var n := LeadingCount(s, ws);
    var t := s[n..];
    LeadingCountSpec(s, ws);
    TrailingCountSpec(t, ws);
    var r := Strip(s, ws);
    assert r == s[n..n + |r|];
    assert OccursAt(s, r, n);
    if r != [] {
      assert r[0] == s[n];
    }
    forall i | n + |r| <= i < |s| ensures ws(s[i]) {
      assert s[i] == t[i - n];
    }
  }

  lemma {:induction false} StripOfUnpadded(s: String, ws: char -> bool)
    requires s != [] ==> !ws(s[0]) && !ws(s[|s| - 1])
    ensures Strip(s, ws) == s
  {
    LeadingCountZero(s, ws);
    TrailingCountZero(s, ws);
  }

  /** Stripping twice is stripping once. */
  lemma {:induction false} StripIdempotent(s: String, ws: char -> bool)
    ensures Strip(Strip(s, ws), ws) == Strip(s, ws)
  {
    StripSpec(s, ws);
    StripOfUnpadded(Strip(s, ws), ws);
  }

  /** Python's `str.strip(chars)` for a single character, as in `url.strip('"')`. */
  function StripChar(s: String, c: char): String
  {
    Strip(s, (x: char) => x == c)
  }

  // ---------------------------------------------------------------------
  // Splitting on one separator character: Python's `str.split(sep)` and Go's
  // `strings.Split(s, sep)` agree for a one-character separator.

  function Split(s: String, sep: char): (parts: seq<String>)
    ensures |parts| >= 1
    ensures forall k :: 0 <= k < |parts| ==> sep !in parts[k]
    decreases |s|
  {
    if s == [] then [[]]
    else if s[0] == sep then [[]] + Split(s[1..], sep)
    else
      var rest := Split(s[1..], sep);
      [[s[0]] + rest[0]] + rest[1..]
  }

  /** `sep.join(parts)`. */
  function Join(parts: seq<String>, sep: char): (s: String)
    decreases |parts|
  {
    if parts == [] then []
    else if |parts| == 1 then parts[0]
    else parts[0] + [sep] + Join(parts[1..], sep)
  }

  /** Joining the pieces of a split gives back the original string. */
  lemma {:induction false} JoinSplit(s: String, sep: char)
    ensures Join(Split(s, sep), sep) == s
    decreases |s|
  {
    if s == [] {
    } else if s[0] == sep {
      JoinSplit(s[1..], sep);
      var rest := Split(s[1..], sep);
      assert Split(s, sep) == [[]] + rest;
    } else {
      JoinSplit(s[1..], sep);
      var rest := Split(s[1..], sep);
      if |rest| == 1 {
        assert Split(s, sep) == [[s[0]] + rest[0]];
      } else {
        assert Split(s, sep)[1..] == rest[1..];
        assert [s[0]] + Join(rest, sep) == [s[0]] + rest[0] + [sep] + Join(rest[1..], sep);
      }
    }
  }

  lemma {:induction false} SplitNoSep(x: String, sep: char)
    requires sep !in x
    ensures Split(x, sep) == [x]
    decreases |x|
  {
    if x != [] {
      SplitNoSep(x[1..], sep);
      assert [x[0]] + x[1..] == x;
    }
  }

  lemma {:induction false} SplitAfterPiece(x: String, sep: char, y: String)
    requires sep !in x
    ensures Split(x + [sep] + y, sep) == [x] + Split(y, sep)
    decreases |x|
  {
    if x == [] {
      assert x + [sep] + y == [sep] + y;
      assert ([sep] + y)[1..] == y;
    } else {
      SplitAfterPiece(x[1..], sep, y);
      assert (x + [sep] + y)[1..] == x[1..] + [sep] + y;
      assert [x[0]] + x[1..] == x;
    }
  }

  /** Concatenation regrouped. */
  lemma {:induction false} Assoc<T>(u: seq<T>, v: seq<T>, w: seq<T>)
    ensures u + v + w == u + (v + w)
  {
  }

  /** Splitting at one separator splits each side on its own. */
  lemma {:induction false} SplitConcat(x: String, sep: char, y: String)
    ensures Split(x + [sep] + y, sep) == Split(x, sep) + Split(y, sep)
    decreases |x|
  {
    if x == [] {
      assert x + [sep] + y == [sep] + y;
      SplitCons(sep, y, sep);
    } else {
      var c := x[0];
      var rest := x[1..];
      var t := rest + [sep] + y;
      var xs := Split(rest, sep);
      var ys := Split(y, sep);
      assert Split(t, sep) == xs + ys by {
        SplitConcat(rest, sep, y);
      }
      assert Split(x + [sep] + y, sep) ==
             if c == sep then [[]] + Split(t, sep) else [[c] + Split(t, sep)[0]] + Split(t, sep)[1..] by {
        assert x + [sep] + y == [c] + t;
        SplitCons(c, t, sep);
      }
      assert Split(x, sep) == if c == sep then [[]] + xs else [[c] + xs[0]] + xs[1..] by {
        assert x == [c] + rest;
        SplitCons(c, rest, sep);
      }
      if c == sep {
        Assoc([[]], xs, ys);
      } else {
        ExtendHead(c, xs, ys);
      }
    }
  }

  /** Extending the first piece of `xs` before or after appending `ys`
    * comes to the same. */
  lemma {:induction false} ExtendHead(c: char, xs: seq<String>, ys: seq<String>)
    requires xs != []
    ensures [[c] + (xs + ys)[0]] + (xs + ys)[1..] == [[c] + xs[0]] + xs[1..] + ys
  {
    assert (xs + ys)[0] == xs[0] && (xs + ys)[1..] == xs[1..] + ys;
    Assoc([[c] + xs[0]], xs[1..], ys);
  }

  /** One step of `Split`, on a string with a known first character. */
  lemma {:induction false} SplitCons(c: char, t: String, sep: char)
    ensures Split([c] + t, sep) ==
            if c == sep then [[]] + Split(t, sep) else [[c] + Split(t, sep)[0]] + Split(t, sep)[1..]
  {
    assert ([c] + t)[1..] == t;
  }

  /** Splitting a join of separator-free pieces gives back the pieces. */
  lemma {:induction false} SplitJoin(parts: seq<String>, sep: char)
    requires |parts| >= 1
    requires forall k :: 0 <= k < |parts| ==> sep !in parts[k]
    ensures Split(Join(parts, sep), sep) == parts
    decreases |parts|
  {
    if |parts| == 1 {
      SplitNoSep(parts[0], sep);
    } else {
      SplitJoin(parts[1..], sep);
      SplitAfterPiece(parts[0], sep, Join(parts[1..], sep));
      assert [parts[0]] + parts[1..] == parts;
    }
  }

  /** A string without `c` is its own part before the first `c`. */
  lemma {:induction false} BeforeFirstWithout(s: String, c: char)
    requires c !in s
    ensures BeforeFirst(s, c) == s
  {
  }

  /** Everything before the first `c` of `a + b`, when `a` holds no `c` and `b` starts with one. */
  lemma {:induction false} BeforeFirstOfConcat(a: String, c: char, b: String)
    requires c !in a && b != [] && b[0] == c
    ensures BeforeFirst(a + b, c) == a
    decreases |a|
  {
    if a == [] {
      assert a + b == b;
    } else {
      BeforeFirstOfConcat(a[1..], c, b);
      assert (a + b)[1..] == a[1..] + b;
    }
  }

  /** A character other than the separator occurs in a join only if it occurs in a piece. */
  lemma {:induction false} JoinNoSep(parts: seq<String>, sep: char, c: char)
    requires c != sep
    requires forall k :: 0 <= k < |parts| ==> c !in parts[k]
    ensures c !in Join(parts, sep)
    decreases |parts|
  {
    if |parts| > 1 {
      JoinNoSep(parts[1..], sep, c);
    }
  }

  /** A join ends with the last character of its last piece. */
  lemma {:induction false} JoinLast(parts: seq<String>, sep: char)
    requires |parts| >= 1 && parts[|parts| - 1] != []
    ensures var j := Join(parts, sep); j != [] && j[|j| - 1] == parts[|parts| - 1][|parts[|parts| - 1]| - 1]
    decreases |parts|
  {
    if |parts| > 1 {
      JoinLast(parts[1..], sep);
    }
  }

  /** A join starts with the first character of its first piece. */
  lemma {:induction false} JoinFirst(parts: seq<String>, sep: char)
    requires |parts| >= 1 && parts[0] != []
    ensures var j := Join(parts, sep); j != [] && j[0] == parts[0][0]
  {
  }

  /** Appending a piece appends the separator and the piece. */
  lemma {:induction false} JoinAppend(parts: seq<String>, sep: char, x: String)
    requires parts != []
    ensures Join(parts + [x], sep) == Join(parts, sep) + [sep] + x
    decreases |parts|
  {
    if |parts| > 1 {
      JoinAppend(parts[1..], sep, x);
      assert (parts + [x])[1..] == parts[1..] + [x];
    }
  }

  /** `s.split(c, 1)[0]`: everything before the first `c`, or all of `s`. */
  function BeforeFirst(s: String, c: char): (r: String)
    ensures StartsWith(s, r) && c !in r
    ensures |r| < |s| ==> s[|r|] == c
  {
    if s == [] || s[0] == c then [] else [s[0]] + BeforeFirst(s[1..], c)
  }

  /** The piece before the first separator is the first piece of the split. */
  lemma {:induction false} BeforeFirstIsFirstPiece(s: String, c: char)
    ensures BeforeFirst(s, c) == Split(s, c)[0]
    decreases |s|
  {
    if s != [] && s[0] != c {
      BeforeFirstIsFirstPiece(s[1..], c);
    }
  }

  // ---------------------------------------------------------------------
  // Splitting on whitespace runs: Python's `str.split()` with no argument.

  /** Python's `s.split()`: the maximal runs of non-whitespace, in order. */
  function Words(s: String, ws: char -> bool): (words: seq<String>)
    decreases |s|
  {
    var n := LeadingCount(s, ws);
    if n == |s| then []
    else
      var t := s[n..];
      var m := LeadingCount(t, c => !ws(c));
      LeadingCountSpec(s, ws);
      assert m > 0 by { assert t[0] == s[n]; }
      [t[..m]] + Words(t[m..], ws)
  }

  /** A run of characters all in the class is counted whole. */
  lemma {:induction false} LeadingCountAll(s: String, ws: char -> bool)
    requires forall i :: 0 <= i < |s| ==> ws(s[i])
    ensures LeadingCount(s, ws) == |s|
    decreases |s|
  {
    if s != [] {
      LeadingCountAll(s[1..], ws);
    }
  }

  /** One word without whitespace splits to itself. */
  lemma {:induction false} WordsOfWord(w: String, ws: char -> bool)
    requires w != []
    requires forall i :: 0 <= i < |w| ==> !ws(w[i])
    ensures Words(w, ws) == [w]
  {
    LeadingCountZero(w, ws);
    LeadingCountAll(w, c => !ws(c));
    assert w[0..] == w;
    assert w[..|w|] == w;
  }

  // ---------------------------------------------------------------------
  // ASCII case mapping

  function LowerChar(c: char): char
  {
    if 'A' <= c <= 'Z' then (c as int + 32) as char else c
  }

  function UpperChar(c: char): char
  {
    if 'a' <= c <= 'z' then (c as int - 32) as char else c
  }

  function Lower(s: String): (r: String)
    ensures |r| == |s| && forall i :: 0 <= i < |s| ==> r[i] == LowerChar(s[i])
  {
    seq(|s|, i requires 0 <= i < |s| => LowerChar(s[i]))
  }

  function Upper(s: String): (r: String)
    ensures |r| == |s| && forall i :: 0 <= i < |s| ==> r[i] == UpperChar(s[i])
  {
    seq(|s|, i requires 0 <= i < |s| => UpperChar(s[i]))
  }

  /** Django's `icontains` with ASCII case folding. */
  predicate IContains(s: String, p: String) { Contains(Lower(s), Lower(p)) }

  // ---------------------------------------------------------------------
  // Decimal numerals

  function DigitValue(c: char): nat
    requires IsAsciiDigit(c)
  {
    c as int - '0' as int
  }

  function DigitChar(d: nat): (c: char)
    requires d < 10
    ensures IsAsciiDigit(c) && DigitValue(c) == d
  {
    ('0' as int + d) as char
  }

  /** The value of a string of ASCII digits, most significant first. */
  function DecimalValue(s: String): nat
    requires AllDigits(s)
  {
    if s == [] then 0 else 10 * DecimalValue(s[..|s| - 1]) + DigitValue(s[|s| - 1])
  }

  /** `str(n)` for a natural number. */
  function NatToDecimal(n: nat): (s: String)
    ensures s != [] && AllDigits(s)
    ensures |s| > 1 ==> s[0] != '0'
  {
    if n < 10 then [DigitChar(n)] else NatToDecimal(n / 10) + [DigitChar(n % 10)]
  }

  /** `str(i)` for an integer. */
  function IntToDecimal(i: int): (s: String)
  {
    if i < 0 then "-" + NatToDecimal(-i) else NatToDecimal(i)
  }

  /** Reading back a printed number gives the number. */
  lemma {:induction false} DecimalOfNatToDecimal(n: nat)
    ensures DecimalValue(NatToDecimal(n)) == n
  {
    if n >= 10 {
      DecimalOfNatToDecimal(n / 10);
      var s := NatToDecimal(n);
      assert s[..|s| - 1] == NatToDecimal(n / 10);
    }
  }

  /** A numeral of d digits is below 10^d. */
  function Pow10(d: nat): (p: nat)
    ensures p >= 1
  {
    if d == 0 then 1 else 10 * Pow10(d - 1)
  }

  lemma {:induction false} DecimalValueBound(s: String)
    requires AllDigits(s)
    ensures DecimalValue(s) < Pow10(|s|)
    decreases |s|
  {
    if s != [] {
      DecimalValueBound(s[..|s| - 1]);
    }
  }

  /** Printing the value of a numeral without a leading zero gives the numeral back. */
  lemma {:induction false} NatToDecimalOfValue(s: String)
    requires s != [] && AllDigits(s)
    requires |s| > 1 ==> s[0] != '0'
    ensures NatToDecimal(DecimalValue(s)) == s
    decreases |s|
  {
    var n := DecimalValue(s);
    var init := s[..|s| - 1];
    if |s| == 1 {
      assert n == DigitValue(s[0]);
    } else {
      assert init[0] == s[0];
      NatToDecimalOfValue(init);
      LeadingDigitPositive(init);
      assert n / 10 == DecimalValue(init);
      assert n % 10 == DigitValue(s[|s| - 1]);
      assert NatToDecimal(n) == NatToDecimal(n / 10) + [DigitChar(n % 10)];
      assert s == init + [s[|s| - 1]];
    }
  }

  lemma {:induction false} LeadingDigitPositive(s: String)
    requires s != [] && AllDigits(s) && s[0] != '0'
    ensures DecimalValue(s) >= 1
    decreases |s|
  {
    if |s| > 1 {
      assert s[..|s| - 1][0] == s[0];
      LeadingDigitPositive(s[..|s| - 1]);
    }
  }

  // ---------------------------------------------------------------------
  // Integer parsers

  /** The sign prefix shared by both parsers: returns (negative?, rest). */
  function SplitSign(s: String): (r: (bool, String))
    ensures r.1 == if s != [] && (s[0] == '+' || s[0] == '-') then s[1..] else s
    ensures r.0 <==> s != [] && s[0] == '-'
  {
    if s != [] && (s[0] == '+' || s[0] == '-') then (s[0] == '-', s[1..]) else (false, s)
  }

  /**
   * The digits of a Python decimal literal body: ASCII digits, where single
   * underscores may separate digits (`1_000`).
   */
  predicate PyDigitBody(b: String)
  {
    && b != [] && IsAsciiDigit(b[0]) && IsAsciiDigit(b[|b| - 1])
    && (forall i :: 0 <= i < |b| ==> IsAsciiDigit(b[i]) || b[i] == '_')
    && (forall i :: 0 <= i < |b| - 1 ==> !(b[i] == '_' && b[i + 1] == '_'))
  }

  function DropUnderscores(b: String): (r: String)
    requires forall i :: 0 <= i < |b| ==> IsAsciiDigit(b[i]) || b[i] == '_'
    ensures AllDigits(r)
  {
    if b == [] then []
    else if b[0] == '_' then DropUnderscores(b[1..])
    else [b[0]] + DropUnderscores(b[1..])
  }

  /** `int(s)` of Python on a `str` (base 10): None where Python raises `ValueError`. */
  function PyInt(s: String): (r: Option<int>)
    ensures r.Some? ==> Strip(s, IsPySpace) != []
  {
    var t := Strip(s, IsPySpace);
    var (neg, body) := SplitSign(t);
    if !PyDigitBody(body) then None
    else
      var v: int := DecimalValue(DropUnderscores(body));
      Some(if neg then -v else v)
  }

  /** Python's `int` reads back what `str` prints. */
  lemma {:induction false} PyIntOfDecimal(n: nat)
    ensures PyInt(NatToDecimal(n)) == Some(n)
  {
    var s := NatToDecimal(n);
    StripOfUnpadded(s, IsPySpace);
    DropUnderscoresOfDigits(s);
    DecimalOfNatToDecimal(n);
  }

  /** Python's `int` reads back a printed negative number. */
  lemma {:induction false} PyIntOfNegative(n: nat)
    requires n > 0
    ensures PyInt("-" + NatToDecimal(n)) == Some(-(n as int))
  {
    var d := NatToDecimal(n);
    var s := "-" + d;
    assert Strip(s, IsPySpace) == s by {
      assert IsAsciiDigit(d[|d| - 1]);
      assert s[|s| - 1] == d[|d| - 1];
      StripOfUnpadded(s, IsPySpace);
    }
    assert SplitSign(s) == (true, d) by {
      assert s[1..] == d;
    }
    assert PyDigitBody(d);
    assert DecimalValue(DropUnderscores(d)) == n by {
      DropUnderscoresOfDigits(d);
      DecimalOfNatToDecimal(n);
    }
  }

  /** Python's `int` reads back what `str` prints, for every integer. */
  lemma {:induction false} PyIntOfIntToDecimal(i: int)
    ensures PyInt(IntToDecimal(i)) == Some(i)
  {
    if i < 0 {
      PyIntOfNegative(-i);
    } else {
      PyIntOfDecimal(i);
    }
  }

  lemma {:induction false} DropUnderscoresOfDigits(s: String)
    requires AllDigits(s)
    ensures DropUnderscores(s) == s
    decreases |s|
  {
    if s != [] {
      DropUnderscoresOfDigits(s[1..]);
    }
  }

  const GoIntMin: int := -0x8000_0000_0000_0000
  const GoIntMax: int := 0x7FFF_FFFF_FFFF_FFFF

  /**
   * Go's `strconv.Atoi` on a 64-bit platform: an optional sign, then one or
   * more ASCII digits (no spaces, no underscores), and a value that fits an
   * `int`. None is the error return.
   */
  function Atoi(s: String): (r: Option<int>)
    ensures r.Some? ==> GoIntMin <= r.value <= GoIntMax
    ensures r.Some? ==> s != [] && (IsAsciiDigit(s[0]) || s[0] == '+' || s[0] == '-')
  {
    var (neg, body) := SplitSign(s);
    if body == [] || !AllDigits(body) then None
    else
      var v: int := if neg then -(DecimalValue(body) as int) else DecimalValue(body);
      if GoIntMin <= v <= GoIntMax then Some(v) else None
  }

  /** `uint32(x)` in Go: two's-complement truncation to 32 bits. */
  function ToUint32(x: int): (r: nat)
    ensures r < 0x1_0000_0000
    ensures 0 <= x < 0x1_0000_0000 ==> r == x
  {
    x % 0x1_0000_0000
  }
}
