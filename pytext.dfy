/**
 * The parts of Python's string and integer conventions that the bridge's
 * parsers depend on: `str.isspace`, `strip`, `split()`, `split(sep)`,
 * substring tests, ASCII case changes, `int(s, base)`, `str(n)` and `hex(n)`.
 */
module PyText {
  import opened Common

  // ---------------------------------------------------------------------------
  // Whitespace, stripping and splitting
  // ---------------------------------------------------------------------------

  /** `c.isspace()`: the ASCII whitespace, the separators 0x1C-0x1F and the Unicode spaces. */
  predicate IsSpace(c: char) {
    var n := c as int;
    (9 <= n <= 13) || (28 <= n <= 32) || n == 0x85 || n == 0xA0 || n == 0x1680
    || (0x2000 <= n <= 0x200A) || n == 0x2028 || n == 0x2029 || n == 0x202F
    || n == 0x205F || n == 0x3000
  }

  predicate NoSpace(s: string) {
    forall i :: 0 <= i < |s| ==> !IsSpace(s[i])
  }

  /** `s.lstrip()` */
  function LStrip(s: string): (r: string)
    ensures |r| <= |s| && r == s[|s| - |r|..]
    ensures r == [] || !IsSpace(r[0])
    ensures forall i :: 0 <= i < |s| - |r| ==> IsSpace(s[i])
  {
    if |s| > 0 && IsSpace(s[0]) then LStrip(s[1..]) else s
  }

  /** `s.rstrip()` */
  function RStrip(s: string): (r: string)
    ensures |r| <= |s| && r == s[..|r|]
    ensures r == [] || !IsSpace(r[|r| - 1])
    ensures forall i :: |r| <= i < |s| ==> IsSpace(s[i])
  {
    if |s| > 0 && IsSpace(s[|s| - 1]) then RStrip(s[..|s| - 1]) else s
  }

  /** `s.strip()` */
  function Strip(s: string): string {
    RStrip(LStrip(s))
  }

  lemma StripNoSpace(s: string)
    requires NoSpace(s)
    ensures Strip(s) == s
  {
  }

  /** Index one past the run of non-space characters that starts at `i`. */
  function TokenEnd(s: string, i: nat): (j: nat)
    requires i <= |s|
    ensures i <= j <= |s|
    ensures forall k :: i <= k < j ==> !IsSpace(s[k])
    ensures j == |s| || IsSpace(s[j])
    decreases |s| - i
  {
    if i == |s| || IsSpace(s[i]) then i else TokenEnd(s, i + 1)
  }

  /** `s.split()`: the maximal runs of non-whitespace characters, in order. */
  function Split(s: string): seq<string>
    decreases |s|
  {
    var t := LStrip(s);
    if t == [] then []
    else
      FirstWord(t);
      var n := TokenEnd(t, 0);
      [t[..n]] + Split(t[n..])
  }

  lemma FirstWord(t: string)
    requires t != [] && !IsSpace(t[0])
    ensures 1 <= TokenEnd(t, 0) && t[..TokenEnd(t, 0)] != [] && NoSpace(t[..TokenEnd(t, 0)])
  {
  }

  /** Every piece `split()` returns is a non-empty run of non-whitespace characters. */
  lemma {:induction false} SplitPieces(s: string)
    ensures forall k :: 0 <= k < |Split(s)| ==> Split(s)[k] != [] && NoSpace(Split(s)[k])
    decreases |s|
  {
    var t := LStrip(s);
    if t != [] {
      FirstWord(t);
      var n := TokenEnd(t, 0);
      SplitPieces(t[n..]);
      var r := Split(s);
      assert r == [t[..n]] + Split(t[n..]);
      forall k | 0 <= k < |r| ensures r[k] != [] && NoSpace(r[k]) {
        if k > 0 { assert r[k] == Split(t[n..])[k - 1]; }
      }
    }
  }

  /** `" ".join(ts)` */
  function JoinSpace(ts: seq<string>): string {
    if |ts| == 0 then ""
    else if |ts| == 1 then ts[0]
    else ts[0] + " " + JoinSpace(ts[1..])
  }

  lemma SplitSkipsSpace(c: char, s: string)
    requires IsSpace(c)
    ensures Split([c] + s) == Split(s)
  {
    assert ([c] + s)[1..] == s;
  }

  lemma {:induction false} TokenEndOfWord(w: string, rest: string, i: nat)
    requires i <= |w|
    requires NoSpace(w)
    requires rest == [] || IsSpace(rest[0])
    ensures TokenEnd(w + rest, i) == |w|
    decreases |w| - i
  {
    var s := w + rest;
    if i < |w| {
      assert s[i] == w[i];
      TokenEndOfWord(w, rest, i + 1);
    } else if rest != [] {
      assert s[i] == rest[0];
    }
  }

  lemma SplitWord(w: string)
    requires w != [] && NoSpace(w)
    ensures Split(w) == [w]
  {
    TokenEndOfWord(w, "", 0);
    assert w + "" == w;
    assert w[|w|..] == [];
  }

  lemma SplitWordThen(w: string, rest: string)
    requires w != [] && NoSpace(w)
    ensures Split(w + " " + rest) == [w] + Split(rest)
  {
    var s := w + " " + rest;
    assert s == w + (" " + rest);
    assert LStrip(s) == s by { assert s[0] == w[0]; }
    TokenEndOfWord(w, " " + rest, 0);
    assert s[..|w|] == w;
    assert s[|w|..] == [' '] + rest;
    SplitSkipsSpace(' ', rest);
  }

  /** Splitting a space-joined list of words gives the words back. */
  lemma {:induction false} SplitJoinSpace(ts: seq<string>)
    requires forall k :: 0 <= k < |ts| ==> ts[k] != [] && NoSpace(ts[k])
    ensures Split(JoinSpace(ts)) == ts
  {
    if |ts| == 1 {
      SplitWord(ts[0]);
      assert ts == [ts[0]];
    } else if |ts| > 1 {
      var tail := ts[1..];
      assert forall k :: 0 <= k < |tail| ==> tail[k] != [] && NoSpace(tail[k]) by {
        forall k | 0 <= k < |tail| ensures tail[k] != [] && NoSpace(tail[k]) {
          assert tail[k] == ts[k + 1];
        }
      }
      SplitJoinSpace(tail);
      SplitJoinStep(ts);
    }
  }

  lemma SplitJoinStep(ts: seq<string>)
    requires |ts| > 1 && ts[0] != [] && NoSpace(ts[0])
    requires Split(JoinSpace(ts[1..])) == ts[1..]
    ensures Split(JoinSpace(ts)) == ts
  {
    SplitWordThen(ts[0], JoinSpace(ts[1..]));
    assert ts == [ts[0]] + ts[1..];
  }



  // ---------------------------------------------------------------------------
  // Substrings and separators
  // ---------------------------------------------------------------------------

  /** `sub in s` for strings. */
  predicate Contains(s: string, sub: string)
    decreases |s|
  {
    sub <= s || (|s| > 0 && Contains(s[1..], sub))
  }

  /** Index of the first occurrence of `c`, as `s.find(c)` when it is not -1. */
  function IndexOf(s: string, c: char): (r: Option<nat>)
    ensures r.None? <==> c !in s
    ensures r.Some? ==> r.value < |s| && s[r.value] == c && c !in s[..r.value]
  {
    if |s| == 0 then None
    else if s[0] == c then Some(0)
    else match IndexOf(s[1..], c)
      case None => None
      case Some(i) => Some(i + 1)
  }

  /** `s.split(sep)` for a one-character separator. */
  function SplitOn(s: string, sep: char): (r: seq<string>)
    ensures |r| >= 1
    ensures sep in s ==> |r| >= 2
    ensures forall k :: 0 <= k < |r| ==> sep !in r[k]
    decreases |s|
  {
    match IndexOf(s, sep)
    case None => [s]
    case Some(i) => [s[..i]] + SplitOn(s[i + 1..], sep)
  }

  /** `s.split(sep, 1)[1]`: everything after the first `sep` (the caller checks that there is one). */
  function AfterFirst(s: string, sep: char): (r: string)
    requires sep in s
    ensures exists i :: 0 <= i < |s| && s[i] == sep && sep !in s[..i] && r == s[i + 1..]
  {
    var i := IndexOf(s, sep).value;
    s[i + 1..]
  }

  lemma {:induction false} IndexOfFirst(a: string, rest: string, c: char)
    requires c !in a
    ensures IndexOf(a + [c] + rest, c) == Some(|a|)
  {
    var s := a + [c] + rest;
    if a != [] {
      assert s[0] == a[0];
      assert s[1..] == a[1..] + [c] + rest;
      IndexOfFirst(a[1..], rest, c);
    }
  }

  lemma SplitOnSecondPiece(a: string, b: string, sep: char)
    requires sep !in a && sep !in b
    ensures SplitOn(a + [sep] + b, sep) == [a, b]
  {
    var s := a + [sep] + b;
    IndexOfFirst(a, b, sep);
    assert s[..|a|] == a;
    assert s[|a| + 1..] == b;
  }

  // ---------------------------------------------------------------------------
  // Case changes (ASCII letters; every other character is left as it is)
  // ---------------------------------------------------------------------------

  function LowerChar(c: char): char {
    if 'A' <= c <= 'Z' then (c as int + 32) as char else c
  }

  function UpperChar(c: char): char {
    if 'a' <= c <= 'z' then (c as int - 32) as char else c
  }

  /** `s.lower()` */
  function Lower(s: string): (r: string)
    ensures |r| == |s| && forall i :: 0 <= i < |s| ==> r[i] == LowerChar(s[i])
  {
    if s == [] then [] else [LowerChar(s[0])] + Lower(s[1..])
  }

  /** `s.upper()` */
  function Upper(s: string): (r: string)
    ensures |r| == |s| && forall i :: 0 <= i < |s| ==> r[i] == UpperChar(s[i])
  {
    if s == [] then [] else [UpperChar(s[0])] + Upper(s[1..])
  }

  /** `s.capitalize()`: first character upper case, the rest lower case. */
  function Capitalize(s: string): (r: string)
    ensures |r| == |s|
  {
    if s == [] then [] else [UpperChar(s[0])] + Lower(s[1..])
  }

  // ---------------------------------------------------------------------------
  // int(s, base), str(n) and hex(n)
  // ---------------------------------------------------------------------------

  /** Value of a hexadecimal digit of either case. */
  function DigitValue(c: char): (d: Option<nat>)
    ensures d.Some? ==> d.value < 16
  {
    if '0' <= c <= '9' then Some(c as int - '0' as int)
    else if 'a' <= c <= 'f' then Some(c as int - 'a' as int + 10)
    else if 'A' <= c <= 'F' then Some(c as int - 'A' as int + 10)
    else None
  }

  predicate IsDigit(c: char, base: nat) {
    DigitValue(c).Some? && DigitValue(c).value < base
  }

  /**
   * A digit string as `int` accepts it: digits and underscores, a digit at
   * both ends, and never two underscores in a row.
   */
  predicate ValidDigits(v: string, base: nat) {
    && |v| > 0
    && IsDigit(v[0], base)
    && IsDigit(v[|v| - 1], base)
    && (forall i :: 0 <= i < |v| ==> IsDigit(v[i], base) || v[i] == '_')
    && (forall i, j :: 0 <= i < |v| && 0 <= j < |v| && j == i + 1 && v[i] == '_' ==> v[j] != '_')
  }

  /** The number a digit string denotes; underscores carry no value. */
  function DigitsValue(v: string, base: nat): nat {
    if v == [] then 0
    else
      var c := v[|v| - 1];
      if IsDigit(c, base) then DigitsValue(v[..|v| - 1], base) * base + DigitValue(c).value
      else DigitsValue(v[..|v| - 1], base)
  }

  /** The text after an optional `0x`/`0X` prefix (base 16 only) and the one `_` allowed after it. */
  function DropPrefix(u: string, base: nat): string {
    if base == 16 && |u| >= 2 && u[0] == '0' && (u[1] == 'x' || u[1] == 'X') then
      var w := u[2..];
      if |w| > 0 && w[0] == '_' then w[1..] else w
    else u
  }

  /**
   * Python's `int(s, base)` for base 10 and base 16: surrounding whitespace,
   * an optional sign, for base 16 an optional `0x` prefix, then digits with
   * single underscores between them. `None` is the `ValueError`.
   */
  function ParseInt(s: string, base: nat): (r: Option<int>)
    requires base == 10 || base == 16
  {
    ParseStripped(Strip(s), base)
  }

  /** `int(t, base)` once the surrounding whitespace is gone. */
  function ParseStripped(t: string, base: nat): Option<int>
    requires base == 10 || base == 16
  {
    var neg := |t| > 0 && t[0] == '-';
    var u := if |t| > 0 && (t[0] == '-' || t[0] == '+') then t[1..] else t;
    var v := DropPrefix(u, base);
    if ValidDigits(v, base) then
      var n: int := DigitsValue(v, base);
      Some(if neg then -n else n)
    else None
  }

  /** Lower-case digit character for a value below 16. */
  function DigitChar(d: nat): (c: char)
    requires d < 16
    ensures DigitValue(c) == Some(d)
  {
    if d < 10 then ('0' as int + d) as char else ('a' as int + d - 10) as char
  }

  /** The digits of `n` in `base`, most significant first, without leading zeros. */
  function NatDigits(n: nat, base: nat): (r: string)
    requires base == 10 || base == 16
    ensures |r| >= 1 && forall i :: 0 <= i < |r| ==> IsDigit(r[i], base)
    ensures DigitsValue(r, base) == n
  {
    if n < base then [DigitChar(n)]
    else
      var r := NatDigits(n / base, base) + [DigitChar(n % base)];
      assert r[..|r| - 1] == NatDigits(n / base, base);
      r
  }

  /** Python's `str(n)` for an integer. */
  function IntToString(n: int): string {
    if n < 0 then "-" + NatDigits(-n, 10) else NatDigits(n, 10)
  }

  /** Python's `hex(n)`: `0x` and lower-case digits, `-0x` for negative numbers. */
  function Hex(n: int): string {
    if n < 0 then "-" + ("0x" + NatDigits(-n, 16)) else "0x" + NatDigits(n, 16)
  }

  lemma DigitsAreValid(r: string, base: nat)
    requires |r| >= 1 && forall i :: 0 <= i < |r| ==> IsDigit(r[i], base)
    ensures ValidDigits(r, base)
  {
  }

  lemma DigitsHaveNoSpace(r: string, base: nat)
    requires forall i :: 0 <= i < |r| ==> IsDigit(r[i], base)
    ensures NoSpace(r)
  {
    forall i | 0 <= i < |r| ensures !IsSpace(r[i]) {
      assert IsDigit(r[i], base);
    }
  }

  /** `int(str(n))` is `n`. */
  lemma ParseIntToString(n: int)
    ensures ParseInt(IntToString(n), 10) == Some(n)
  {
    var m: nat := if n < 0 then -n else n;
    var d := NatDigits(m, 10);
    DigitsHaveNoSpace(d, 10);
    DigitsAreValid(d, 10);
    if n < 0 {
      ParseNegative(d, 10);
    } else {
      assert IsDigit(d[0], 10);
      ParseUnsigned(d, 10);
    }
  }

  /** A string without whitespace or sign parses to the value of its digits. */
  lemma ParseUnsigned(s: string, base: nat)
    requires base == 10 || base == 16
    requires NoSpace(s) && |s| > 0 && s[0] != '-' && s[0] != '+'
    requires ValidDigits(DropPrefix(s, base), base)
    ensures ParseInt(s, base) == Some(DigitsValue(DropPrefix(s, base), base) as int)
  {
    StripNoSpace(s);
  }

  /** A minus sign followed by an unsigned literal parses to minus that literal's value. */
  lemma ParseNegative(t: string, base: nat)
    requires base == 10 || base == 16
    requires NoSpace(t) && |t| > 0
    requires ValidDigits(DropPrefix(t, base), base)
    ensures ParseInt("-" + t, base) == Some(-(DigitsValue(DropPrefix(t, base), base) as int))
  {
    SignedNoSpace(t);
    StripNoSpace("-" + t);
    NegativeStripped(t, base);
  }

  lemma NegativeStripped(t: string, base: nat)
    requires base == 10 || base == 16
    requires ValidDigits(DropPrefix(t, base), base)
    ensures ParseStripped("-" + t, base) == Some(-(DigitsValue(DropPrefix(t, base), base) as int))
  {
    var s := "-" + t;
    assert s[0] == '-' && s[1..] == t;
  }

  lemma SignedNoSpace(t: string)
    requires NoSpace(t)
    ensures NoSpace("-" + t)
  {
    var s := "-" + t;
    forall i | 0 <= i < |s| ensures !IsSpace(s[i]) {
      if i >= 1 { assert s[i] == t[i - 1]; }
    }
  }


  lemma HexPrefixDropped(d: string)
    requires |d| >= 1 && IsDigit(d[0], 16)
    ensures DropPrefix("0x" + d, 16) == d
  {
    assert ("0x" + d)[2..] == d;
  }

  /** An unsigned `0x` literal parses to its digits' value. */
  lemma ParseHexLiteral(d: string)
    requires |d| >= 1 && forall i :: 0 <= i < |d| ==> IsDigit(d[i], 16)
    ensures ParseInt("0x" + d, 16) == Some(DigitsValue(d, 16) as int)
  {
    var s := "0x" + d;
    HexLiteralNoSpace(d);
    HexPrefixDropped(d);
    DigitsAreValid(d, 16);
    ParseUnsigned(s, 16);
  }

  /** The text of an unsigned `0x` literal has no whitespace. */
  lemma HexLiteralNoSpace(d: string)
    requires forall i :: 0 <= i < |d| ==> IsDigit(d[i], 16)
    ensures NoSpace("0x" + d)
  {
    var t := "0x" + d;
    DigitsHaveNoSpace(d, 16);
    forall i | 0 <= i < |t| ensures !IsSpace(t[i]) {
      if i >= 2 { assert t[i] == d[i - 2]; }
    }
  }

  /** `int(hex(n), 16)` is `n`: the address the scanner prints reads back as the same number. */
  lemma ParseIntHex(n: int)
    ensures ParseInt(Hex(n), 16) == Some(n)
  {
    if n < 0 {
      var d := NatDigits(-n, 16);
      HexLiteralNoSpace(d);
      HexPrefixDropped(d);
      DigitsAreValid(d, 16);
      ParseNegative("0x" + d, 16);
    } else {
      ParseHexLiteral(NatDigits(n, 16));
    }
  }

  // ---------------------------------------------------------------------------
  // Facts used to read back the lines one component prints for another
  // ---------------------------------------------------------------------------

  /** A substring holding a character that `s` lacks is not in `s`. */
  lemma {:induction false} MissingCharNotContained(s: string, sub: string, c: char)
    requires c in sub && c !in s
    ensures !Contains(s, sub)
    decreases |s|
  {
    var i :| 0 <= i < |sub| && sub[i] == c;
    assert !(sub <= s) by {
      if i < |s| { assert s[i] != c; }
    }
    if |s| > 0 {
      assert forall k :: 0 <= k < |s| - 1 ==> s[1..][k] == s[k + 1];
      MissingCharNotContained(s[1..], sub, c);
    }
  }

  lemma PrefixContained(p: string, rest: string)
    ensures Contains(p + rest, p)
  {
    assert p <= p + rest;
  }

  /** Text that starts and ends with a non-space is its own `strip()`. */
  lemma StripEnds(s: string)
    requires s != [] && !IsSpace(s[0]) && !IsSpace(s[|s| - 1])
    ensures Strip(s) == s
  {
    assert LStrip(s) == s;
  }

  lemma StripLeadingSpace(t: string)
    requires t != [] && NoSpace(t)
    ensures Strip(" " + t) == t
  {
    var s := " " + t;
    assert s[1..] == t;
    assert LStrip(s) == LStrip(t) == t;
    StripNoSpace(t);
  }

  /** `int(" " + t)` is `int(t)`: `int` ignores surrounding whitespace. */
  lemma ParseIntLeadingSpace(t: string, base: nat)
    requires base == 10 || base == 16
    requires t != [] && NoSpace(t)
    ensures ParseInt(" " + t, base) == ParseInt(t, base)
  {
    StripLeadingSpace(t);
    StripNoSpace(t);
    assert ParseInt(" " + t, base) == ParseStripped(t, base);
  }

  lemma SplitOnFirst(a: string, rest: string, sep: char)
    requires sep !in a
    ensures SplitOn(a + [sep] + rest, sep) == [a] + SplitOn(rest, sep)
  {
    var s := a + [sep] + rest;
    IndexOfFirst(a, rest, sep);
    assert s[..|a|] == a;
    assert s[|a| + 1..] == rest;
  }

  lemma SplitOnThree(a: string, b: string, c: string, sep: char)
    requires sep !in a && sep !in b && sep !in c
    ensures SplitOn(a + [sep] + (b + [sep] + c), sep) == [a, b, c]
  {
    SplitOnFirst(a, b + [sep] + c, sep);
    SplitOnSecondPiece(b, c, sep);
    assert [a] + [b, c] == [a, b, c];
  }

  /** `str(n)` is a non-empty run of digits, after an optional `-`. */
  lemma IntToStringChars(n: int)
    ensures IntToString(n) != []
    ensures forall i :: 0 <= i < |IntToString(n)| ==> IntToString(n)[i] == '-' || IsDigit(IntToString(n)[i], 10)
  {
    var m: nat := if n < 0 then -n else n;
    var d := NatDigits(m, 10);
    var s := IntToString(n);
    if n < 0 {
      forall i | 0 <= i < |s| ensures s[i] == '-' || IsDigit(s[i], 10) {
        if i > 0 { assert s[i] == d[i - 1]; }
      }
    }
  }

  /** `hex(n)` is made of `-`, `x` and hexadecimal digits. */
  lemma HexChars(n: int)
    ensures Hex(n) != []
    ensures forall i :: 0 <= i < |Hex(n)| ==> Hex(n)[i] == '-' || Hex(n)[i] == 'x' || IsDigit(Hex(n)[i], 16)
  {
    var m: nat := if n < 0 then -n else n;
    var d := NatDigits(m, 16);
    var h := Hex(n);
    var k := if n < 0 then 3 else 2;
    assert h[k..] == d;
    forall i | 0 <= i < |h| ensures h[i] == '-' || h[i] == 'x' || IsDigit(h[i], 16) {
      if i >= k { assert h[i] == d[i - k]; }
    }
  }
}
