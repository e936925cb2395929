/** The small parts of Python's `str` and `re` behaviour that the two hook
    scripts rely on: character classes, `str.strip()`, the `$` anchor, literal
    matching under `re.IGNORECASE`, `str.join`, `str.split` and `str(int)`. */
module PyText {

  datatype Option<T> = None | Some(value: T)

  predicate IsAsciiLetter(c: char) { 'a' <= c <= 'z' || 'A' <= c <= 'Z' }

  predicate IsAsciiDigit(c: char) { '0' <= c <= '9' }

  /** The characters `str.strip()` removes when called without an argument:
      Python's notion of whitespace (`str.isspace`). */
  predicate IsSpace(c: char) {
    c == ' ' || '\t' <= c <= '\r' || '\U{1C}' <= c <= '\U{1F}'
    || c == '\U{85}' || c == '\U{A0}' || c == '\U{1680}'
    || '\U{2000}' <= c <= '\U{200A}' || c == '\U{2028}' || c == '\U{2029}'
    || c == '\U{202F}' || c == '\U{205F}' || c == '\U{3000}'
  }

  /** `s.lstrip()`. */
  function LStrip(s: string): (r: string)
    ensures |r| <= |s|
  {
    if s != [] && IsSpace(s[0]) then LStrip(s[1..]) else s
  }

  /** `s.rstrip()`. */
  function RStrip(s: string): (r: string)
    ensures |r| <= |s|
  {
    if s != [] && IsSpace(s[|s| - 1]) then RStrip(s[..|s| - 1]) else s
  }

  /** `s.strip()`. */
  function Strip(s: string): string
  {
    RStrip(LStrip(s))
  }

  /** lstrip drops the leading whitespace and nothing else. */
  lemma {:induction false} LStripShape(s: string)
    ensures var r := LStrip(s); |r| <= |s| && r == s[|s| - |r|..]
    ensures forall i :: 0 <= i < |s| - |LStrip(s)| ==> IsSpace(s[i])
    ensures LStrip(s) == [] || !IsSpace(LStrip(s)[0])
  {
    if s != [] && IsSpace(s[0]) {
      LStripShape(s[1..]);
    }
  }

  /** rstrip drops the trailing whitespace and nothing else. */
  lemma {:induction false} RStripShape(s: string)
    ensures var r := RStrip(s); |r| <= |s| && r == s[..|r|]
    ensures forall i :: |RStrip(s)| <= i < |s| ==> IsSpace(s[i])
    ensures RStrip(s) == [] || !IsSpace(RStrip(s)[|RStrip(s)| - 1])
  {
    if s != [] && IsSpace(s[|s| - 1]) {
      RStripShape(s[..|s| - 1]);
    }
  }

  /** strip leaves the slice of `s` starting at `a`, the length of the
      leading whitespace: it neither starts nor ends with whitespace, and
      everything around it is whitespace. */
  lemma StripShape(s: string)
    ensures var r, a := Strip(s), |s| - |LStrip(s)|;
      a + |r| <= |s| && r == s[a..a + |r|]
      && (forall i :: 0 <= i < a ==> IsSpace(s[i]))
      && (forall i :: a + |r| <= i < |s| ==> IsSpace(s[i]))
      && (r == [] || (!IsSpace(r[0]) && !IsSpace(r[|r| - 1])))
  {
    var l := LStrip(s);
    var a := |s| - |l|;
    LStripShape(s);
    RStripShape(l);
    SliceOfSuffix(s, a, |RStrip(l)|);
    TrailingSpaceOfSuffix(s, a, |RStrip(l)|);
  }

  lemma SliceOfSuffix(s: string, a: nat, n: nat)
    requires a + n <= |s|
    ensures s[a..][..n] == s[a..a + n]
  {
  }

  lemma TrailingSpaceOfSuffix(s: string, a: nat, n: nat)
    requires a + n <= |s|
    requires forall i :: n <= i < |s[a..]| ==> IsSpace(s[a..][i])
    ensures forall i :: a + n <= i < |s| ==> IsSpace(s[i])
  {
    forall i | a + n <= i < |s| ensures IsSpace(s[i]) {
      assert s[i] == s[a..][i - a];
    }
  }

  /** Stripping leaves nothing exactly when the line is all whitespace, so a
      blank or whitespace-only line reads as the empty response. */
  lemma StripEmptyIffAllSpace(s: string)
    ensures Strip(s) == "" <==> forall i :: 0 <= i < |s| ==> IsSpace(s[i])
  {
    StripShape(s);
    var r := Strip(s);
    if r != "" {
      assert r[0] == s[|s| - |LStrip(s)|];
    }
  }

  /** A string that neither starts nor ends with whitespace is left as is. */
  lemma StripUnpadded(s: string)
    requires s == [] || (!IsSpace(s[0]) && !IsSpace(s[|s| - 1]))
    ensures Strip(s) == s
  {
  }

  /** Python's `$` without the MULTILINE flag matches at position `j` of `s`:
      at the very end, or just before a final newline. */
  predicate DollarAt(s: string, j: nat) {
    j == |s| || (j + 1 == |s| && s[j] == '\n')
  }

  /** Whether the lower-case letter `p` of a pattern compiled with
      `re.IGNORECASE` matches the character `c`. Besides its upper-case form,
      the pattern letter `s` also matches U+017F (LATIN SMALL LETTER LONG S),
      whose upper case is `S`; the other letters the hooks use (`y`, `e`, `n`,
      `o`) have no such extra partner. */
  predicate MatchesIgnoreCase(p: char, c: char)
    requires p == 'y' || p == 'e' || p == 's' || p == 'n' || p == 'o'
  {
    c == p || c as int == p as int - 32 || (p == 's' && c == '\U{17F}')
  }

  /** Case folding as the regular-expression engine applies it to the
      characters that can stand for a small ASCII letter: capitals become
      small letters, U+017F becomes `s`, everything else is left as is. */
  function Fold(c: char): char {
    if 'A' <= c <= 'Z' then (c as int + 32) as char
    else if c == '\U{17F}' then 's'
    else c
  }

  function FoldAll(s: string): (r: string)
    ensures |r| == |s| && forall i :: 0 <= i < |s| ==> r[i] == Fold(s[i])
  {
    seq(|s|, i requires 0 <= i < |s| => Fold(s[i]))
  }

  /** A pattern letter matches `c` under `re.IGNORECASE` iff `c` folds to it. */
  lemma MatchesIgnoreCaseIsFold(p: char, c: char)
    requires p == 'y' || p == 'e' || p == 's' || p == 'n' || p == 'o'
    ensures MatchesIgnoreCase(p, c) <==> Fold(c) == p
  {
  }

  /** A newline folds to itself and is the only character that does. */
  lemma FoldNewline(c: char)
    ensures Fold(c) == '\n' <==> c == '\n'
  {
  }

  /** `sep.join(parts)`. */
  function Join(sep: string, parts: seq<string>): string
  {
    if |parts| == 0 then ""
    else if |parts| == 1 then parts[0]
    else parts[0] + sep + Join(sep, parts[1..])
  }

  /** `s.split(c)` for a one-character separator: the pieces between the
      occurrences of `c`, including the empty ones. */
  function Split(s: string, c: char): (r: seq<string>)
    ensures |r| >= 1
    ensures forall i :: 0 <= i < |r| ==> c !in r[i]
  {
    if s == [] then [""]
    else if s[0] == c then [""] + Split(s[1..], c)
    else
      var rest := Split(s[1..], c);
      [[s[0]] + rest[0]] + rest[1..]
  }

  lemma {:induction false} SplitWithout(s: string, c: char)
    requires c !in s
    ensures Split(s, c) == [s]
  {
    if s != [] {
      SplitWithout(s[1..], c);
      assert [s[0]] + s[1..] == s;
    }
  }

  lemma {:induction false} SplitAcross(p: string, c: char, rest: string)
    requires c !in p
    ensures Split(p + [c] + rest, c) == [p] + Split(rest, c)
  {
    if p == [] {
      assert p + [c] + rest == [c] + rest;
    } else {
      SplitAcross(p[1..], c, rest);
      assert (p + [c] + rest)[1..] == p[1..] + [c] + rest;
      assert [p[0]] + p[1..] == p;
    }
  }

  /** Splitting a join on the same one-character separator gives the parts
      back, as long as no part contains the separator. */
  lemma {:induction false} SplitJoin(c: char, parts: seq<string>)
    requires |parts| >= 1
    requires forall i :: 0 <= i < |parts| ==> c !in parts[i]
    ensures Split(Join([c], parts), c) == parts
  {
    if |parts| == 1 {
      SplitWithout(parts[0], c);
    } else {
      SplitJoin(c, parts[1..]);
      SplitAcross(parts[0], c, Join([c], parts[1..]));
      assert [parts[0]] + parts[1..] == parts;
    }
  }

  function DigitChar(d: nat): (c: char)
    requires d < 10
    ensures IsAsciiDigit(c)
  {
    ['0', '1', '2', '3', '4', '5', '6', '7', '8', '9'][d]
  }

  function DigitValue(c: char): nat
    requires IsAsciiDigit(c)
  {
    (c as int - '0' as int) as nat
  }

  /** `str(n)` for a non-negative int: its decimal digits, without leading zeros. */
  function NatText(n: nat): (r: string)
    ensures |r| >= 1 && forall i :: 0 <= i < |r| ==> IsAsciiDigit(r[i])
    ensures r[0] == '0' ==> n == 0
  {
    if n < 10 then [DigitChar(n)] else NatText(n / 10) + [DigitChar(n % 10)]
  }

  /** The value of a string of decimal digits. */
  function ParseNat(s: string): nat
    requires forall i :: 0 <= i < |s| ==> IsAsciiDigit(s[i])
  {
    if s == [] then 0 else ParseNat(s[..|s| - 1]) * 10 + DigitValue(s[|s| - 1])
  }

  /** Reading back the decimal text of `n` gives `n`. */
  lemma {:induction false} ParseNatText(n: nat)
    ensures ParseNat(NatText(n)) == n
  {
    if n >= 10 {
      ParseNatText(n / 10);
      var t := NatText(n);
      assert t[..|t| - 1] == NatText(n / 10);
    }
  }

  /** `str(i)` for an int: a minus sign before the digits of a negative number. */
  function IntText(i: int): (r: string)
    ensures |r| >= 1
    ensures r[0] == '-' <==> i < 0
    ensures '/' !in r
  {
    if i < 0 then "-" + NatText(-i) else NatText(i)
  }
}
