/**
 * The few Python `str` operations the core relies on: `strip`, `startswith`,
 * `in`/`find`, `split`, `replace` with a one-character pattern, and the
 * base-10 parsing that `int(s)` performs.
 */
module PyStrings {
  import opened Wrappers

  /** The characters for which Python's `str.isspace()` holds. `str.strip()`,
      `int()` and the regular-expression class `\s` all use this set. */
  predicate IsSpace(c: char) {
    || ('\U{0009}' <= c <= '\U{000D}')
    || ('\U{001C}' <= c <= '\U{0020}')
    || c == '\U{0085}' || c == '\U{00A0}' || c == '\U{1680}'
    || ('\U{2000}' <= c <= '\U{200A}')
    || c == '\U{2028}' || c == '\U{2029}' || c == '\U{202F}' || c == '\U{205F}' || c == '\U{3000}'
  }

  /** `s.lstrip()`: the suffix left after dropping leading whitespace. */
  function StripLeft(s: string): (r: string)
    ensures |r| <= |s| && r == s[|s| - |r|..]
    ensures forall k :: 0 <= k < |s| - |r| ==> IsSpace(s[k])
    ensures |r| > 0 ==> !IsSpace(r[0])
  {
    if |s| > 0 && IsSpace(s[0]) then StripLeft(s[1..]) else s
  }

  /** `s.rstrip()`: the prefix left after dropping trailing whitespace. */
  function StripRight(s: string): (r: string)
    ensures |r| <= |s| && r == s[..|r|]
    ensures forall k :: |r| <= k < |s| ==> IsSpace(s[k])
    ensures |r| > 0 ==> !IsSpace(r[|r| - 1])
  {
    if |s| > 0 && IsSpace(s[|s| - 1]) then StripRight(s[..|s| - 1]) else s
  }

  /** `s.strip()`. */
  function Strip(s: string): string {
    StripRight(StripLeft(s))
  }

  /** Stripping removes only surrounding whitespace, and does nothing to a
      string whose two ends are not whitespace. */
  lemma StripFacts(s: string)
    ensures var r := Strip(s);
      && |r| <= |s|
      && (|r| > 0 ==> !IsSpace(r[0]) && !IsSpace(r[|r| - 1]))
      && OccursAt(s, r, |s| - |StripLeft(s)|)
    ensures |s| > 0 && !IsSpace(s[0]) && !IsSpace(s[|s| - 1]) ==> Strip(s) == s
  {
    var l := StripLeft(s);
    var r := StripRight(l);
    var i := |s| - |l|;
    assert s[i..i + |r|] == r;
    assert OccursAt(s, r, i);
    if |r| > 0 {
      assert r[0] == l[0];
    }
  }

  /** `s.startswith(p)`. */
  predicate StartsWith(s: string, p: string) {
    |p| <= |s| && s[..|p|] == p
  }

  /** `pat` occurs in `s` starting at index `i`. */
  predicate OccursAt(s: string, pat: string, i: nat) {
    i + |pat| <= |s| && s[i..i + |pat|] == pat
  }

  /** `s.find(pat, i)`: the first occurrence at or after `i`. */
  function FindFrom(s: string, pat: string, i: nat): (r: Option<nat>)
    requires i <= |s|
    decreases |s| - i
    ensures r.Some? ==> i <= r.value && OccursAt(s, pat, r.value)
    ensures r.Some? ==> forall k :: i <= k < r.value ==> !OccursAt(s, pat, k)
    ensures r.None? ==> forall k :: i <= k ==> !OccursAt(s, pat, k)
  {
    if OccursAt(s, pat, i) then Some(i)
    else if i == |s| then None
    else FindFrom(s, pat, i + 1)
  }

  function Find(s: string, pat: string): Option<nat> {
    FindFrom(s, pat, 0)
  }

  /** Python's `pat in s`. */
  predicate Contains(s: string, pat: string) {
    Find(s, pat).Some?
  }

  /** `s.split(sep, maxsplit)`; a negative `maxsplit` means "no limit", as in Python. */
  function Split(s: string, sep: string, maxsplit: int): (parts: seq<string>)
    requires |sep| > 0
    decreases |s|
    ensures |parts| >= 1
  {
    if maxsplit == 0 then [s]
    else match Find(s, sep)
      case None => [s]
      case Some(i) => [s[..i]] + Split(s[i + |sep|..], sep, if maxsplit < 0 then -1 else maxsplit - 1)
  }

  /** `sep.join(parts)`. */
  function Join(parts: seq<string>, sep: string): string {
    if |parts| == 0 then ""
    else if |parts| == 1 then parts[0]
    else parts[0] + sep + Join(parts[1..], sep)
  }

  /** Joining a first piece onto at least one more puts the separator between. */
  lemma JoinCons(a: string, rest: seq<string>, sep: string)
    requires |rest| >= 1
    ensures Join([a] + rest, sep) == a + sep + Join(rest, sep)
  {
    assert ([a] + rest)[1..] == rest;
  }

  /** Cutting `s` around an occurrence of `pat` and gluing it back gives `s`. */
  lemma AroundOccurrence(s: string, pat: string, i: nat)
    requires OccursAt(s, pat, i)
    ensures s == s[..i] + pat + s[i + |pat|..]
  {
    assert s == s[..i] + s[i..i + |pat|] + s[i + |pat|..];
  }

  /** Splitting loses nothing: joining the pieces back gives the original text. */
  lemma {:induction false} SplitJoin(s: string, sep: string, maxsplit: int)
    requires |sep| > 0
    ensures Join(Split(s, sep, maxsplit), sep) == s
    decreases |s|
  {
    if maxsplit == 0 || Find(s, sep).None? {
      assert Split(s, sep, maxsplit) == [s];
    } else {
      var i := Find(s, sep).value;
      var m := if maxsplit < 0 then -1 else maxsplit - 1;
      var tail := s[i + |sep|..];
      var rest := Split(tail, sep, m);
      assert Split(s, sep, maxsplit) == [s[..i]] + rest;
      SplitJoin(tail, sep, m);
      JoinCons(s[..i], rest, sep);
      AroundOccurrence(s, sep, i);
    }
  }

  /** One step of `split`: the piece before the first separator, then the
      split of what follows it. */
  lemma SplitFirst(s: string, sep: string, maxsplit: int)
    requires |sep| > 0 && maxsplit != 0 && Find(s, sep).Some?
    ensures var i := Find(s, sep).value;
      Split(s, sep, maxsplit) == [s[..i]] + Split(s[i + |sep|..], sep, if maxsplit < 0 then -1 else maxsplit - 1)
  {
  }

  /** Without a separator to cut at, `split` gives the text back whole. */
  lemma SplitNone(s: string, sep: string, maxsplit: int)
    requires |sep| > 0 && Find(s, sep).None?
    ensures Split(s, sep, maxsplit) == [s]
  {
  }

  /** Putting the same text in front of a string and of its prefix keeps it
      a prefix, with the same remainder. */
  lemma PrefixExtend(p: string, s: string, a: string)
    requires StartsWith(s, a)
    ensures StartsWith(p + s, p + a) && (p + s)[|p + a|..] == s[|a|..]
  {
    assert s == a + s[|a|..];
    assert p + s == (p + a) + s[|a|..];
    assert (p + s)[..|p + a|] == p + a;
  }

  /** The first piece of `s.split(sep, 1)` has no separator in it; it is a
      prefix of `s`, and what follows it is nothing or begins with `sep`. */
  lemma FirstPiece(s: string, sep: string)
    requires |sep| > 0
    ensures var a := Split(s, sep, 1)[0];
      && !Contains(a, sep) && StartsWith(s, a)
      && (s[|a|..] == [] || StartsWith(s[|a|..], sep))
  {
    match Find(s, sep)
    case None =>
      SplitNone(s, sep, 1);
      assert s[..|s|] == s;
    case Some(j) =>
      SplitFirst(s, sep, 1);
      PrefixBeforeFind(s, sep);
      assert s[..j] == s[..j];
      assert s[j..][..|sep|] == s[j..j + |sep|];
  }

  /** The text before the first occurrence of a separator does not contain it. */
  lemma PrefixBeforeFind(s: string, sep: string)
    requires |sep| > 0 && Find(s, sep).Some?
    ensures !Contains(s[..Find(s, sep).value], sep)
  {
    var i := Find(s, sep).value;
    if Contains(s[..i], sep) {
      var j := Find(s[..i], sep).value;
      assert OccursAt(s[..i], sep, j);
      assert s[j..j + |sep|] == s[..i][j..j + |sep|];
      assert OccursAt(s, sep, j);
      assert false;
    }
  }

  /** No piece of a split but the last contains the separator. */
  lemma {:induction false} SplitPieces(s: string, sep: string, maxsplit: int)
    requires |sep| > 0
    ensures forall k :: 0 <= k < |Split(s, sep, maxsplit)| - 1 ==> !Contains(Split(s, sep, maxsplit)[k], sep)
    decreases |s|
  {
    if maxsplit != 0 && Find(s, sep).Some? {
      var i := Find(s, sep).value;
      var m := if maxsplit < 0 then -1 else maxsplit - 1;
      SplitPieces(s[i + |sep|..], sep, m);
      PrefixBeforeFind(s, sep);
      var rest := Split(s[i + |sep|..], sep, m);
      var parts := [s[..i]] + rest;
      assert Split(s, sep, maxsplit) == parts;
      forall k | 0 <= k < |parts| - 1
        ensures !Contains(parts[k], sep)
      {
        if k > 0 {
          assert parts[k] == rest[k - 1];
          assert !Contains(rest[k - 1], sep);
        } else {
          assert parts[0] == s[..i];
        }
      }
    }
  }

  /** `s.replace(c, rep)` for a one-character pattern `c`. */
  function ReplaceChar(s: string, c: char, rep: string): string {
    if s == [] then []
    else (if s[0] == c then rep else [s[0]]) + ReplaceChar(s[1..], c, rep)
  }

  lemma {:induction false} ReplaceCharAppend(a: string, b: string, c: char, rep: string)
    ensures ReplaceChar(a + b, c, rep) == ReplaceChar(a, c, rep) + ReplaceChar(b, c, rep)
  {
    if a != [] {
      assert (a + b)[0] == a[0];
      assert (a + b)[1..] == a[1..] + b;
      ReplaceCharAppend(a[1..], b, c, rep);
    } else {
      assert a + b == b;
    }
  }

  predicate IsDigit(c: char) {
    '0' <= c <= '9'
  }

  function DigitValue(c: char): nat
    requires IsDigit(c)
  {
    c as int - '0' as int
  }

  function DigitChar(d: nat): (c: char)
    requires d < 10
    ensures IsDigit(c) && DigitValue(c) == d
  {
    ('0' as int + d) as char
  }

  /** The digit part `int()` accepts: ASCII digits, with single underscores
      allowed between two digits ("1_000"). */
  predicate DigitRun(b: string) {
    && |b| > 0 && IsDigit(b[0]) && IsDigit(b[|b| - 1])
    && (forall k :: 0 <= k < |b| ==> IsDigit(b[k]) || b[k] == '_')
    && (forall k :: 0 <= k < |b| - 1 && b[k] == '_' ==> b[k + 1] != '_')
  }

  /** The number a run of digits denotes; underscores are skipped. */
  function DigitsValue(b: string): nat
    requires forall k :: 0 <= k < |b| ==> IsDigit(b[k]) || b[k] == '_'
  {
    if b == [] then 0
    else if b[|b| - 1] == '_' then DigitsValue(b[..|b| - 1])
    else 10 * DigitsValue(b[..|b| - 1]) + DigitValue(b[|b| - 1])
  }

  /** `int(s)` for a string `s`: surrounding whitespace, an optional sign, then
      a digit run; `None` stands for the `ValueError` Python raises. */
  function IntOfStr(s: string): Option<int> {
    var t := Strip(s);
    if |t| > 0 && (t[0] == '-' || t[0] == '+') then
      if DigitRun(t[1..]) then
        Some(if t[0] == '-' then -(DigitsValue(t[1..]) as int) else DigitsValue(t[1..]))
      else None
    else if DigitRun(t) then Some(DigitsValue(t))
    else None
  }

  /** The decimal digits of a natural number, most significant first. */
  function NatDigits(n: nat): (r: string)
    ensures |r| > 0 && forall k :: 0 <= k < |r| ==> IsDigit(r[k])
  {
    if n < 10 then [DigitChar(n)] else NatDigits(n / 10) + [DigitChar(n % 10)]
  }

  /** `str(i)` for an integer `i`. */
  function Decimal(i: int): string {
    if i < 0 then "-" + NatDigits(-i) else NatDigits(i)
  }

  lemma {:induction false} NatDigitsValue(n: nat)
    ensures DigitRun(NatDigits(n)) && DigitsValue(NatDigits(n)) == n
  {
    var r := NatDigits(n);
    if n >= 10 {
      NatDigitsValue(n / 10);
      assert r[..|r| - 1] == NatDigits(n / 10);
    }
  }

  /** Neither end of a digit run is whitespace, so stripping leaves it alone. */
  lemma StripDigitRun(t: string)
    requires DigitRun(t)
    ensures Strip(t) == t
  {
    assert !IsSpace(t[0]) && !IsSpace(t[|t| - 1]);
    StripFacts(t);
  }

  /** Nor does stripping change a minus sign followed by a digit run. */
  lemma StripSignedRun(t: string)
    requires DigitRun(t)
    ensures Strip("-" + t) == "-" + t
  {
    var s := "-" + t;
    assert s[|s| - 1] == t[|t| - 1];
    assert !IsSpace(s[0]) && !IsSpace(s[|s| - 1]);
    StripFacts(s);
  }

  /** `int()` of a bare run of digits is its value. */
  lemma IntOfStrUnsigned(t: string)
    requires DigitRun(t)
    ensures IntOfStr(t) == Some(DigitsValue(t) as int)
  {
    StripDigitRun(t);
    assert t[0] != '-' && t[0] != '+';
  }

  /** `int()` of a minus sign followed by a run of digits is minus its value. */
  lemma IntOfStrNegative(t: string, s: string, i: int)
    requires DigitRun(t) && DigitsValue(t) == -i && s == "-" + t
    ensures IntOfStr(s) == Some(i)
  {
    StripSignedRun(t);
    assert s[1..] == t;
  }

  lemma DecimalOfNegative(i: int)
    requires i < 0
    ensures IntOfStr(Decimal(i)) == Some(i)
  {
    NatDigitsValue(-i);
    IntOfStrNegative(NatDigits(-i), Decimal(i), i);
  }

  lemma DecimalOfNatural(n: nat)
    ensures IntOfStr(Decimal(n)) == Some(n)
  {
    NatDigitsValue(n);
    IntOfStrUnsigned(NatDigits(n));
  }

  /** `int(str(i)) == i`: the decimal rendering of an integer parses back to it. */
  lemma DecimalRoundTrip(i: int)
    ensures IntOfStr(Decimal(i)) == Some(i)
  {
    if i < 0 {
      DecimalOfNegative(i);
    } else {
      DecimalOfNatural(i);
    }
  }
}
