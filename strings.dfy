/** The parts of Go's `strings`, `strconv` and `fmt` packages that the handlers rely on:
    substring tests, splitting on a separator, `%d` formatting and `strconv.ParseInt(s, 10, 64)`. */
module Strings {
  import opened Results

  predicate HasPrefix(s: string, p: string) {
    |p| <= |s| && s[..|p|] == p
  }

  /** strings.HasSuffix */
  predicate HasSuffix(s: string, p: string) {
    |p| <= |s| && s[|s| - |p|..] == p
  }

  /** strings.Contains, written as a scan over the start positions of `s`. */
  predicate Contains(s: string, sub: string)
    decreases |s|
  {
    HasPrefix(s, sub) || (|s| > 0 && Contains(s[1..], sub))
  }

  /** `sub` occurs in `s` starting at index `i`. */
  predicate OccursAt(s: string, sub: string, i: int) {
    0 <= i <= |s| - |sub| && s[i..i + |sub|] == sub
  }

  /** Contains means: `sub` occurs at some index of `s`. */
  lemma {:induction false} ContainsIffOccurs(s: string, sub: string)
    ensures Contains(s, sub) <==> exists i :: OccursAt(s, sub, i)
    decreases |s|
  {
    if HasPrefix(s, sub) {
      assert OccursAt(s, sub, 0);
    } else if |s| > 0 {
      ContainsIffOccurs(s[1..], sub);
      if exists i :: OccursAt(s[1..], sub, i) {
        var i :| OccursAt(s[1..], sub, i);
        assert s[1..][i..i + |sub|] == s[i + 1..i + 1 + |sub|];
        assert OccursAt(s, sub, i + 1);
      }
      if exists i :: OccursAt(s, sub, i) {
        var i :| OccursAt(s, sub, i);
        assert i > 0;
        assert s[1..][i - 1..i - 1 + |sub|] == s[i..i + |sub|];
        assert OccursAt(s[1..], sub, i - 1);
      }
    }
  }

  /** A message ending with a phrase contains it. */
  lemma SuffixIsContained(s: string, sub: string)
    requires HasSuffix(s, sub)
    ensures Contains(s, sub)
  {
    assert OccursAt(s, sub, |s| - |sub|);
    ContainsIffOccurs(s, sub);
  }

  // ----- strings.Split with a one-character separator, and its inverse -----

  /** strings.Split(s, sep): the pieces of `s` between occurrences of `sep`; never empty. */
  function Split(s: string, sep: char): (parts: seq<string>)
    ensures |parts| >= 1
    decreases |s|
  {
    if s == [] then [""]
    else
      var rest := Split(s[1..], sep);
      if s[0] == sep then [""] + rest else [[s[0]] + rest[0]] + rest[1..]
  }

  /** strings.Join(parts, sep). */
  function Join(parts: seq<string>, sep: char): string
    requires |parts| >= 1
  {
    if |parts| == 1 then parts[0] else parts[0] + [sep] + Join(parts[1..], sep)
  }

  /** A piece without the separator splits into itself. */
  lemma {:induction false} SplitWithoutSeparator(a: string, sep: char)
    requires sep !in a
    ensures Split(a, sep) == [a]
    decreases |a|
  {
    if a != [] {
      SplitWithoutSeparator(a[1..], sep);
      assert [a[0]] + a[1..] == a;
    }
  }

  /** Splitting `a + sep + r` yields `a` followed by the pieces of `r`. */
  lemma {:induction false} SplitAtSeparator(a: string, sep: char, r: string)
    requires sep !in a
    ensures Split(a + [sep] + r, sep) == [a] + Split(r, sep)
    decreases |a|
  {
    var s := a + [sep] + r;
    if a == [] {
      assert s[1..] == r;
    } else {
      assert s[1..] == a[1..] + [sep] + r;
      SplitAtSeparator(a[1..], sep, r);
      assert [a[0]] + a[1..] == a;
    }
  }

  /** Split inverts Join when no piece contains the separator. */
  lemma {:induction false} SplitJoin(parts: seq<string>, sep: char)
    requires |parts| >= 1
    requires forall p :: p in parts ==> sep !in p
    ensures Split(Join(parts, sep), sep) == parts
    decreases |parts|
  {
    if |parts| == 1 {
      SplitWithoutSeparator(parts[0], sep);
    } else {
      assert parts[0] in parts;
      SplitAtSeparator(parts[0], sep, Join(parts[1..], sep));
      assert forall p :: p in parts[1..] ==> p in parts;
      SplitJoin(parts[1..], sep);
      assert [parts[0]] + parts[1..] == parts;
    }
  }

  /** Split yields one piece more than there are separators. */
  lemma {:induction false} SplitCount(s: string, sep: char)
    ensures |Split(s, sep)| == multiset(s)[sep] + 1
    decreases |s|
  {
    if s != [] {
      SplitCount(s[1..], sep);
      assert s == [s[0]] + s[1..];
      assert multiset(s) == multiset{s[0]} + multiset(s[1..]);
    }
  }

  /** Split then Join gives back the original string, and no piece holds the separator. */
  lemma {:induction false} JoinSplit(s: string, sep: char)
    ensures Join(Split(s, sep), sep) == s
    ensures forall p :: p in Split(s, sep) ==> sep !in p
    decreases |s|
  {
    if s != [] {
      JoinSplit(s[1..], sep);
      var rest := Split(s[1..], sep);
      if s[0] == sep {
        assert Split(s, sep)[1..] == rest;
        assert [s[0]] + s[1..] == s;
      } else {
        var parts := Split(s, sep);
        assert parts[0] == [s[0]] + rest[0];
        assert rest[0] in rest;
        assert parts[1..] == rest[1..];
        assert forall p :: p in rest[1..] ==> p in rest;
        if |rest| == 1 {
          assert [s[0]] + s[1..] == s;
        } else {
          assert Join(rest, sep) == rest[0] + [sep] + Join(rest[1..], sep);
          assert [s[0]] + s[1..] == s;
        }
      }
    }
  }

  // ----- fmt.Sprintf("%d", n) -----

  predicate IsDigit(c: char) {
    '0' <= c <= '9'
  }

  predicate AllDigits(s: string) {
    forall i :: 0 <= i < |s| ==> IsDigit(s[i])
  }

  function DigitValue(c: char): nat
    requires IsDigit(c)
  {
    c as int - '0' as int
  }

  function DigitChar(d: nat): (c: char)
    requires d < 10
    ensures IsDigit(c) && DigitValue(c) == d
  {
    ('0' as int + d) as char
  }

  /** The decimal digits of `n`, most significant first, without leading zeros. */
  function Digits(n: nat): (s: string)
    ensures |s| >= 1 && AllDigits(s)
  {
    if n < 10 then [DigitChar(n)] else Digits(n / 10) + [DigitChar(n % 10)]
  }

  /** fmt.Sprintf("%d", n). */
  function FormatInt(n: int): string {
    if n < 0 then "-" + Digits(-n) else Digits(n)
  }

  lemma FormatIntHasNoSeparator(n: int, sep: char)
    requires sep != '-' && !IsDigit(sep)
    ensures sep !in FormatInt(n)
  {
    var s := FormatInt(n);
    var d := if n < 0 then Digits(-n) else Digits(n);
    forall i | 0 <= i < |s|
      ensures s[i] != sep
    {
      if n < 0 && i > 0 {
        assert s[i] == d[i - 1];
      }
    }
  }

  // ----- strconv.ParseInt(s, 10, 64) -----

  const MaxUint64: int := 0xffff_ffff_ffff_ffff
  const MaxInt64: int := 0x7fff_ffff_ffff_ffff
  const MinInt64: int := -0x8000_0000_0000_0000

  /** The two kinds of strconv.NumError, and their absence. */
  datatype NumError = NoNumError | SyntaxError | RangeError

  /** The value strconv.ParseInt returns together with its error (nil or a message). */
  datatype Parsed = Parsed(value: int, err: Option<string>)

  /** The digit loop of strconv.ParseUint(s, 10, 64), continuing from the accumulated value `n`:
      a non-digit is a syntax error (value 0); an overflow stops the scan at once with a
      range error and the largest uint64, even if a non-digit follows. */
  function ScanUint(s: string, n: nat): (r: (nat, NumError))
    requires n <= MaxUint64
    ensures r.0 <= MaxUint64
    ensures r.1 == SyntaxError ==> r.0 == 0
    ensures r.1 == RangeError ==> r.0 == MaxUint64
    decreases |s|
  {
    if s == [] then (n, NoNumError)
    else if !IsDigit(s[0]) then (0, SyntaxError)
    else if n >= MaxUint64 / 10 + 1 then (MaxUint64, RangeError)
    else
      var n1 := n * 10 + DigitValue(s[0]);
      if n1 > MaxUint64 then (MaxUint64, RangeError) else ScanUint(s[1..], n1)
  }

  function NumErrorMessage(s: string, reason: string): string {
    "strconv.ParseInt: parsing \"" + s + "\": " + reason
  }

  /** strconv.ParseInt(s, 10, 64): an optional sign, then decimal digits. On a syntax error
      the value is 0; out of range it is clamped to the nearest int64 bound. */
  function ParseInt(s: string): (r: Parsed)
    ensures MinInt64 <= r.value <= MaxInt64
    ensures s == [] ==> r.err.Some?
    ensures r.err.Some? ==> r.value in {0, MinInt64, MaxInt64}
  {
    if s == [] then Parsed(0, Some(NumErrorMessage(s, "invalid syntax")))
    else
      var neg := s[0] == '-';
      var body := if s[0] == '+' || s[0] == '-' then s[1..] else s;
      var scan := if body == [] then (0, SyntaxError) else ScanUint(body, 0);
      if scan.1 == SyntaxError then Parsed(0, Some(NumErrorMessage(s, "invalid syntax")))
      else if !neg && scan.0 >= 0x8000_0000_0000_0000 then
        Parsed(MaxInt64, Some(NumErrorMessage(s, "value out of range")))
      else if neg && scan.0 > 0x8000_0000_0000_0000 then
        Parsed(MinInt64, Some(NumErrorMessage(s, "value out of range")))
      else Parsed(if neg then -scan.0 else scan.0, None)
  }

  /** The decimal value of a digit string, read left to right onto `acc`. */
  function Eval(s: string, acc: nat): nat
    requires AllDigits(s)
    decreases |s|
  {
    if s == [] then acc else Eval(s[1..], acc * 10 + DigitValue(s[0]))
  }

  lemma {:induction false} EvalAppend(a: string, b: string, acc: nat)
    requires AllDigits(a) && AllDigits(b)
    ensures AllDigits(a + b)
    ensures Eval(a + b, acc) == Eval(b, Eval(a, acc))
    decreases |a|
  {
    if a == [] {
      assert a + b == b;
    } else {
      assert (a + b)[1..] == a[1..] + b;
      EvalAppend(a[1..], b, acc * 10 + DigitValue(a[0]));
    }
  }

  lemma {:induction false} EvalDigits(n: nat)
    ensures Eval(Digits(n), 0) == n
  {
    if n >= 10 {
      EvalDigits(n / 10);
      EvalAppend(Digits(n / 10), [DigitChar(n % 10)], 0);
    }
  }

  lemma {:induction false} EvalAtLeast(s: string, acc: nat)
    requires AllDigits(s)
    ensures Eval(s, acc) >= acc
    decreases |s|
  {
    if s != [] {
      EvalAtLeast(s[1..], acc * 10 + DigitValue(s[0]));
    }
  }

  /** A digit string whose value fits in a uint64 scans without error to that value. */
  lemma {:induction false} ScanDigits(s: string, acc: nat)
    requires AllDigits(s) && acc <= MaxUint64 && Eval(s, acc) <= MaxUint64
    ensures ScanUint(s, acc) == (Eval(s, acc), NoNumError)
    decreases |s|
  {
    if s != [] {
      var n1 := acc * 10 + DigitValue(s[0]);
      EvalAtLeast(s[1..], n1);
      ScanDigits(s[1..], n1);
    }
  }

  /** Round trip: every int64 formatted with `%d` parses back to itself without error. */
  lemma ParseFormatRoundTrip(n: int)
    requires MinInt64 <= n <= MaxInt64
    ensures ParseInt(FormatInt(n)) == Parsed(n, None)
  {
    var m: nat := if n < 0 then -n else n;
    EvalDigits(m);
    ScanDigits(Digits(m), 0);
    var s := FormatInt(n);
    if n < 0 {
      assert s[0] == '-' && s[1..] == Digits(m);
    } else {
      assert IsDigit(s[0]);
    }
  }
}
