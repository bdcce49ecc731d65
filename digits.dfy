/**
 * Decimal digit strings: the `\d+` runs that the voltage parsers extract with
 * `re.findall` and `re.search`, Python's `int()` on such a run, and `str()`
 * of an integer.
 */
module Digits {
  import opened Wrappers

  predicate IsDigit(c: char) {
    '0' <= c <= '9'
  }

  predicate AllDigits(s: string) {
    forall i :: 0 <= i < |s| ==> IsDigit(s[i])
  }

  predicate HasDigit(s: string) {
    exists i :: 0 <= i < |s| && IsDigit(s[i])
  }

  function DigitValue(c: char): (d: nat)
    requires IsDigit(c)
    ensures d < 10
  {
    c as int - '0' as int
  }

  function DigitChar(d: nat): (c: char)
    requires d < 10
    ensures IsDigit(c) && DigitValue(c) == d
  {
    ('0' as int + d) as char
  }

  /** `int(run)` for a run of decimal digits; leading zeros are allowed, as in Python. */
  function ParseNat(s: string): nat
    requires AllDigits(s)
  {
    if s == [] then 0 else 10 * ParseNat(s[..|s| - 1]) + DigitValue(s[|s| - 1])
  }

  /** `str(n)` for a non-negative integer: digits with no leading zero. */
  function ShowNat(n: nat): (s: string)
    ensures |s| > 0 && AllDigits(s)
    ensures s[0] == '0' <==> n == 0
    ensures n < 10 <==> |s| == 1
  {
    if n < 10 then [DigitChar(n)] else ShowNat(n / 10) + [DigitChar(n % 10)]
  }

  /** Parsing what was shown gives the number back. */
  lemma {:induction false} ParseShowNat(n: nat)
    ensures ParseNat(ShowNat(n)) == n
  {
    if n >= 10 {
      var s := ShowNat(n);
      assert s[..|s| - 1] == ShowNat(n / 10);
      ParseShowNat(n / 10);
    }
  }

  /** Distinct numbers are shown as distinct strings. */
  lemma ShowNatInjective(m: nat, n: nat)
    requires ShowNat(m) == ShowNat(n)
    ensures m == n
  {
    ParseShowNat(m);
    ParseShowNat(n);
  }

  /** `str(i)` for any integer. */
  function ShowInt(i: int): (s: string)
    ensures |s| > 0
    ensures i < 0 <==> s[0] == '-'
  {
    if i < 0 then "-" + ShowNat(-i) else ShowNat(i)
  }

  /** Distinct integers are shown as distinct strings, so `str(id)` keys do not merge ids. */
  lemma ShowIntInjective(i: int, j: int)
    requires ShowInt(i) == ShowInt(j)
    ensures i == j
  {
    if i < 0 {
      assert ShowInt(i)[1..] == ShowNat(-i) && ShowInt(j)[1..] == ShowNat(-j);
      ShowNatInjective(-i, -j);
    } else {
      ShowNatInjective(i, j);
    }
  }

  /** The length of the run of digits at the front of `s`. */
  function LeadingDigits(s: string): (k: nat)
    ensures k <= |s|
    ensures AllDigits(s[..k])
    ensures k < |s| ==> !IsDigit(s[k])
  {
    if s == [] || !IsDigit(s[0]) then 0
    else
      var k := 1 + LeadingDigits(s[1..]);
      assert s[..k] == [s[0]] + s[1..][..k - 1];
      k
  }

  /** `re.findall(r"\d+", s)`: the maximal digit runs of `s`, left to right. */
  function DigitRuns(s: string): (runs: seq<string>)
    ensures forall r :: r in runs ==> |r| > 0 && AllDigits(r)
    decreases |s|
  {
    if s == [] then []
    else
      var k := LeadingDigits(s);
      if k == 0 then DigitRuns(s[1..]) else [s[..k]] + DigitRuns(s[k..])
  }

  /** The digits of `s` in order, everything else dropped. */
  function DigitsOf(s: string): (d: string)
    ensures AllDigits(d)
  {
    if s == [] then [] else (if IsDigit(s[0]) then [s[0]] else []) + DigitsOf(s[1..])
  }

  function Concat(runs: seq<string>): string {
    if runs == [] then [] else runs[0] + Concat(runs[1..])
  }

  lemma {:induction false} DigitsOfAppend(a: string, b: string)
    ensures DigitsOf(a + b) == DigitsOf(a) + DigitsOf(b)
  {
    if a != [] {
      assert (a + b)[1..] == a[1..] + b;
      DigitsOfAppend(a[1..], b);
    } else {
      assert a + b == b;
    }
  }

  lemma {:induction false} DigitsOfAllDigits(s: string)
    requires AllDigits(s)
    ensures DigitsOf(s) == s
  {
    if s != [] {
      DigitsOfAllDigits(s[1..]);
      assert s == [s[0]] + s[1..];
    }
  }

  /** The runs, joined, are exactly the digits of `s`: nothing is lost, duplicated or reordered. */
  lemma {:induction false} DigitRunsCoverDigits(s: string)
    ensures Concat(DigitRuns(s)) == DigitsOf(s)
    decreases |s|
  {
    if s != [] {
      var k := LeadingDigits(s);
      if k == 0 {
        DigitRunsCoverDigits(s[1..]);
        SkipNonDigit(s);
      } else {
        assert s == s[..k] + s[k..];
        DigitsOfAppend(s[..k], s[k..]);
        DigitsOfAllDigits(s[..k]);
        DigitRunsCoverDigits(s[k..]);
        TakeRun(s);
        var runs := [s[..k]] + DigitRuns(s[k..]);
        assert runs[0] == s[..k] && runs[1..] == DigitRuns(s[k..]);
      }
    }
  }

  lemma {:induction false} DigitsOfEmpty(s: string)
    ensures DigitsOf(s) == [] <==> !HasDigit(s)
  {
    if s != [] {
      DigitsOfEmpty(s[1..]);
      assert HasDigit(s) <==> IsDigit(s[0]) || HasDigit(s[1..]) by {
        if HasDigit(s) {
          var i :| 0 <= i < |s| && IsDigit(s[i]);
          if i > 0 { assert s[1..][i - 1] == s[i]; }
        }
        if HasDigit(s[1..]) {
          var i :| 0 <= i < |s[1..]| && IsDigit(s[1..][i]);
          assert s[i + 1] == s[1..][i];
        }
      }
    }
  }

  lemma {:induction false} ConcatEmpty(runs: seq<string>)
    requires forall r :: r in runs ==> |r| > 0
    ensures Concat(runs) == [] <==> runs == []
  {
    if runs != [] {
      assert runs[0] in runs;
    }
  }

  /** `re.findall` finds nothing exactly when the string holds no digit. */
  lemma DigitRunsEmptyIff(s: string)
    ensures DigitRuns(s) == [] <==> !HasDigit(s)
  {
    DigitRunsCoverDigits(s);
    DigitsOfEmpty(s);
    ConcatEmpty(DigitRuns(s));
  }

  /** `re.search(r"(\d+)", s)`: the first maximal run of digits, if any. */
  function FirstDigitRun(s: string): (r: Option<string>)
    ensures r.Some? ==> |r.value| > 0 && AllDigits(r.value)
    decreases |s|
  {
    if s == [] then None
    else
      var k := LeadingDigits(s);
      if k == 0 then FirstDigitRun(s[1..]) else Some(s[..k])
  }

  /** The search finds the first of the runs that `findall` lists. */
  lemma {:induction false} FirstDigitRunIsFirstOfRuns(s: string)
    ensures FirstDigitRun(s) == (if DigitRuns(s) == [] then None else Some(DigitRuns(s)[0]))
    decreases |s|
  {
    if s != [] && LeadingDigits(s) == 0 {
      FirstDigitRunIsFirstOfRuns(s[1..]);
    }
  }

  /** The leading run of `a + t` stops inside `a` when `a` has a non-digit, and otherwise runs on into `t`. */
  lemma {:induction false} LeadingDigitsAppend(a: string, t: string)
    ensures LeadingDigits(a) < |a| ==> LeadingDigits(a + t) == LeadingDigits(a)
    ensures LeadingDigits(a) == |a| ==> LeadingDigits(a + t) == |a| + LeadingDigits(t)
  {
    if a == [] {
      assert a + t == t;
    } else if IsDigit(a[0]) {
      assert (a + t)[1..] == a[1..] + t;
      LeadingDigitsAppend(a[1..], t);
    }
  }

  /** A string of digits is one run: `findall` returns it whole. */
  lemma DigitRunsOfRun(d: string)
    requires |d| > 0 && AllDigits(d)
    ensures DigitRuns(d) == [d]
  {
    LeadingDigitsAppend(d, []);
    assert d + [] == d && d[|d|..] == [];
  }

  /** A non-digit separates runs: the runs on its two sides are neither joined nor split. */
  lemma DigitRunsSplit(a: string, c: char, b: string)
    requires !IsDigit(c)
    ensures DigitRuns(a + [c] + b) == DigitRuns(a) + DigitRuns(b)
  {
    var t := [c] + b;
    assert a + [c] + b == a + t;
    DigitRunsAppend(a, t);
    assert t[1..] == b;
    SkipNonDigit(t);
  }

  /** The runs of `a + t`, when `t` is empty or starts with a non-digit, are those of `a` then those of `t`. */
  lemma {:induction false} DigitRunsAppend(a: string, t: string)
    requires t == [] || !IsDigit(t[0])
    ensures DigitRuns(a + t) == DigitRuns(a) + DigitRuns(t)
    decreases |a|
  {
    if a == [] {
      assert a + t == t;
    } else {
      var k := LeadingDigits(a);
      var s := a + t;
      LeadingDigitsAppend(a, t);
      if k == 0 {
        SliceOfAppend(a, t, 1);
        DigitRunsAppend(a[1..], t);
        SkipNonDigit(s);
        SkipNonDigit(a);
      } else {
        SliceOfAppend(a, t, k);
        DigitRunsAppend(a[k..], t);
        TakeRun(s);
        TakeRun(a);
      }
    }
  }

  lemma SliceOfAppend(a: string, t: string, k: nat)
    requires 0 < k <= |a|
    ensures (a + t)[0] == a[0] && (a + t)[..k] == a[..k] && (a + t)[k..] == a[k..] + t
  {
  }

  lemma SkipNonDigit(s: string)
    requires s != [] && LeadingDigits(s) == 0
    ensures DigitRuns(s) == DigitRuns(s[1..])
  {
  }

  lemma TakeRun(s: string)
    requires LeadingDigits(s) > 0
    ensures DigitRuns(s) == [s[..LeadingDigits(s)]] + DigitRuns(s[LeadingDigits(s)..])
  {
  }

  /** `re.search` finds the whole of the first run: after a digit-free prefix, up to the next non-digit or the end. */
  lemma {:induction false} FirstDigitRunAt(a: string, d: string, t: string)
    requires !HasDigit(a) && |d| > 0 && AllDigits(d)
    requires t == [] || !IsDigit(t[0])
    ensures FirstDigitRun(a + d + t) == Some(d)
    decreases |a|
  {
    var s := a + d + t;
    if a == [] {
      assert s == d + t;
      LeadingDigitsAppend(d, t);
    } else {
      assert !IsDigit(a[0]);
      assert s[1..] == a[1..] + d + t;
      assert !HasDigit(a[1..]) by {
        forall i | 0 <= i < |a[1..]|
          ensures !IsDigit(a[1..][i])
        {
          assert a[1..][i] == a[i + 1];
        }
      }
      FirstDigitRunAt(a[1..], d, t);
    }
  }

  /** The position `max(runs, key=int)` picks: the first run whose value is largest. */
  function FirstMaxIndex(runs: seq<string>): (i: nat)
    requires |runs| > 0
    requires forall j :: 0 <= j < |runs| ==> AllDigits(runs[j])
    ensures i < |runs|
    ensures forall j :: 0 <= j < |runs| ==> ParseNat(runs[j]) <= ParseNat(runs[i])
    ensures forall j :: 0 <= j < i ==> ParseNat(runs[j]) < ParseNat(runs[i])
  {
    if |runs| == 1 then 0
    else
      var m := FirstMaxIndex(runs[..|runs| - 1]);
      assert runs[..|runs| - 1][m] == runs[m];
      if ParseNat(runs[|runs| - 1]) > ParseNat(runs[m]) then |runs| - 1 else m
  }

  /** `max(runs, key=int)`: Python keeps the first of equal maxima. */
  function MaxByValue(runs: seq<string>): (r: string)
    requires |runs| > 0
    requires forall j :: 0 <= j < |runs| ==> AllDigits(runs[j])
    ensures r in runs && AllDigits(r)
    ensures forall x :: x in runs ==> ParseNat(x) <= ParseNat(r)
    ensures exists i :: 0 <= i < |runs| && runs[i] == r && forall j :: 0 <= j < i ==> ParseNat(runs[j]) < ParseNat(r)
  {
    runs[FirstMaxIndex(runs)]
  }
}
