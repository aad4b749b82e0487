/** String primitives shared by the version parser and the release-ledger matchers:
    literal tests, character classes, and the upward search that models a lazy
    regular-expression quantifier. */
module Text {
  import opened Wrappers

  /** `lit` occurs in `s` starting at index `i`. */
  predicate StartsAt(s: string, i: nat, lit: string) {
    i + |lit| <= |s| && forall k :: 0 <= k < |lit| ==> s[i + k] == lit[k]
  }

  /** `lit` occurs nowhere in `s`. */
  predicate NoOcc(s: string, lit: string) {
    forall i :: 0 <= i <= |s| ==> !StartsAt(s, i, lit)
  }

  /** The first occurrence of `lit` in `field + lit` is the one at the end: a lazy
      capture of `field` that stops at `lit` stops exactly after `field`. */
  predicate StopsAt(field: string, lit: string) {
    forall j :: 0 <= j < |field| ==> !StartsAt(field + lit, j, lit)
  }

  predicate IsDigit(c: char) {
    '0' <= c <= '9'
  }

  /** The least `k` in `[lo, hi]` satisfying `p`, tried in increasing order, which is
      how a lazy quantifier chooses its length; `None` when there is none. That the
      point is the least one is `FindFirst`, kept apart so that the nested searches of
      a pattern do not unfold each other's quantifiers. */
  function Find(lo: nat, hi: nat, p: nat -> bool): (r: Option<nat>)
    ensures r.Some? ==> lo <= r.value <= hi
    decreases hi + 1 - lo
  {
    if lo > hi then None
    else if p(lo) then Some(lo)
    else Find(lo + 1, hi, p)
  }

  /** The point `Find` returns satisfies `p`. */
  lemma {:induction false} FindSat(lo: nat, hi: nat, p: nat -> bool)
    ensures Find(lo, hi, p).Some? ==> p(Find(lo, hi, p).value)
    decreases hi + 1 - lo
  {
    if lo <= hi && !p(lo) {
      FindSat(lo + 1, hi, p);
    }
  }

  /** `Find` returns the least point satisfying `p`, and `None` only when none does. */
  lemma {:induction false} FindFirst(lo: nat, hi: nat, p: nat -> bool)
    ensures Find(lo, hi, p).Some? ==> forall k :: lo <= k < Find(lo, hi, p).value ==> !p(k)
    ensures Find(lo, hi, p).None? ==> forall k :: lo <= k <= hi ==> !p(k)
    decreases hi + 1 - lo
  {
    if lo <= hi && !p(lo) {
      FindFirst(lo + 1, hi, p);
    }
  }

  /** Whenever `t` is the first point of `[lo, hi]` satisfying `p`, `Find` returns it. */
  lemma {:induction false} FindIs(lo: nat, hi: nat, p: nat -> bool, t: nat)
    requires lo <= t <= hi && p(t)
    requires forall k :: lo <= k < t ==> !p(k)
    ensures Find(lo, hi, p) == Some(t)
    decreases t - lo
  {
    if lo < t {
      FindIs(lo + 1, hi, p, t);
    }
  }

  /** When no point of `[lo, hi]` satisfies `p`, `Find` returns `None`. */
  lemma {:induction false} FindNone(lo: nat, hi: nat, p: nat -> bool)
    requires forall k :: lo <= k <= hi ==> !p(k)
    ensures Find(lo, hi, p) == None
    decreases hi + 1 - lo
  {
    if lo <= hi {
      FindNone(lo + 1, hi, p);
    }
  }

  /** Searching a string with one extra leading character that never matches finds
      the same point, one index later. */
  lemma FindShift(n: nat, p: nat -> bool, q: nat -> bool)
    requires !q(0)
    requires forall k :: 0 <= k <= n ==> q(k + 1) == p(k)
    ensures Find(0, n + 1, q) == (match Find(0, n, p) case None => None case Some(k) => Some(k + 1))
  {
    var r := Find(0, n, p);
    FindFirst(0, n, p);
    FindSat(0, n, p);
    match r
    case None =>
      forall k | 0 <= k <= n + 1 ensures !q(k) {
        if k > 0 { assert q(k - 1 + 1) == p(k - 1); }
      }
      FindNone(0, n + 1, q);
    case Some(t) =>
      assert q(t + 1) == p(t);
      forall k | 0 <= k < t + 1 ensures !q(k) {
        if k > 0 { assert q(k - 1 + 1) == p(k - 1); }
      }
      FindIs(0, n + 1, q, t + 1);
  }

  /** What a pattern captures at its leftmost match in `s`, the way Go's
      `FindStringSubmatch` picks it: `at(t)` is the pattern anchored at the start of
      `t`, tried at every start position from the left. */
  function Leftmost<T>(s: string, at: string -> Option<T>): (r: Option<T>)
    ensures r.Some? ==> exists p :: 0 <= p <= |s| && r == at(s[p..])
  {
    match Find(0, |s|, (p: nat) => p <= |s| && at(s[p..]).Some?)
    case None => None
    case Some(p) => at(s[p..])
  }

  /** The leftmost match is the one at `k` when the pattern matches there and at no
      earlier position. */
  lemma LeftmostAt<T>(s: string, at: string -> Option<T>, k: nat)
    requires k <= |s| && at(s[k..]).Some?
    requires forall j :: 0 <= j < k ==> at(s[j..]).None?
    ensures Leftmost(s, at) == at(s[k..])
  {
    FindIs(0, |s|, (p: nat) => p <= |s| && at(s[p..]).Some?, k);
  }

  /** No match anywhere, no capture. */
  lemma LeftmostNone<T>(s: string, at: string -> Option<T>)
    requires forall j :: 0 <= j <= |s| ==> at(s[j..]).None?
    ensures Leftmost(s, at).None?
  {
    FindNone(0, |s|, (p: nat) => p <= |s| && at(s[p..]).Some?);
  }

  /** A leading character at which the pattern cannot start changes nothing. */
  lemma LeftmostShift<T>(c: char, b: string, at: string -> Option<T>)
    requires at([c] + b).None?
    ensures Leftmost([c] + b, at) == Leftmost(b, at)
  {
    var s := [c] + b;
    var p := (k: nat) => k <= |b| && at(b[k..]).Some?;
    var q := (k: nat) => k <= |s| && at(s[k..]).Some?;
    assert s[0..] == s;
    forall k | 0 <= k <= |b| ensures q(k + 1) == p(k) {
      assert s[k + 1..] == b[k..];
    }
    FindShift(|b|, p, q);
    match Find(0, |b|, p)
    case None =>
    case Some(k) => assert s[k + 1..] == b[k..];
  }

  /** A prefix at none of whose positions the pattern starts changes nothing. */
  lemma {:induction false} LeftmostSkip<T>(x: string, y: string, at: string -> Option<T>)
    requires forall j :: 0 <= j < |x| ==> at((x + y)[j..]).None?
    ensures Leftmost(x + y, at) == Leftmost(y, at)
    decreases |x|
  {
    if x == [] {
      assert x + y == y;
    } else {
      var x' := x[1..];
      assert x + y == [x[0]] + (x' + y);
      forall j | 0 <= j < |x'| ensures at((x' + y)[j..]).None? {
        assert (x' + y)[j..] == (x + y)[j + 1..];
      }
      LeftmostSkip(x', y, at);
      assert (x + y)[0..] == x + y;
      LeftmostShift(x[0], x' + y, at);
    }
  }

  /** A character absent from a slice is absent from each of its positions. */
  lemma NotInSlice(t: string, lo: nat, hi: nat, c: char)
    requires lo <= hi <= |t| && c !in t[lo..hi]
    ensures forall x :: lo <= x < hi ==> t[x] != c
  {
    forall x | lo <= x < hi ensures t[x] != c { assert t[x] == t[lo..hi][x - lo]; }
  }

  /** `s` is what follows position `p` of `t`. */
  predicate Rest(t: string, p: nat, s: string) {
    p <= |t| && t[p..] == s
  }

  /** Reading a text piece by piece: when `x + r` follows position `p`, `x` starts
      there and `r` follows it. */
  lemma AtSuffix(t: string, p: nat, x: string, r: string)
    requires Rest(t, p, x + r)
    ensures StartsAt(t, p, x) && Rest(t, p + |x|, r)
  {
    assert t[p..p + |x|] == (x + r)[..|x|];
    assert t[p + |x|..] == (x + r)[|x|..];
  }

  /** The slice a `StartsAt` names. */
  lemma SliceIs(t: string, a: nat, b: nat, x: string)
    requires StartsAt(t, a, x) && b == a + |x|
    ensures t[a..b] == x
  {
  }

  /** A character absent from a piece of text is absent from each position it covers. */
  lemma NoCharAt(t: string, p: nat, x: string, c: char)
    requires StartsAt(t, p, x) && c !in x
    ensures forall k :: p <= k < p + |x| ==> t[k] != c
  {
    forall k | p <= k < p + |x| ensures t[k] != c { assert t[p + (k - p)] == x[k - p]; }
  }

  /** `StartsAt` is the slice test. */
  lemma StartsAtSlice(t: string, p: nat, x: string)
    ensures StartsAt(t, p, x) <==> p + |x| <= |t| && t[p..p + |x|] == x
  {
    if p + |x| <= |t| && t[p..p + |x|] == x {
      forall k | 0 <= k < |x| ensures t[p + k] == x[k] { assert t[p + k] == t[p..p + |x|][k]; }
    }
  }

  /** The character an occurrence puts at offset `k`. */
  lemma CharAt(t: string, p: nat, x: string, k: nat)
    requires StartsAt(t, p, x) && k < |x|
    ensures t[p + k] == x[k]
  {
  }

  /** One mismatching character rules an occurrence out. */
  lemma NotStartsAt(t: string, p: nat, x: string, k: nat)
    requires k < |x| && (p + k >= |t| || t[p + k] != x[k])
    ensures !StartsAt(t, p, x)
  {
  }

  /** Text that starts with `x + y` at `p` has `x` at `p` and `y` right after it. */
  lemma StartsSplit(t: string, p: nat, x: string, y: string)
    requires StartsAt(t, p, x + y)
    ensures StartsAt(t, p, x) && StartsAt(t, p + |x|, y)
  {
    assert t[p..p + |x|] == (x + y)[..|x|];
    assert t[p + |x|..p + |x| + |y|] == (x + y)[|x|..];
  }

  /** `x` at `p` and `y` right after it make `x + y` at `p`. */
  lemma StartsJoin(t: string, p: nat, x: string, y: string)
    requires StartsAt(t, p, x) && StartsAt(t, p + |x|, y)
    ensures StartsAt(t, p, x + y)
  {
    assert t[p..p + |x| + |y|] == t[p..p + |x|] + t[p + |x|..p + |x| + |y|];
  }

  /** Inside a known piece `x` at `a`, `lit` occurs exactly where it occurs in `x`. */
  lemma StartsWithin(t: string, a: nat, x: string, j: nat, lit: string)
    requires StartsAt(t, a, x) && j + |lit| <= |x|
    ensures StartsAt(t, a + j, lit) == StartsAt(x, j, lit)
  {
    var u, v := t[a + j..a + j + |lit|], x[j..j + |lit|];
    forall k | 0 <= k < |lit| ensures u[k] == v[k] {
      assert t[a + j + k] == t[a..a + |x|][j + k];
    }
  }

  /** Concatenation regroups. */
  lemma Regroup(a: string, b: string, c: string)
    ensures (a + b) + c == a + (b + c)
  {
  }

  /** End of the maximal run of decimal digits that starts at `i`. */
  function DigitRunEnd(s: string, i: nat): (j: nat)
    requires i <= |s|
    ensures i <= j <= |s|
    ensures j == |s| || !IsDigit(s[j])
    decreases |s| - i
  {
    if i == |s| || !IsDigit(s[i]) then i else DigitRunEnd(s, i + 1)
  }

  /** Everything the run covers is a digit. */
  lemma {:induction false} DigitRunEndDigits(s: string, i: nat)
    requires i <= |s|
    ensures forall k :: i <= k < DigitRunEnd(s, i) ==> IsDigit(s[k])
    decreases |s| - i
  {
    if i < |s| && IsDigit(s[i]) {
      DigitRunEndDigits(s, i + 1);
    }
  }

  /** Index of the first newline at or after `i`, or `|s|`; `.` without the `s`
      flag cannot match past it. */
  function LineEnd(s: string, i: nat): (j: nat)
    requires i <= |s|
    ensures i <= j <= |s|
    ensures j == |s| || s[j] == '\n'
    decreases |s| - i
  {
    if i == |s| || s[i] == '\n' then i else LineEnd(s, i + 1)
  }

  /** No newline before the line's end. */
  lemma {:induction false} LineEndClear(s: string, i: nat)
    requires i <= |s|
    ensures forall k :: i <= k < LineEnd(s, i) ==> s[k] != '\n'
    decreases |s| - i
  {
    if i < |s| && s[i] != '\n' {
      LineEndClear(s, i + 1);
    }
  }

  /** The maximal digit run is determined by where the digits stop. */
  lemma {:induction false} DigitRunEndIs(s: string, i: nat, j: nat)
    requires i <= j <= |s|
    requires forall k :: i <= k < j ==> IsDigit(s[k])
    requires j == |s| || !IsDigit(s[j])
    ensures DigitRunEnd(s, i) == j
    decreases j - i
  {
    if i < j {
      DigitRunEndIs(s, i + 1, j);
    }
  }

  lemma {:induction false} LineEndIs(s: string, i: nat, j: nat)
    requires i <= j <= |s|
    requires forall k :: i <= k < j ==> s[k] != '\n'
    requires j == |s| || s[j] == '\n'
    ensures LineEnd(s, i) == j
    decreases j - i
  {
    if i < j {
      LineEndIs(s, i + 1, j);
    }
  }

  /** A literal that contains a character `s` lacks does not occur in `s`. */
  lemma NoOccByChar(s: string, lit: string, c: char)
    requires c in lit && c !in s
    ensures NoOcc(s, lit)
  {
    var k :| 0 <= k < |lit| && lit[k] == c;
    forall i | 0 <= i <= |s| ensures !StartsAt(s, i, lit) {
      NotStartsAt(s, i, lit, k);
    }
  }

  /** A newline-free literal cannot straddle a newline that starts the right part. */
  lemma NoOccConcat(a: string, c: string, lit: string)
    requires NoOcc(a, lit) && NoOcc(c, lit)
    requires '\n' !in lit && |c| > 0 && c[0] == '\n'
    ensures NoOcc(a + c, lit)
  {
    var s := a + c;
    forall i | 0 <= i <= |s| ensures !StartsAt(s, i, lit) {
      if i >= |a| {
        StartsAtRight(a, c, i, lit);
      } else if i + |lit| <= |a| {
        StartsAtLeft(a, c, i, lit);
      } else {
        assert s[i + (|a| - i)] == '\n';
        NotStartsAt(s, i, lit, |a| - i);
      }
    }
  }

  /** An occurrence inside the left part of a concatenation is an occurrence there. */
  lemma StartsAtLeft(a: string, y: string, j: nat, lit: string)
    requires j + |lit| <= |a|
    ensures StartsAt(a + y, j, lit) == StartsAt(a, j, lit)
  {
    assert (a + y)[j..j + |lit|] == a[j..j + |lit|];
  }

  /** An occurrence in the right part of a concatenation is one there, shifted. */
  lemma StartsAtRight(a: string, c: string, i: nat, lit: string)
    requires |a| <= i
    ensures StartsAt(a + c, i, lit) == StartsAt(c, i - |a|, lit)
  {
    if i + |lit| <= |a| + |c| {
      assert (a + c)[i..i + |lit|] == c[i - |a|..i - |a| + |lit|];
    }
  }

  /** Testing a literal at index 0 of a suffix is testing it at the suffix's start. */
  lemma StartsAtSuffix(s: string, p: nat, lit: string)
    requires p <= |s|
    ensures StartsAt(s[p..], 0, lit) == StartsAt(s, p, lit)
  {
    if p + |lit| <= |s| {
      assert s[p..][0..|lit|] == s[p..p + |lit|];
    }
  }

  /** A literal that occurs nowhere in `s` occurs nowhere in a suffix of `s`. */
  lemma NoOccSuffix(s: string, p: nat, lit: string)
    requires p <= |s| && NoOcc(s, lit)
    ensures NoOcc(s[p..], lit)
  {
    forall i | 0 <= i <= |s[p..]| ensures !StartsAt(s[p..], i, lit) {
      StartsAtSuffix(s, p + i, lit);
      StartsAtSuffix(s[p..], i, lit);
      assert s[p..][i..] == s[p + i..];
    }
  }

  /** the pieces of `s` around each non-overlapping occurrence of `sep`, scanning
      from the left, as Go's `strings.Split` cuts them (`sep` non-empty). */
  function Split(s: string, sep: string): (r: seq<string>)
    requires |sep| > 0
    ensures |r| > 0
    decreases |s|
  {
    match FirstSep(s, sep)
    case None => [s]
    case Some(i) => [s[..i]] + Split(s[i + |sep|..], sep)
  }

  /** Where the first separator starts. */
  function FirstSep(s: string, sep: string): (r: Option<nat>)
    ensures r.Some? ==> r.value + |sep| <= |s|
  {
    var at := (i: nat) => StartsAt(s, i, sep);
    FindSat(0, |s|, at);
    Find(0, |s|, at)
  }

  /** The last piece `Split` produces. */
  function LastPiece(s: string, sep: string): string
    requires |sep| > 0
  {
    var pieces := Split(s, sep);
    pieces[|pieces| - 1]
  }

  /** No two consecutive newlines: the ledger's block separator does not occur. */
  predicate NoSep(s: string) {
    NoOcc(s, "\n\n")
  }

  lemma NoSepWithoutNewline(s: string)
    requires '\n' !in s
    ensures NoSep(s)
  {
    NoOccByChar(s, "\n\n", '\n');
  }

  /** Two separator-free strings stay separator-free when joined, unless a newline
      ends the first and another starts the second. */
  lemma NoSepConcat(a: string, c: string)
    requires NoSep(a) && NoSep(c)
    requires |a| == 0 || |c| == 0 || a[|a| - 1] != '\n' || c[0] != '\n'
    ensures NoSep(a + c)
  {
    var s := a + c;
    forall i | 0 <= i <= |s| ensures !StartsAt(s, i, "\n\n") {
      if i >= |a| {
        StartsAtRight(a, c, i, "\n\n");
      } else if i + 2 <= |a| {
        StartsAtLeft(a, c, i, "\n\n");
      } else {
        if a[|a| - 1] != '\n' {
          assert s[i] == a[|a| - 1];
          NotStartsAt(s, i, "\n\n", 0);
        } else if |c| == 0 {
          NotStartsAt(s, i, "\n\n", 1);
        } else {
          assert s[i + 1] == c[0];
          NotStartsAt(s, i, "\n\n", 1);
        }
      }
    }
  }

  /** A string without the separator is its own last piece. */
  lemma LastPieceNoSep(s: string, sep: string)
    requires |sep| > 0 && NoOcc(s, sep)
    ensures LastPiece(s, sep) == s
  {
    FindNone(0, |s|, (i: nat) => StartsAt(s, i, sep));
    assert FirstSep(s, sep).None?;
  }

  /** Cutting at the first separator keeps the last piece. */
  lemma LastPieceStep(s: string, sep: string, i: nat)
    requires |sep| > 0
    requires FirstSep(s, sep) == Some(i)
    ensures i + |sep| <= |s|
    ensures LastPiece(s, sep) == LastPiece(s[i + |sep|..], sep)
  {
    var rest := Split(s[i + |sep|..], sep);
    var all := [s[..i]] + rest;
    assert Split(s, sep) == all;
    assert all[|all| - 1] == rest[|rest| - 1];
  }

  /** The split of a ledger that ends with a separator and a separator-free block:
      that block is the last piece, with at most one newline of the ledger before it. */
  lemma {:induction false} LastPieceOfAppend(x: string, r: string)
    requires NoSep(r) && |r| > 0 && r[0] != '\n'
    ensures LastPiece(x + "\n\n" + r, "\n\n") == r || LastPiece(x + "\n\n" + r, "\n\n") == "\n" + r
    decreases |x|
  {
    var s := x + "\n\n" + r;
    var sep := "\n\n";
    var p := (i: nat) => StartsAt(s, i, sep);
    assert p(|x|) by {
      assert s[|x|..|x| + 2] == sep;
      StartsAtSlice(s, |x|, sep);
    }
    FindFirst(0, |s|, p);
    var i := FirstSep(s, sep).value;
    assert i <= |x|;
    LastPieceStep(s, sep, i);
    if i == |x| {
      assert s[i + 2..] == r;
      LastPieceNoSep(r, sep);
    } else if i == |x| - 1 {
      var t := s[i + 2..];
      assert t == "\n" + r;
      forall k | 0 <= k <= |t| ensures !StartsAt(t, k, sep) {
        if k == 0 {
          assert t[1] == r[0];
          NotStartsAt(t, 0, sep, 1);
        } else {
          StartsAtRight("\n", r, k, sep);
        }
      }
      LastPieceNoSep(t, sep);
    } else {
      var x' := s[i + 2..|x|];
      assert s[i + 2..] == x' + "\n\n" + r;
      LastPieceOfAppend(x', r);
    }
  }
}
