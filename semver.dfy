/** Semantic versions `major.minor.patch`, as the reconciliation reads them from
    configuration and writes them back with `%d.%d.%d`. The parser accepts exactly
    the text `\d+\.\d+\.\d+`; the scan it is built on is shared with the release
    ledger's patterns. */
module SemVer {
  import opened Wrappers
  import opened Text

  datatype Version = Version(major: nat, minor: nat, patch: nat)

  /** Ends of the three digit runs of `\d+\.\d+\.\d+` starting at `i`. Each `\d+`
      is followed by a non-digit in the pattern (`.`, or what follows the version),
      so the maximal run is the only one a backtracking matcher can keep. */
  function Cuts(s: string, i: nat): (r: Option<(nat, nat, nat)>)
    requires i <= |s|
    ensures r.Some? ==> i < r.value.0 < r.value.1 < r.value.2 <= |s|
    ensures r.Some? ==> r.value.0 + 1 < r.value.1 && r.value.1 + 1 < r.value.2
    ensures r.Some? ==> s[r.value.0] == '.' && s[r.value.1] == '.'
    ensures r.Some? ==> r.value.2 == |s| || !IsDigit(s[r.value.2])
  {
    var a := DigitRunEnd(s, i);
    if a == i || a == |s| || s[a] != '.' then None
    else
      var b := DigitRunEnd(s, a + 1);
      if b == a + 1 || b == |s| || s[b] != '.' then None
      else
        var c := DigitRunEnd(s, b + 1);
        if c == b + 1 then None else Some((a, b, c))
  }

  /** End of a version-shaped run `\d+\.\d+\.\d+` at `i`, if there is one. */
  function ScanEnd(s: string, i: nat): (r: Option<nat>)
    requires i <= |s|
    ensures r.Some? ==> i < r.value <= |s|
    ensures r.Some? ==> r.value == |s| || !IsDigit(s[r.value])
  {
    match Cuts(s, i)
    case None => None
    case Some(c) => Some(c.2)
  }

  /** The three segments between the cuts are digit runs. */
  lemma CutsDigits(s: string, i: nat)
    requires i <= |s| && Cuts(s, i).Some?
    ensures forall k :: i <= k < Cuts(s, i).value.0 ==> IsDigit(s[k])
    ensures forall k :: Cuts(s, i).value.0 < k < Cuts(s, i).value.1 ==> IsDigit(s[k])
    ensures forall k :: Cuts(s, i).value.1 < k < Cuts(s, i).value.2 ==> IsDigit(s[k])
  {
    var c := Cuts(s, i).value;
    DigitRunEndDigits(s, i);
    DigitRunEndDigits(s, c.0 + 1);
    DigitRunEndDigits(s, c.1 + 1);
  }

  /** A version-shaped run holds only digits and dots. */
  lemma ScanEndDigits(s: string, i: nat)
    requires i <= |s| && ScanEnd(s, i).Some?
    ensures forall k :: i <= k < ScanEnd(s, i).value ==> IsDigit(s[k]) || s[k] == '.'
  {
    CutsDigits(s, i);
  }

  /** The whole of `s` is `\d+\.\d+\.\d+`. */
  predicate IsVersionText(s: string) {
    ScanEnd(s, 0) == Some(|s|)
  }

  function DigitValue(c: char): nat
    requires IsDigit(c)
  {
    c as int - '0' as int
  }

  function DigitChar(n: nat): (c: char)
    requires n < 10
    ensures IsDigit(c) && DigitValue(c) == n
  {
    ('0' as int + n) as char
  }

  /** The number a string of decimal digits denotes. */
  function DecimalValue(d: string): nat
    requires forall k :: 0 <= k < |d| ==> IsDigit(d[k])
  {
    if |d| == 0 then 0 else 10 * DecimalValue(d[..|d| - 1]) + DigitValue(d[|d| - 1])
  }

  /** Decimal rendering of `n`, as `%d` prints it (no leading zeros). */
  function NatToString(n: nat): (r: string)
    ensures |r| > 0
    ensures forall k :: 0 <= k < |r| ==> IsDigit(r[k])
  {
    if n < 10 then [DigitChar(n)] else NatToString(n / 10) + [DigitChar(n % 10)]
  }

  lemma {:induction false} DecimalOfNatToString(n: nat)
    ensures DecimalValue(NatToString(n)) == n
  {
    if n >= 10 {
      var t := NatToString(n / 10);
      var d := t + [DigitChar(n % 10)];
      assert d[..|d| - 1] == t;
      DecimalOfNatToString(n / 10);
    }
  }

  /** go-version's reading of a version string, restricted to `N.N.N`. */
  function Parse(s: string): (r: Option<Version>)
  {
    match Cuts(s, 0)
    case None => None
    case Some(c) =>
      if c.2 != |s| then None
      else
        CutsDigits(s, 0);
        Some(Version(DecimalValue(s[..c.0]), DecimalValue(s[c.0 + 1..c.1]), DecimalValue(s[c.1 + 1..])))
  }

  /** `fmt.Sprintf("%d.%d.%d", major, minor, patch)`. */
  function Format(v: Version): string {
    NatToString(v.major) + "." + NatToString(v.minor) + "." + NatToString(v.patch)
  }

  /** A string parses exactly when it has the shape `\d+\.\d+\.\d+`. */
  lemma ParseIffVersionText(s: string)
    ensures Parse(s).Some? <==> IsVersionText(s)
  {
  }

  /** Formatting and reparsing a version gives it back. */
  lemma ParseFormat(v: Version)
    ensures Parse(Format(v)) == Some(v)
    ensures IsVersionText(Format(v))
  {
    FormatCuts(v);
    FormatSegments(v);
    DecimalOfNatToString(v.major);
    DecimalOfNatToString(v.minor);
    DecimalOfNatToString(v.patch);
  }

  /** The three segments between the dots of a formatted version. */
  lemma FormatSegments(v: Version)
    ensures var a := |NatToString(v.major)|;
            var b := a + 1 + |NatToString(v.minor)|;
            b < |Format(v)| &&
            Format(v)[..a] == NatToString(v.major) && Format(v)[a + 1..b] == NatToString(v.minor) &&
            Format(v)[b + 1..] == NatToString(v.patch)
  {
    var x, y, z := NatToString(v.major), NatToString(v.minor), NatToString(v.patch);
    var s := Format(v);
    assert s == x + "." + y + "." + z;
  }

  /** The cuts of a formatted version fall on its two dots. */
  lemma FormatCuts(v: Version)
    ensures Cuts(Format(v), 0) == Some((|NatToString(v.major)|, |NatToString(v.major)| + 1 + |NatToString(v.minor)|, |Format(v)|))
  {
    var x, y, z := NatToString(v.major), NatToString(v.minor), NatToString(v.patch);
    var s := Format(v);
    var a, b := |x|, |x| + 1 + |y|;
    assert s == x + "." + y + "." + z;
    assert s[a] == '.' && s[b] == '.';
    forall k | 0 <= k < a ensures IsDigit(s[k]) { assert s[k] == x[k]; }
    forall k | a + 1 <= k < b ensures IsDigit(s[k]) { assert s[k] == y[k - a - 1]; }
    forall k | b + 1 <= k < |s| ensures IsDigit(s[k]) { assert s[k] == z[k - b - 1]; }
    DigitRunEndIs(s, 0, a);
    DigitRunEndIs(s, a + 1, b);
    DigitRunEndIs(s, b + 1, |s|);
  }

  /** go-version's `GreaterThan` on versions without pre-release parts:
      lexicographic on the three segments. */
  predicate GreaterThan(a: Version, b: Version) {
    a.major > b.major
    || (a.major == b.major && a.minor > b.minor)
    || (a.major == b.major && a.minor == b.minor && a.patch > b.patch)
  }

  /** `GreaterThan` is a strict total order. */
  lemma GreaterThanStrictTotal(a: Version, b: Version, c: Version)
    ensures !GreaterThan(a, a)
    ensures GreaterThan(a, b) ==> !GreaterThan(b, a)
    ensures GreaterThan(a, b) && GreaterThan(b, c) ==> GreaterThan(a, c)
    ensures a == b || GreaterThan(a, b) || GreaterThan(b, a)
  {
  }
}
