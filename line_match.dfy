/** The ecosystem patterns of `ParseReleases` (pkg/releases/releases.go) on the
    release lines `String()` writes: each pattern matches its own line and captures
    the version, the URL, the package and the path written there. */
module LineMatch {
  import opened Wrappers
  import opened Text
  import opened SemVer
  import opened ReleaseFormat
  import opened ReleaseParse

  // ---- Scanning a written version.

  /** A version written at `i` and followed by a non-digit is scanned whole. */
  lemma ScanEndIn(t: string, i: nat, x: string)
    requires StartsAt(t, i, x) && IsVersionText(x)
    requires i + |x| == |t| || !IsDigit(t[i + |x|])
    ensures ScanEnd(t, i) == Some(i + |x|)
  {
    var c := Cuts(x, 0).value;
    CutsDigits(x, 0);
    forall k | i <= k < i + |x| ensures t[k] == x[k - i] { CharAt(t, i, x, k - i); }
    DigitRunEndIs(t, i, i + c.0);
    DigitRunEndIs(t, i + c.0 + 1, i + c.1);
    DigitRunEndIs(t, i + c.1 + 1, i + |x|);
  }

  /** A version written at `i` and followed by ` - ` ends the URL there. */
  lemma VersionDashIn(t: string, i: nat, x: string)
    requires StartsAt(t, i, x) && IsVersionText(x)
    requires StartsAt(t, i + |x|, " - ")
    ensures VersionDash(t, i) == Some(i + |x|)
  {
    CharAt(t, i + |x|, " - ", 0);
    ScanEndIn(t, i, x);
  }

  /** A version scan from `y` cannot get past a character that is neither a digit
      nor a dot, and `y` to `w0` holds no space: no ` - ` follows a version there. */
  lemma VersionDashBlocked(t: string, y: nat, z: nat, w0: nat)
    requires y <= z < w0 <= |t| && !IsDigit(t[z]) && t[z] != '.'
    requires forall k :: y <= k < w0 ==> t[k] != ' '
    ensures VersionDash(t, y).None?
  {
    if ScanEnd(t, y).Some? {
      var w := ScanEnd(t, y).value;
      ScanEndDigits(t, y);
      assert w <= z;
      assert t[w + 0] != ' ';
      NotStartsAt(t, w, " - ", 0);
    }
  }

  /** Version text is digits and dots only. */
  lemma VersionChars(x: string)
    requires IsVersionText(x)
    ensures forall k :: 0 <= k < |x| ==> IsDigit(x[k]) || x[k] == '.'
  {
    ScanEndDigits(x, 0);
  }

  /** The line ends no earlier than the first newline-free stretch. */
  lemma LineEndAtLeast(t: string, i: nat, j: nat)
    requires i <= j <= |t|
    requires forall k :: i <= k < j ==> t[k] != '\n'
    ensures j <= LineEnd(t, i)
  {
  }

  // ---- The pieces of an ecosystem match.

  /** The captures of an ecosystem pattern, once the version scan and the URL are
      known. */
  lemma EcoAtIs(t: string, p: Pattern, v: nat, sp: Span)
    ensures StartsAt(t, 0, p.open) && ScanEnd(t, |p.open|) == Some(v) && StartsAt(t, v, "] ") &&
            UrlAt(t, v + 2, p) == Some(sp) ==>
            EcoAt(t, p) == Some(CapturesAt(t, |p.open|, v, sp))
  {
  }

  /** The greedy path capture takes a newline-free path that ends the line. */
  lemma PathAtIs(t: string, i: nat, path: string, rest: string)
    requires StartsAt(t, i, path) && Rest(t, i + |path|, rest)
    requires '\n' !in path && (rest == "" || rest[0] == '\n')
    ensures PathAt(t, i) == path
  {
    var pe := i + |path|;
    NoCharAt(t, i, path, '\n');
    assert pe == |t| || t[pe] == '\n' by { assert t[pe..] == rest; }
    LineEndIs(t, i, pe);
  }

  /** The lazy package capture ends at `q0` when no earlier position on the line
      completes the URL. */
  lemma PkgEndIs(t: string, p: Pattern, ls: nat, q0: nat)
    requires ls <= q0 && StartsAt(t, q0, p.mid) && AfterMid(t, q0 + |p.mid|, p).Some?
    requires forall k :: ls <= k < q0 ==> t[k] != '\n'
    requires forall q :: ls <= q < q0 ==> !MidStop(t, q, p)
    ensures PkgEnd(t, ls, p) == Some(q0)
  {
    LineEndAtLeast(t, ls, q0);
    FindIs(ls, LineEnd(t, ls), (q: nat) => MidStop(t, q, p), q0);
  }

  /** What ends a package capture is free of spaces and newlines and ends in a
      character that is neither a digit nor a dot. */
  predicate MidShaped(p: Pattern) {
    |p.mid| > 0 && !IsDigit(p.mid[|p.mid| - 1]) && p.mid[|p.mid| - 1] != '.' && ' ' !in p.mid && '\n' !in p.mid
  }

  /** Every ecosystem's pattern has such an end. */
  lemma PatternMids(e: Registry)
    ensures MidShaped(PatternOf(e))
  {
  }

  /** Outside Go, a `p.mid` before `q0` cannot end the package capture: the version
      scan after it runs into the last character of the `p.mid` at `q0` before the
      first space. */
  lemma NonGoEarly(t: string, p: Pattern, q: nat, q0: nat, w0: nat)
    requires !p.goModule && MidShaped(p) && q < q0 && StartsAt(t, q0, p.mid) && q0 + |p.mid| <= w0 <= |t|
    requires forall k :: q <= k < w0 ==> t[k] != ' '
    ensures !MidStop(t, q, p)
  {
    if StartsAt(t, q, p.mid) {
      var z := q0 + |p.mid| - 1;
      assert t[z] == p.mid[|p.mid| - 1];
      VersionDashBlocked(t, q + |p.mid|, z, w0);
    }
  }

  /** The URL of a non-Go line: package from `ps` to `q0`, then `p.mid` and the
      version up to ` - `. */
  lemma UrlAtNonGo(t: string, p: Pattern, u: nat, ps: nat, q0: nat, w0: nat, ver: string)
    requires !p.goModule && MidShaped(p) && ps == u + |p.head| && StartsAt(t, u, p.head)
    requires ps <= q0 && StartsAt(t, q0, p.mid) && w0 == q0 + |p.mid| + |ver| <= |t|
    requires StartsAt(t, q0 + |p.mid|, ver) && IsVersionText(ver) && StartsAt(t, w0, " - ")
    requires forall k :: ps <= k < w0 ==> t[k] != ' '
    requires forall k :: ps <= k < q0 ==> t[k] != '\n'
    ensures UrlAt(t, u, p) == Some(Span(ps, q0, w0))
  {
    VersionDashIn(t, q0 + |p.mid|, ver);
    PkgEndNonGo(t, p, ps, q0, w0);
    UrlAtIs(t, p, u, ps, q0, w0);
  }

  /** Outside Go, the package capture ends at the `p.mid` at `q0`. */
  lemma PkgEndNonGo(t: string, p: Pattern, ps: nat, q0: nat, w0: nat)
    requires !p.goModule && MidShaped(p) && ps <= q0 && StartsAt(t, q0, p.mid) && q0 + |p.mid| <= w0 <= |t|
    requires AfterMid(t, q0 + |p.mid|, p).Some?
    requires forall k :: ps <= k < w0 ==> t[k] != ' '
    requires forall k :: ps <= k < q0 ==> t[k] != '\n'
    ensures PkgEnd(t, ps, p) == Some(q0)
  {
    forall q | ps <= q < q0 ensures !MidStop(t, q, p) {
      NonGoEarly(t, p, q, q0, w0);
    }
    PkgEndIs(t, p, ps, q0);
  }

  /** The URL span once the package end and the URL end are known; for Go the
      package starts with the host. */
  lemma UrlAtIs(t: string, p: Pattern, u: nat, ps: nat, q0: nat, w0: nat)
    requires ps == u + |p.head| && StartsAt(t, u, p.head)
    requires p.goModule ==> GoHost(t, ps)
    requires PkgEnd(t, if p.goModule then ps + 11 else ps, p) == Some(q0)
    requires AfterMid(t, q0 + |p.mid|, p) == Some(w0)
    ensures UrlAt(t, u, p) == Some(Span(ps, q0, w0))
  {
    var ls := if p.goModule then ps + 11 else ps;
    SpanFromIs(t, p, ps, ls, q0, w0);
    PkgFromIs(t, p, ps, Span(ps, q0, w0));
    UrlAtFrom(t, p, u, Span(ps, q0, w0));
  }

  lemma UrlAtFrom(t: string, p: Pattern, u: nat, sp: Span)
    requires StartsAt(t, u, p.head) && PkgFrom(t, u + |p.head|, p) == Some(sp)
    ensures UrlAt(t, u, p) == Some(sp)
  {
  }

  lemma PkgFromIs(t: string, p: Pattern, ps: nat, sp: Span)
    requires ps <= |t| && (p.goModule ==> GoHost(t, ps))
    requires SpanFrom(t, ps, if p.goModule then ps + 11 else ps, p) == Some(sp)
    ensures PkgFrom(t, ps, p) == Some(sp)
  {
  }

  lemma SpanFromIs(t: string, p: Pattern, ps: nat, ls: nat, q0: nat, w0: nat)
    requires ps <= ls <= |t| && PkgEnd(t, ls, p) == Some(q0) && AfterMid(t, q0 + |p.mid|, p) == Some(w0)
    ensures SpanFrom(t, ps, ls, p) == Some(Span(ps, q0, w0))
  {
  }

  // ---- A whole release line.

  /** The URL of a release line as the patterns see it. */
  function UrlText(p: Pattern, pkg: string, tail: string): string {
    p.head + (pkg + (p.mid + tail))
  }

  /** The text of a release line as the patterns see it: the label and version, the
      URL (registry prefix, package, `p.mid` and the version-bearing tail) and the
      path. */
  function LineText(p: Pattern, ver: string, pkg: string, tail: string, path: string): string {
    p.open + (ver + ("] " + (UrlText(p, pkg, tail) + (" - " + path))))
  }

  /** Where a laid-out line's parts end: the version (`v`), and start: the package
      (`ps`), `p.mid` (`q0`), the tail (`y`), ` - ` (`w0`); `pe` is the line's end. */
  datatype Layout = Layout(v: nat, ps: nat, q0: nat, y: nat, w0: nat, pe: nat)

  /** The label, the version and `] ` at the start of `t`. */
  predicate HeadLaid(t: string, p: Pattern, ver: string, L: Layout) {
    StartsAt(t, 0, p.open) && StartsAt(t, |p.open|, ver) && L.v == |p.open| + |ver| && StartsAt(t, L.v, "] ")
  }

  /** The URL and its parts after the head. */
  predicate UrlLaid(t: string, p: Pattern, pkg: string, tail: string, L: Layout) {
    L.ps == L.v + 2 + |p.head| && L.q0 == L.ps + |pkg| && L.y == L.q0 + |p.mid| && L.w0 == L.y + |tail| &&
    StartsAt(t, L.v + 2, p.head) && StartsAt(t, L.ps, pkg) && StartsAt(t, L.q0, p.mid) && StartsAt(t, L.y, tail)
  }

  /** ` - `, the path and what follows the line. */
  predicate TailLaid(t: string, path: string, rest: string, L: Layout) {
    L.pe == L.w0 + 3 + |path| && StartsAt(t, L.w0, " - ") && StartsAt(t, L.w0 + 3, path) && Rest(t, L.pe, rest)
  }

  /** Where each part of a release line sits. */
  lemma Lay(t: string, p: Pattern, ver: string, pkg: string, tail: string, path: string, rest: string) returns (L: Layout)
    requires t == LineText(p, ver, pkg, tail, path) + rest
    ensures HeadLaid(t, p, ver, L) && UrlLaid(t, p, pkg, tail, L) && TailLaid(t, path, rest, L)
    ensures StartsAt(t, L.v + 2, UrlText(p, pkg, tail))
  {
    var v := |p.open| + |ver|;
    var ps := v + 2 + |p.head|;
    var q0 := ps + |pkg|;
    var w0 := q0 + |p.mid| + |tail|;
    L := Layout(v, ps, q0, q0 + |p.mid|, w0, w0 + 3 + |path|);
    var r7 := " - " + (path + rest);
    LineTextRest(p, ver, pkg, tail, path, rest);
    assert Rest(t, 0, t);
    LayHead(t, p, ver, UrlText(p, pkg, tail) + r7, L);
    LayUrl(t, p, pkg, tail, r7, L);
    LayTail(t, path, rest, L);
  }

  /** A release line and what follows it, one piece after another. */
  lemma LineTextRest(p: Pattern, ver: string, pkg: string, tail: string, path: string, rest: string)
    ensures LineText(p, ver, pkg, tail, path) + rest ==
            p.open + (ver + ("] " + (UrlText(p, pkg, tail) + (" - " + (path + rest)))))
  {
    var url := UrlText(p, pkg, tail);
    Regroup(" - ", path, rest);
    Regroup(url, " - " + path, rest);
    Regroup("] ", url + (" - " + path), rest);
    Regroup(ver, "] " + (url + (" - " + path)), rest);
    Regroup(p.open, ver + ("] " + (url + (" - " + path))), rest);
  }

  lemma LayHead(t: string, p: Pattern, ver: string, r: string, L: Layout)
    requires Rest(t, 0, p.open + (ver + ("] " + r))) && L.v == |p.open| + |ver|
    ensures HeadLaid(t, p, ver, L) && Rest(t, L.v + 2, r)
  {
    AtSuffix(t, 0, p.open, ver + ("] " + r));
    AtSuffix(t, |p.open|, ver, "] " + r);
    AtSuffix(t, L.v, "] ", r);
  }

  lemma LayUrl(t: string, p: Pattern, pkg: string, tail: string, r: string, L: Layout)
    requires Rest(t, L.v + 2, UrlText(p, pkg, tail) + r)
    requires L.ps == L.v + 2 + |p.head| && L.q0 == L.ps + |pkg| && L.y == L.q0 + |p.mid| && L.w0 == L.y + |tail|
    ensures UrlLaid(t, p, pkg, tail, L) && StartsAt(t, L.v + 2, UrlText(p, pkg, tail)) && Rest(t, L.w0, r)
  {
    AtSuffix(t, L.v + 2, UrlText(p, pkg, tail), r);
    UrlRest(p, pkg, tail, r);
    LayUrlParts(t, p.head, pkg, p.mid, tail, r, L);
  }

  /** The four parts of a URL, one after another. */
  lemma LayUrlParts(t: string, head: string, pkg: string, mid: string, tail: string, r: string, L: Layout)
    requires Rest(t, L.v + 2, head + (pkg + (mid + (tail + r))))
    requires L.ps == L.v + 2 + |head| && L.q0 == L.ps + |pkg| && L.y == L.q0 + |mid| && L.w0 == L.y + |tail|
    ensures StartsAt(t, L.v + 2, head) && StartsAt(t, L.ps, pkg) && StartsAt(t, L.q0, mid) && StartsAt(t, L.y, tail)
    ensures Rest(t, L.w0, r)
  {
    AtSuffix(t, L.v + 2, head, pkg + (mid + (tail + r)));
    AtSuffix(t, L.ps, pkg, mid + (tail + r));
    AtSuffix(t, L.q0, mid, tail + r);
    AtSuffix(t, L.y, tail, r);
  }

  lemma LayTail(t: string, path: string, rest: string, L: Layout)
    requires Rest(t, L.w0, " - " + (path + rest)) && L.pe == L.w0 + 3 + |path|
    ensures TailLaid(t, path, rest, L)
  {
    AtSuffix(t, L.w0, " - ", path + rest);
    AtSuffix(t, L.w0 + 3, path, rest);
  }

  /** A URL and what follows it, one piece after another. */
  lemma UrlRest(p: Pattern, pkg: string, tail: string, r: string)
    ensures UrlText(p, pkg, tail) + r == p.head + (pkg + (p.mid + (tail + r)))
  {
    Regroup(p.mid, tail, r);
    Regroup(pkg, p.mid + tail, r);
    Regroup(p.head, pkg + (p.mid + tail), r);
  }

  // ---- The captures of a laid-out line.

  /** The version capture ends where the written version does. */
  lemma VersionOf(t: string, p: Pattern, ver: string, L: Layout)
    ensures HeadLaid(t, p, ver, L) && IsVersionText(ver) ==> ScanEnd(t, |p.open|) == Some(L.v)
  {
    if HeadLaid(t, p, ver, L) && IsVersionText(ver) {
      CharAt(t, L.v, "] ", 0);
      ScanEndIn(t, |p.open|, ver);
    }
  }

  /** The four captures of a laid-out line. */
  lemma CapturesOf(t: string, p: Pattern, ver: string, pkg: string, tail: string, path: string, rest: string, L: Layout)
    ensures HeadLaid(t, p, ver, L) && UrlLaid(t, p, pkg, tail, L) && TailLaid(t, path, rest, L) &&
            StartsAt(t, L.v + 2, UrlText(p, pkg, tail)) && '\n' !in path && (rest == "" || rest[0] == '\n') ==>
            L.v + 2 <= L.ps <= L.q0 <= L.w0 && L.w0 + 3 <= |t| &&
            CapturesAt(t, |p.open|, L.v, Span(L.ps, L.q0, L.w0)) == Captures(ver, UrlText(p, pkg, tail), pkg, path)
  {
    if HeadLaid(t, p, ver, L) && UrlLaid(t, p, pkg, tail, L) && TailLaid(t, path, rest, L) &&
       StartsAt(t, L.v + 2, UrlText(p, pkg, tail)) && '\n' !in path && (rest == "" || rest[0] == '\n')
    {
      PathAtIs(t, L.w0 + 3, path, rest);
      CapturesAtIs(t, |p.open|, L.v, L.ps, L.q0, L.w0, ver, UrlText(p, pkg, tail), pkg, path);
    }
  }

  /** The captures of a line whose version, URL, package and path sit at the given
      positions. */
  lemma CapturesAtIs(t: string, o: nat, v: nat, ps: nat, q0: nat, w0: nat, ver: string, url: string, pkg: string, path: string)
    requires StartsAt(t, o, ver) && v == o + |ver|
    requires StartsAt(t, v + 2, url) && w0 == v + 2 + |url|
    requires StartsAt(t, ps, pkg) && q0 == ps + |pkg| && v + 2 <= ps && q0 <= w0 && w0 + 3 <= |t|
    requires PathAt(t, w0 + 3) == path
    ensures CapturesAt(t, o, v, Span(ps, q0, w0)) == Captures(ver, url, pkg, path)
  {
  }

  /** The URL of a laid-out non-Go line. */
  lemma NonGoUrlOf(t: string, p: Pattern, ver: string, pkg: string, L: Layout)
    ensures !p.goModule && MidShaped(p) && IsVersionText(ver) && ' ' !in pkg && '\n' !in pkg &&
            UrlLaid(t, p, pkg, ver, L) && StartsAt(t, L.w0, " - ") ==>
            UrlAt(t, L.v + 2, p) == Some(Span(L.ps, L.q0, L.w0))
  {
    if !p.goModule && MidShaped(p) && IsVersionText(ver) && ' ' !in pkg && '\n' !in pkg &&
       UrlLaid(t, p, pkg, ver, L) && StartsAt(t, L.w0, " - ")
    {
      NonGoChars(t, p, ver, pkg, L);
      UrlAtNonGo(t, p, L.v + 2, L.ps, L.q0, L.w0, ver);
    }
  }

  /** No space in the package, `p.mid` and version of a non-Go URL, and no newline
      in its package. */
  lemma NonGoChars(t: string, p: Pattern, ver: string, pkg: string, L: Layout)
    requires MidShaped(p) && IsVersionText(ver) && ' ' !in pkg && '\n' !in pkg && UrlLaid(t, p, pkg, ver, L)
    ensures forall k :: L.ps <= k < L.w0 ==> t[k] != ' '
    ensures forall k :: L.ps <= k < L.q0 ==> t[k] != '\n'
  {
    VersionChars(ver);
    NoCharAt(t, L.ps, pkg, ' ');
    NoCharAt(t, L.q0, p.mid, ' ');
    NoCharAt(t, L.y, ver, ' ');
    NoCharAt(t, L.ps, pkg, '\n');
  }

  /** A non-Go release line followed by the end of the text or a newline: the
      pattern captures its version, URL, package and path. */
  lemma NonGoLine(p: Pattern, ver: string, pkg: string, path: string, rest: string)
    requires !p.goModule && MidShaped(p) && IsVersionText(ver) && ' ' !in pkg && '\n' !in pkg && '\n' !in path
    requires rest == "" || rest[0] == '\n'
    ensures EcoAt(LineText(p, ver, pkg, ver, path) + rest, p) == Some(Captures(ver, UrlText(p, pkg, ver), pkg, path))
  {
    var t := LineText(p, ver, pkg, ver, path) + rest;
    var L := Lay(t, p, ver, pkg, ver, path, rest);
    NonGoLaid(t, p, ver, pkg, path, rest, L);
  }

  /** A laid-out non-Go release line: the pattern captures its version, URL,
      package and path. */
  lemma NonGoLaid(t: string, p: Pattern, ver: string, pkg: string, path: string, rest: string, L: Layout)
    requires !p.goModule && MidShaped(p) && IsVersionText(ver) && ' ' !in pkg && '\n' !in pkg && '\n' !in path
    requires rest == "" || rest[0] == '\n'
    requires HeadLaid(t, p, ver, L) && UrlLaid(t, p, pkg, ver, L) && TailLaid(t, path, rest, L)
    requires StartsAt(t, L.v + 2, UrlText(p, pkg, ver))
    ensures EcoAt(t, p) == Some(Captures(ver, UrlText(p, pkg, ver), pkg, path))
  {
    VersionOf(t, p, ver, L);
    NonGoUrlOf(t, p, ver, pkg, L);
    EcoAtIs(t, p, L.v, Span(L.ps, L.q0, L.w0));
    CapturesOf(t, p, ver, pkg, ver, path, rest, L);
  }

  // ---- A Go release line.

  /** The tag `String()` writes after `/releases/tag/`: `v<version>`, or
      `<path>/v<version>` for a module outside the repository root. */
  function GoTail(path: string, ver: string): string {
    if path != "." then path + ("/" + ("v" + ver)) else "v" + ver
  }

  /** What a Go package capture starts with: the host of the repository. */
  const GoHostText := "github.com/"

  /** `github.com/` and the repository pass the host check of the Go pattern. */
  lemma GoHostAt(t: string, ps: nat, repo: string)
    ensures StartsAt(t, ps, GoHostText + repo) ==> GoHost(t, ps) && StartsAt(t, ps + 11, repo)
  {
    if StartsAt(t, ps, GoHostText + repo) {
      StartsSplit(t, ps, GoHostText, repo);
      assert GoHostText == "github" + ("." + "com/");
      StartsSplit(t, ps, "github", "." + "com/");
      StartsSplit(t, ps + 6, ".", "com/");
      CharAt(t, ps + 6, ".", 0);
    }
  }

  /** Inside the repository no `p.mid` starts, so the lazy package capture cannot
      stop there. */
  lemma GoEarly(t: string, p: Pattern, ls: nat, repo: string, q: nat)
    requires StartsAt(t, ls, repo + p.mid) && StopsAt(repo, p.mid) && ls <= q < ls + |repo|
    ensures !MidStop(t, q, p)
  {
    StartsWithin(t, ls, repo + p.mid, q - ls, p.mid);
  }

  /** For Go, the package capture ends after the repository. */
  lemma PkgEndGo(t: string, p: Pattern, ps: nat, repo: string, q0: nat, y: nat, w0: nat)
    ensures p.goModule && StartsAt(t, ps + 11, repo) && q0 == ps + |GoHostText + repo| && StartsAt(t, q0, p.mid) &&
            StopsAt(repo, p.mid) && '\n' !in repo && y == q0 + |p.mid| && TagEnd(t, y) == Some(w0) ==>
            PkgEnd(t, ps + 11, p) == Some(q0)
  {
    if p.goModule && StartsAt(t, ps + 11, repo) && q0 == ps + |GoHostText + repo| && StartsAt(t, q0, p.mid) &&
       StopsAt(repo, p.mid) && '\n' !in repo && y == q0 + |p.mid| && TagEnd(t, y) == Some(w0)
    {
      var ls := ps + 11;
      assert q0 == ls + |repo|;
      StartsJoin(t, ls, repo, p.mid);
      forall q | ls <= q < q0 ensures !MidStop(t, q, p) {
        GoEarly(t, p, ls, repo, q);
      }
      NoCharAt(t, ls, repo, '\n');
      PkgEndIs(t, p, ls, q0);
    }
  }

  /** The URL span of a Go line once the host, the package end and the tag end are
      known. */
  lemma UrlAtGo(t: string, p: Pattern, u: nat, ps: nat, q0: nat, y: nat, w0: nat)
    requires p.goModule && ps == u + |p.head| && StartsAt(t, u, p.head) && GoHost(t, ps)
    requires PkgEnd(t, ps + 11, p) == Some(q0) && y == q0 + |p.mid| && TagEnd(t, y) == Some(w0)
    ensures UrlAt(t, u, p) == Some(Span(ps, q0, w0))
  {
    assert AfterMid(t, y, p) == Some(w0);
    assert SpanFrom(t, ps, ps + 11, p) == Some(Span(ps, q0, w0));
    assert PkgFrom(t, ps, p) == Some(Span(ps, q0, w0));
  }

  /** A `v` at `h` cannot start the version of a tag when a slash comes before the
      next space. */
  lemma VTailBlocked(t: string, h: nat, z: nat, w0: nat)
    requires h <= z < w0 <= |t| && t[z] == '/'
    requires forall k :: h <= k < w0 ==> t[k] != ' '
    ensures VTail(t, h).None?
  {
    if StartsAt(t, h, "v") {
      CharAt(t, h, "v", 0);
      VersionDashBlocked(t, h + 1, z, w0);
    }
  }

  /** Before the slash at `g0`, the lazy tag prefix cannot stop. */
  lemma GoTagEarly(t: string, g: nat, g0: nat, w0: nat)
    requires g < g0 < w0 <= |t| && t[g0] == '/'
    requires forall k :: g <= k < w0 ==> t[k] != ' '
    ensures !TagStop(t, g)
  {
    VTailBlocked(t, g, g0, w0);
    if t[g] == '/' {
      VTailBlocked(t, g + 1, g0, w0);
    }
  }

  /** The tag `v<version>` right after `/releases/tag/`. */
  lemma TagEndDot(t: string, y: nat, ver: string, w0: nat)
    requires StartsAt(t, y, "v" + ver) && w0 == y + 1 + |ver| && StartsAt(t, w0, " - ") && IsVersionText(ver)
    ensures TagEnd(t, y) == Some(w0)
  {
    StartsSplit(t, y, "v", ver);
    VersionDashIn(t, y + 1, ver);
    CharAt(t, y, "v", 0);
    assert TagStop(t, y);
    FindIs(y, LineEnd(t, y), (g: nat) => TagStop(t, g), y);
  }

  /** Where the parts of a tag `<path>/v<version>` sit. */
  lemma TagPathLaid(t: string, y: nat, path: string, ver: string, w0: nat)
    requires StartsAt(t, y, path + ("/" + ("v" + ver))) && w0 == y + |path| + 2 + |ver|
    requires StartsAt(t, w0, " - ") && IsVersionText(ver) && ' ' !in path
    ensures t[y + |path|] == '/' && GoVersionAt(t, y + |path|) == Some(w0)
    ensures forall k :: y <= k < w0 ==> t[k] != ' '
  {
    var g0 := y + |path|;
    StartsSplit(t, y, path, "/" + ("v" + ver));
    StartsSplit(t, g0, "/", "v" + ver);
    StartsSplit(t, g0 + 1, "v", ver);
    VersionDashIn(t, g0 + 2, ver);
    CharAt(t, g0, "/", 0);
    CharAt(t, g0 + 1, "v", 0);
    VersionChars(ver);
    NoCharAt(t, y, path, ' ');
    NoCharAt(t, g0 + 2, ver, ' ');
  }

  /** The tag `<path>/v<version>`: the lazy prefix stops at the slash before `v`. */
  lemma TagEndPath(t: string, y: nat, path: string, ver: string, w0: nat)
    requires StartsAt(t, y, path + ("/" + ("v" + ver))) && w0 == y + |path| + 2 + |ver|
    requires StartsAt(t, w0, " - ") && IsVersionText(ver) && ' ' !in path && '\n' !in path
    ensures TagEnd(t, y) == Some(w0)
  {
    var g0 := y + |path|;
    TagPathLaid(t, y, path, ver, w0);
    forall g | y <= g < g0 ensures !TagStop(t, g) {
      GoTagEarly(t, g, g0, w0);
    }
    StartsSplit(t, y, path, "/" + ("v" + ver));
    NoCharAt(t, y, path, '\n');
    LineEndAtLeast(t, y, g0);
    FindIs(y, LineEnd(t, y), (g: nat) => TagStop(t, g), g0);
  }

  /** The tag of a Go line ends the URL capture at ` - `. */
  lemma GoTagOf(t: string, y: nat, path: string, ver: string, w0: nat)
    ensures StartsAt(t, y, GoTail(path, ver)) && w0 == y + |GoTail(path, ver)| && StartsAt(t, w0, " - ") &&
            IsVersionText(ver) && ' ' !in path && '\n' !in path ==>
            TagEnd(t, y) == Some(w0)
  {
    if StartsAt(t, y, GoTail(path, ver)) && w0 == y + |GoTail(path, ver)| && StartsAt(t, w0, " - ") &&
       IsVersionText(ver) && ' ' !in path && '\n' !in path
    {
      if path != "." {
        TagEndPath(t, y, path, ver, w0);
      } else {
        TagEndDot(t, y, ver, w0);
      }
    }
  }

  /** The URL of a Go line whose parts start at `u`, `ps`, `q0`, `y` and `w0`. */
  lemma GoUrlAt(t: string, p: Pattern, ver: string, repo: string, path: string, u: nat, ps: nat, q0: nat, y: nat, w0: nat)
    ensures p.goModule && IsVersionText(ver) && StopsAt(repo, p.mid) && '\n' !in repo && ' ' !in path && '\n' !in path &&
            ps == u + |p.head| && q0 == ps + |GoHostText + repo| && y == q0 + |p.mid| && w0 == y + |GoTail(path, ver)| &&
            StartsAt(t, u, p.head) && StartsAt(t, ps, GoHostText + repo) && StartsAt(t, q0, p.mid) &&
            StartsAt(t, y, GoTail(path, ver)) && StartsAt(t, w0, " - ") ==>
            UrlAt(t, u, p) == Some(Span(ps, q0, w0))
  {
    GoHostAt(t, ps, repo);
    GoTagOf(t, y, path, ver, w0);
    PkgEndGo(t, p, ps, repo, q0, y, w0);
    if p.goModule && IsVersionText(ver) && StopsAt(repo, p.mid) && '\n' !in repo && ' ' !in path && '\n' !in path &&
       ps == u + |p.head| && q0 == ps + |GoHostText + repo| && y == q0 + |p.mid| && w0 == y + |GoTail(path, ver)| &&
       StartsAt(t, u, p.head) && StartsAt(t, ps, GoHostText + repo) && StartsAt(t, q0, p.mid) &&
       StartsAt(t, y, GoTail(path, ver)) && StartsAt(t, w0, " - ") {
      UrlAtGo(t, p, u, ps, q0, y, w0);
    }
  }

  /** A Go release line followed by the end of the text or a newline: the pattern
      captures its version, URL, package (the host and the repository) and path. */
  lemma GoLine(p: Pattern, ver: string, repo: string, path: string, rest: string)
    requires p.goModule && IsVersionText(ver) && StopsAt(repo, p.mid) && '\n' !in repo
    requires ' ' !in path && '\n' !in path && (rest == "" || rest[0] == '\n')
    ensures EcoAt(LineText(p, ver, GoHostText + repo, GoTail(path, ver), path) + rest, p) ==
            Some(Captures(ver, UrlText(p, GoHostText + repo, GoTail(path, ver)), GoHostText + repo, path))
  {
    var t := LineText(p, ver, GoHostText + repo, GoTail(path, ver), path) + rest;
    var L := Lay(t, p, ver, GoHostText + repo, GoTail(path, ver), path, rest);
    GoLaid(t, p, ver, repo, path, rest, L);
  }

  /** A laid-out Go release line: the pattern captures its version, URL, package and
      path. */
  lemma GoLaid(t: string, p: Pattern, ver: string, repo: string, path: string, rest: string, L: Layout)
    requires p.goModule && IsVersionText(ver) && StopsAt(repo, p.mid) && '\n' !in repo
    requires ' ' !in path && '\n' !in path && (rest == "" || rest[0] == '\n')
    requires HeadLaid(t, p, ver, L) && UrlLaid(t, p, GoHostText + repo, GoTail(path, ver), L) && TailLaid(t, path, rest, L)
    requires StartsAt(t, L.v + 2, UrlText(p, GoHostText + repo, GoTail(path, ver)))
    ensures EcoAt(t, p) == Some(Captures(ver, UrlText(p, GoHostText + repo, GoTail(path, ver)), GoHostText + repo, path))
  {
    GoUrlAt(t, p, ver, repo, path, L.v + 2, L.ps, L.q0, L.y, L.w0);
    EcoLaid(t, p, ver, GoHostText + repo, GoTail(path, ver), path, rest, L);
  }

  /** A laid-out release line whose URL the pattern matches: the pattern captures its
      version, URL, package and path. */
  lemma EcoLaid(t: string, p: Pattern, ver: string, pkg: string, tail: string, path: string, rest: string, L: Layout)
    requires IsVersionText(ver) && '\n' !in path && (rest == "" || rest[0] == '\n')
    requires HeadLaid(t, p, ver, L) && UrlLaid(t, p, pkg, tail, L) && TailLaid(t, path, rest, L)
    requires StartsAt(t, L.v + 2, UrlText(p, pkg, tail))
    requires UrlAt(t, L.v + 2, p) == Some(Span(L.ps, L.q0, L.w0))
    ensures EcoAt(t, p) == Some(Captures(ver, UrlText(p, pkg, tail), pkg, path))
  {
    VersionOf(t, p, ver, L);
    EcoAtIs(t, p, L.v, Span(L.ps, L.q0, L.w0));
    CapturesOf(t, p, ver, pkg, tail, path, rest, L);
  }
}
