/** Reading the last entry back from the release ledger (pkg/releases/releases.go,
    `ParseReleases` and its five patterns). Each pattern is a matcher written out by
    hand; `FindStringSubmatch` semantics are kept: the match starts as early as
    possible, and each lazy group `(.*?)` ends at the first point from which the
    rest of the pattern still matches. Without the `s` flag `.` stops at a newline;
    the header pattern has the flag. */
module ReleaseParse {
  import opened Wrappers
  import opened Text
  import opened SemVer
  import opened ReleaseFormat

  /** Captures 1-4 of the header pattern. */
  datatype HeaderFields = HeaderFields(title: string, docVersion: string, docLocation: string, toolVersion: string)

  /** Captures 1-4 of an ecosystem pattern: version, URL, package, path. */
  datatype Captures = Captures(version: string, url: string, pkg: string, path: string)

  /** The four ecosystem patterns. */
  datatype Registry = Npm | PyPI | GoModule | Composer

  datatype ParseError = LastReleaseUnparsable

  const TitleMark := "## "
  const DocMark := "\n### Changes\nBased on:\n- OpenAPI Doc "
  const ToolMark := "\n- Speakeasy CLI "

  // ---- `(?s)## (.*?)\n### Changes\nBased on:\n- OpenAPI Doc (.*?) (.*?)\n- Speakeasy CLI (.*?) .*?`

  /** Capture 4 ends at the first space; the trailing `.*?` then matches nothing. */
  function ToolEnd(t: string, i: nat): (r: Option<nat>)
    requires i <= |t|
    ensures r.Some? ==> i <= r.value < |t| && t[r.value] == ' '
  {
    var stop := (n: nat) => n < |t| && t[n] == ' ';
    FindSat(i, |t|, stop);
    Find(i, |t|, stop)
  }

  /** Capture 3 ends at the first `\n- Speakeasy CLI ` that is followed by a space somewhere. */
  function LocEnd(t: string, i: nat): (r: Option<nat>)
    requires i <= |t|
    ensures r.Some? ==> i <= r.value && StartsAt(t, r.value, ToolMark) && ToolEnd(t, r.value + |ToolMark|).Some?
  {
    var stop := (m: nat) => StartsAt(t, m, ToolMark) && ToolEnd(t, m + |ToolMark|).Some?;
    FindSat(i, |t|, stop);
    Find(i, |t|, stop)
  }

  /** Capture 2 ends at the first space after which the rest of the header matches. */
  function DocEnd(t: string, i: nat): (r: Option<nat>)
    requires i <= |t|
    ensures r.Some? ==> i <= r.value < |t| && t[r.value] == ' ' && LocEnd(t, r.value + 1).Some?
  {
    var stop := (j: nat) => j < |t| && t[j] == ' ' && LocEnd(t, j + 1).Some?;
    FindSat(i, |t|, stop);
    Find(i, |t|, stop)
  }

  /** Capture 1 ends at the first `\n### Changes...OpenAPI Doc ` after which the rest matches. */
  function TitleEnd(t: string, i: nat): (r: Option<nat>)
    requires i <= |t|
    ensures r.Some? ==> i <= r.value && StartsAt(t, r.value, DocMark) && DocEnd(t, r.value + |DocMark|).Some?
  {
    var stop := (k: nat) => StartsAt(t, k, DocMark) && DocEnd(t, k + |DocMark|).Some?;
    FindSat(i, |t|, stop);
    Find(i, |t|, stop)
  }

  /** The header pattern matched at the start of `t`. */
  function HeaderAt(t: string): (r: Option<HeaderFields>)
    ensures r.Some? ==> StartsAt(t, 0, TitleMark)
  {
    if !StartsAt(t, 0, TitleMark) then None
    else
      match TitleEnd(t, |TitleMark|)
      case None => None
      case Some(k) => AfterTitle(t, k)
  }

  /** The rest of the header once capture 1 ends at `k`. */
  function AfterTitle(t: string, k: nat): Option<HeaderFields>
    requires |TitleMark| <= k && k + |DocMark| <= |t|
  {
    match DocEnd(t, k + |DocMark|)
    case None => None
    case Some(j) => AfterDoc(t, k, j)
  }

  /** The rest of the header once capture 2 ends at `j`. */
  function AfterDoc(t: string, k: nat, j: nat): Option<HeaderFields>
    requires |TitleMark| <= k && k + |DocMark| <= j < |t|
  {
    match LocEnd(t, j + 1)
    case None => None
    case Some(m) => AfterLoc(t, k, j, m)
  }

  /** The rest of the header once capture 3 ends at `m`. */
  function AfterLoc(t: string, k: nat, j: nat, m: nat): Option<HeaderFields>
    requires |TitleMark| <= k && k + |DocMark| <= j && j + 1 <= m && m + |ToolMark| <= |t|
  {
    match ToolEnd(t, m + |ToolMark|)
    case None => None
    case Some(n) => Some(HeaderFields(t[|TitleMark|..k], t[k + |DocMark|..j], t[j + 1..m], t[m + |ToolMark|..n]))
  }

  /** `releaseInfoRegex.FindStringSubmatch`: the leftmost match. */
  function MatchHeader(s: string): Option<HeaderFields> {
    Leftmost(s, HeaderAt)
  }

  // ---- `- \[<Label> v(\d+\.\d+\.\d+)\] (<url head>(<package>)<mid>\d+\.\d+\.\d+) - (.*)`

  /** The configuration language whose line the pattern reads. */
  function LangOf(e: Registry): string {
    match e
    case Npm => "typescript"
    case PyPI => "python"
    case GoModule => "go"
    case Composer => "php"
  }

  /** The literal pieces of an ecosystem pattern: `- \[<Label> v` before the version,
      the fixed start of the URL capture, what ends the package capture, and whether
      the URL ends in Go's tag (`.*?\/?v...`) rather than in the version itself. */
  datatype Pattern = Pattern(open: string, head: string, mid: string, goModule: bool)

  /** The literal pieces of each ecosystem's pattern. */
  function PatternOf(e: Registry): (p: Pattern)
    ensures p.goModule <==> e == GoModule
  {
    match e
    case Npm => Pattern("- [NPM v", "https://www.npmjs.com/package/", "/v/", false)
    case PyPI => Pattern("- [PyPI v", "https://pypi.org/project/", "/", false)
    case GoModule => Pattern("- [Go v", "https://", "/releases/tag/", true)
    case Composer => Pattern("- [Composer v", "https://packagist.org/packages/", "#v", false)
  }

  /** The pattern opens with the label `String()` writes for the language. */
  lemma OpenLabel(e: Registry)
    ensures PatternOf(e).open == "- [" + Label(LangOf(e)) + " v"
  {
  }

  /** `github.com\/` at `i`, where the unescaped `.` is any character but a newline. */
  predicate GoHost(t: string, i: nat) {
    StartsAt(t, i, "github") && i + 6 < |t| && t[i + 6] != '\n' && StartsAt(t, i + 7, "com/")
  }

  /** `\d+\.\d+\.\d+` at `i` followed by ` - `: the end of the URL capture. */
  function VersionDash(t: string, i: nat): (r: Option<nat>)
    requires i <= |t|
    ensures r.Some? ==> i < r.value && r.value + 3 <= |t|
  {
    match ScanEnd(t, i)
    case None => None
    case Some(w) => if StartsAt(t, w, " - ") then Some(w) else None
  }

  /** `v\d+\.\d+\.\d+` at `i` followed by ` - `. */
  function VTail(t: string, i: nat): (r: Option<nat>)
    requires i <= |t|
    ensures r.Some? ==> i + 1 < r.value && r.value + 3 <= |t|
  {
    if StartsAt(t, i, "v") then VersionDash(t, i + 1) else None
  }

  /** `\/?v\d+\.\d+\.\d+` at `r` followed by ` - `; the optional slash is greedy. */
  function GoVersionAt(t: string, r: nat): (w: Option<nat>)
    requires r <= |t|
    ensures w.Some? ==> r < w.value && w.value + 3 <= |t|
  {
    if r < |t| && t[r] == '/' && VTail(t, r + 1).Some? then VTail(t, r + 1) else VTail(t, r)
  }

  /** `.*?\/?v\d+\.\d+\.\d+` after `/releases/tag/`: the lazy tag prefix stays on the line. */
  function TagEnd(t: string, i: nat): (r: Option<nat>)
    requires i <= |t|
    ensures r.Some? ==> i < r.value && r.value + 3 <= |t|
  {
    match Find(i, LineEnd(t, i), (g: nat) => TagStop(t, g))
    case None => None
    case Some(g) => GoVersionAt(t, g)
  }

  /** The tag prefix may stop at `g`. */
  predicate TagStop(t: string, g: nat) {
    g <= |t| && GoVersionAt(t, g).Some?
  }

  /** The rest of the URL after the package capture and `p.mid`. */
  function AfterMid(t: string, i: nat, p: Pattern): (r: Option<nat>)
    requires i <= |t|
    ensures r.Some? ==> i < r.value && r.value + 3 <= |t|
  {
    if p.goModule then TagEnd(t, i) else VersionDash(t, i)
  }

  /** The lazy package capture ends at the first `p.mid` on the line after which the
      URL is complete. */
  function PkgEnd(t: string, i: nat, p: Pattern): (r: Option<nat>)
    requires i <= |t|
    ensures r.Some? ==> i <= r.value && r.value + |p.mid| <= |t|
  {
    var stop := (q: nat) => MidStop(t, q, p);
    FindSat(i, LineEnd(t, i), stop);
    Find(i, LineEnd(t, i), stop)
  }

  /** The package capture may stop at `q`. */
  predicate MidStop(t: string, q: nat, p: Pattern) {
    StartsAt(t, q, p.mid) && AfterMid(t, q + |p.mid|, p).Some?
  }

  /** Where the package capture starts and ends, and where the URL capture ends. */
  datatype Span = Span(pkgStart: nat, pkgEnd: nat, urlEnd: nat)

  /** The package capture from `ps` to the end of the URL, the lazy search starting
      at `ls`. */
  function SpanFrom(t: string, ps: nat, ls: nat, p: Pattern): (r: Option<Span>)
    requires ps <= ls <= |t|
    ensures r.Some? ==> r.value.pkgStart == ps <= r.value.pkgEnd < r.value.urlEnd
    ensures r.Some? ==> r.value.urlEnd + 3 <= |t|
  {
    match PkgEnd(t, ls, p)
    case None => None
    case Some(q) =>
      if q + |p.mid| > |t| then None
      else
        match AfterMid(t, q + |p.mid|, p)
        case None => None
        case Some(w) => if q < w then Some(Span(ps, q, w)) else None
  }

  /** The package capture from `ps`; for Go it starts with `github.com/`. */
  function PkgFrom(t: string, ps: nat, p: Pattern): (r: Option<Span>)
    requires ps <= |t|
    ensures r.Some? ==> r.value.pkgStart == ps <= r.value.pkgEnd < r.value.urlEnd
    ensures r.Some? ==> r.value.urlEnd + 3 <= |t|
  {
    if !p.goModule then SpanFrom(t, ps, ps, p)
    else if GoHost(t, ps) then SpanFrom(t, ps, ps + 11, p)
    else None
  }

  /** The URL capture from `u`. */
  function UrlAt(t: string, u: nat, p: Pattern): (r: Option<Span>)
    requires u <= |t|
    ensures r.Some? ==> u <= r.value.pkgStart <= r.value.pkgEnd < r.value.urlEnd
    ensures r.Some? ==> r.value.urlEnd + 3 <= |t|
  {
    if !StartsAt(t, u, p.head) then None else PkgFrom(t, u + |p.head|, p)
  }

  /** An ecosystem pattern matched at the start of `t`. */
  function EcoAt(t: string, p: Pattern): (r: Option<Captures>)
    ensures r.Some? ==> StartsAt(t, 0, p.open)
  {
    if !StartsAt(t, 0, p.open) then None
    else
      match ScanEnd(t, |p.open|)
      case None => None
      case Some(v) => AfterVersion(t, p, v)
  }

  /** The rest of an ecosystem match once the version capture ends at `v`. */
  function AfterVersion(t: string, p: Pattern, v: nat): Option<Captures>
    requires |p.open| <= v <= |t|
  {
    if !StartsAt(t, v, "] ") then None
    else
      match UrlAt(t, v + 2, p)
      case None => None
      case Some(c) => Some(CapturesAt(t, |p.open|, v, c))
  }

  /** The four captures, from where the version ends (`v`) and the URL's span. */
  function CapturesAt(t: string, o: nat, v: nat, c: Span): Captures
    requires o <= v && v + 2 <= c.pkgStart <= c.pkgEnd <= c.urlEnd && c.urlEnd + 3 <= |t|
  {
    Captures(t[o..v], t[v + 2..c.urlEnd], t[c.pkgStart..c.pkgEnd], PathAt(t, c.urlEnd + 3))
  }

  /** The greedy `(.*)`: the rest of the line. */
  function PathAt(t: string, i: nat): string
    requires i <= |t|
  {
    t[i..LineEnd(t, i)]
  }

  /** `FindStringSubmatch` for an ecosystem pattern: the leftmost match. */
  function EcoMatch(s: string, e: Registry): Option<Captures> {
    Leftmost(s, EcoPattern(e))
  }

  /** The ecosystem's pattern, anchored at the start of its argument. */
  function EcoPattern(e: Registry): string -> Option<Captures> {
    t => EcoAt(t, PatternOf(e))
  }

  // ---- The record.

  /** Go's `strings.TrimPrefix`. */
  function TrimPrefix(s: string, prefix: string): string {
    if |prefix| <= |s| && s[..|prefix|] == prefix then s[|prefix|..] else s
  }

  /** A Go module outside the repository root is named after its directory. */
  function GoPackageName(pkg: string, path: string): string {
    if path != "." then pkg + "/" + TrimPrefix(path, "./") else pkg
  }

  /** The map entry built from a match. */
  function Entry(e: Registry, c: Captures): LanguageReleaseInfo {
    LanguageReleaseInfo(if e == GoModule then GoPackageName(c.pkg, c.path) else c.pkg, c.path, c.version, c.url)
  }

  function WithEntry(m: map<string, LanguageReleaseInfo>, e: Registry, c: Option<Captures>): map<string, LanguageReleaseInfo> {
    match c
    case None => m
    case Some(x) => m[LangOf(e) := Entry(e, x)]
  }

  /** The map `ParseReleases` fills from the four matches, in the order of the source. */
  function Assemble(npm: Option<Captures>, pypi: Option<Captures>, gomod: Option<Captures>, composer: Option<Captures>): (m: map<string, LanguageReleaseInfo>)
    ensures m.Keys <= Ecosystems
  {
    var m0: map<string, LanguageReleaseInfo> := map[];
    WithEntry(WithEntry(WithEntry(WithEntry(m0, Npm, npm), PyPI, pypi), GoModule, gomod), Composer, composer)
  }

  /** The language map: one entry per ecosystem pattern that matches the block. */
  function Languages(s: string): (m: map<string, LanguageReleaseInfo>)
    ensures m.Keys <= Ecosystems
  {
    Assemble(EcoMatch(s, Npm), EcoMatch(s, PyPI), EcoMatch(s, GoModule), EcoMatch(s, Composer))
  }

  /** The match an ecosystem contributes to `Assemble`. */
  function Pick(e: Registry, npm: Option<Captures>, pypi: Option<Captures>, gomod: Option<Captures>, composer: Option<Captures>): Option<Captures> {
    match e
    case Npm => npm
    case PyPI => pypi
    case GoModule => gomod
    case Composer => composer
  }

  /** What `ParseReleases` returns for the whole ledger text `data`. */
  function ParseSpec(data: string): Result<ReleasesInfo, ParseError> {
    var last := LastPiece(data, "\n\n");
    match MatchHeader(last)
    case None => Failure(LastReleaseUnparsable)
    case Some(h) => Success(ReleasesInfo(h.title, h.docVersion, h.toolVersion, h.docLocation, Languages(last)))
  }

  // ---- Lemmas.

  /** The language map has an entry for an ecosystem exactly when its pattern
      matches, and the entry is built from that match. */
  lemma LanguagesEntries(s: string, e: Registry)
    ensures LangOf(e) in Languages(s) <==> EcoMatch(s, e).Some?
    ensures EcoMatch(s, e).Some? ==> Languages(s)[LangOf(e)] == Entry(e, EcoMatch(s, e).value)
  {
    var n, p, g, c := EcoMatch(s, Npm), EcoMatch(s, PyPI), EcoMatch(s, GoModule), EcoMatch(s, Composer);
    assert Pick(e, n, p, g, c) == EcoMatch(s, e);
    AssembleEntries(e, n, p, g, c);
  }

  /** Each ecosystem's entry in the assembled map comes from its own match only. */
  lemma AssembleEntries(e: Registry, npm: Option<Captures>, pypi: Option<Captures>, gomod: Option<Captures>, composer: Option<Captures>)
    ensures LangOf(e) in Assemble(npm, pypi, gomod, composer) <==> Pick(e, npm, pypi, gomod, composer).Some?
    ensures Pick(e, npm, pypi, gomod, composer).Some? ==>
      Assemble(npm, pypi, gomod, composer)[LangOf(e)] == Entry(e, Pick(e, npm, pypi, gomod, composer).value)
  {
  }

  /** A captured version is always `\d+\.\d+\.\d+`: a line with any other version
      text does not match. */
  lemma EcoVersionShaped(t: string, p: Pattern)
    requires EcoAt(t, p).Some?
    ensures IsVersionText(EcoAt(t, p).value.version)
  {
    var v := ScanEnd(t, |p.open|).value;
    ScanEndSlice(t, |p.open|, v);
  }

  /** The text a version scan covers is version-shaped. */
  lemma ScanEndSlice(t: string, a: nat, v: nat)
    requires a <= |t| && ScanEnd(t, a) == Some(v)
    ensures IsVersionText(t[a..v])
  {
    var c := Cuts(t, a).value;
    var x := t[a..v];
    forall k | 0 <= k < |x| ensures x[k] == t[a + k] { }
    DigitRunEndDigits(t, a);
    DigitRunEndDigits(t, c.0 + 1);
    DigitRunEndDigits(t, c.1 + 1);
    DigitRunEndIs(x, 0, c.0 - a);
    DigitRunEndIs(x, c.0 - a + 1, c.1 - a);
    DigitRunEndIs(x, c.1 - a + 1, |x|);
  }

  /** Only the header decides between a record and an error; ecosystem lines that are
      missing or do not match only leave their entry out. */
  lemma ErrorIffNoHeader(data: string)
    ensures ParseSpec(data).Failure? <==> MatchHeader(LastPiece(data, "\n\n")).None?
    ensures ParseSpec(data).Success? ==> ParseSpec(data).value.languages == Languages(LastPiece(data, "\n\n"))
  {
  }

  /** A last block without the `### Changes` / `Based on:` preamble before the document
      version has no header match at any position, so parsing fails. */
  lemma NoPreambleFails(data: string)
    requires NoOcc(LastPiece(data, "\n\n"), DocMark)
    ensures ParseSpec(data).Failure?
  {
    var last := LastPiece(data, "\n\n");
    forall p | 0 <= p <= |last| ensures HeaderAt(last[p..]).None? {
      NoOccSuffix(last, p, DocMark);
    }
    LeftmostNone(last, HeaderAt);
  }

  /** An empty ledger has no last release. */
  lemma EmptyFails()
    ensures ParseSpec("").Failure?
  {
    LastPieceNoSep("", "\n\n");
    NoPreambleFails("");
  }

  /** `TrimPrefix` removes the prefix exactly when the string starts with it: putting
      the prefix back gives the string, and otherwise the string is kept. */
  lemma TrimPrefixInverse(s: string, prefix: string)
    ensures |prefix| <= |s| && s[..|prefix|] == prefix ==> prefix + TrimPrefix(s, prefix) == s
    ensures !(|prefix| <= |s| && s[..|prefix|] == prefix) ==> TrimPrefix(s, prefix) == s
    ensures |TrimPrefix(s, prefix)| <= |s|
  {
    if |prefix| <= |s| && s[..|prefix|] == prefix {
      assert s == s[..|prefix|] + s[|prefix|..];
    }
  }

  /** The Go package name: the captured module path at the repository root, and for a
      module in a subdirectory the module path, `/` and the directory without its
      leading `./`. */
  lemma GoPackageNameCases(pkg: string, path: string)
    ensures path == "." ==> GoPackageName(pkg, path) == pkg
    ensures path != "." && |path| >= 2 && path[..2] == "./" ==> GoPackageName(pkg, path) == pkg + "/" + path[2..]
    ensures path != "." && !(|path| >= 2 && path[..2] == "./") ==> GoPackageName(pkg, path) == pkg + "/" + path
  {
  }

  /** `ParseReleases`: the header fields, then one entry per matching ecosystem, in
      the order of the source. */
  method ParseReleases(data: string) returns (r: Result<ReleasesInfo, ParseError>)
    ensures r == ParseSpec(data)
  {
    var releases := Split(data, "\n\n");
    var lastRelease := releases[|releases| - 1];
    assert lastRelease == LastPiece(data, "\n\n");
    var matches := MatchHeader(lastRelease);
    if matches.None? {
      return Failure(LastReleaseUnparsable);
    }
    var languages: map<string, LanguageReleaseInfo> := map[];
    var npmMatches := EcoMatch(lastRelease, Npm);
    languages := AddMatch(languages, Npm, npmMatches);
    var pypiMatches := EcoMatch(lastRelease, PyPI);
    languages := AddMatch(languages, PyPI, pypiMatches);
    var goMatches := EcoMatch(lastRelease, GoModule);
    languages := AddMatch(languages, GoModule, goMatches);
    var composerMatches := EcoMatch(lastRelease, Composer);
    languages := AddMatch(languages, Composer, composerMatches);
    var info := ReleasesInfo(matches.value.title, matches.value.docVersion, matches.value.toolVersion,
      matches.value.docLocation, languages);
    r := Success(info);
  }

  /** One `if len(xMatches) > 0 { info.Languages[lang] = ... }` step of `ParseReleases`;
      for Go the package name takes the module's directory. */
  method AddMatch(languages: map<string, LanguageReleaseInfo>, e: Registry, matches: Option<Captures>)
    returns (r: map<string, LanguageReleaseInfo>)
    ensures r == WithEntry(languages, e, matches)
  {
    r := languages;
    if matches.Some? {
      var packageName := matches.value.pkg;
      var path := matches.value.path;
      if e == GoModule && path != "." {
        packageName := packageName + "/" + TrimPrefix(path, "./");
      }
      r := r[LangOf(e) := LanguageReleaseInfo(packageName, path, matches.value.version, matches.value.url)];
    }
  }
}
