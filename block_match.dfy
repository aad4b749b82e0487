/** Reading back a whole entry that `String()` wrote: the header pattern recovers the
    four header fields, and each ecosystem pattern finds, as its leftmost match, the
    line `String()` wrote for that language, when the fields are free of the
    characters the patterns treat as delimiters. */
module BlockMatch {
  import opened Wrappers
  import opened Text
  import opened SemVer
  import opened MapOrder
  import opened ReleaseFormat
  import opened ReleaseParse
  import opened LineMatch
  import opened RoundTrip

  // ---- One release line as the patterns see it.

  /** What the package capture of a language's line holds: the registry name, or for
      Go the host and the repository. */
  function PkgOf(e: Registry, li: LanguageReleaseInfo, repo: string): string {
    if e == GoModule then GoHostText + repo else li.packageName
  }

  /** What follows `p.mid` in the URL: the version, or for Go the release tag. */
  function TailOf(e: Registry, li: LanguageReleaseInfo): string {
    if e == GoModule then GoTail(li.path, li.version) else li.version
  }

  /** The four captures of the line `String()` writes for a language. */
  function CapsOf(e: Registry, li: LanguageReleaseInfo, repo: string): Captures {
    Captures(li.version, PackageUrl(LangOf(e), li, repo), PkgOf(e, li, repo), li.path)
  }

  /** The fields of a line that the ecosystem patterns read back: a `N.N.N` version,
      and no newline (`.` stops there) or `[` (which opens every line) in what is
      written; no space in a registry name (a space ends the URL) or, for Go, in the
      module's directory, and no `/releases/tag/` inside the repository name. */
  predicate LineClean(lang: string, li: LanguageReleaseInfo, repo: string) {
    IsVersionText(li.version) && '\n' !in li.path && '[' !in li.path &&
    if lang == "go" then StopsAt(repo, "/releases/tag/") && '\n' !in repo && '[' !in repo && ' ' !in li.path
    else ' ' !in li.packageName && '\n' !in li.packageName && '[' !in li.packageName
  }

  /** The Go release tag, grouped the way the patterns read it. */
  lemma GoTagTail(li: LanguageReleaseInfo)
    ensures GoTag(li) == GoTail(li.path, li.version)
  {
    if li.path != "." {
      Regroup(li.path, "/", "v" + li.version);
      Regroup(li.path + "/", "v", li.version);
    }
  }

  /** The URL of a language's line is the pattern's head, the package capture, the
      pattern's `mid` and the tail. */
  lemma UrlOf(e: Registry, li: LanguageReleaseInfo, repo: string)
    ensures PackageUrl(LangOf(e), li, repo) == UrlText(PatternOf(e), PkgOf(e, li, repo), TailOf(e, li))
  {
    var p, pkg, tail := PatternOf(e), PkgOf(e, li, repo), TailOf(e, li);
    match e
    case GoModule =>
      GoTagTail(li);
      assert "https://github.com/" == p.head + GoHostText;
      Regroup(p.head, GoHostText, repo);
      Regroup(p.head + pkg, p.mid, tail);
      Regroup(p.head, pkg, p.mid + tail);
    case _ =>
      Regroup(p.head + pkg, p.mid, tail);
      Regroup(p.head, pkg, p.mid + tail);
  }

  /** A language's line is the text the line lemmas read. */
  lemma LineOf(e: Registry, li: LanguageReleaseInfo, repo: string)
    ensures ReleaseLine(LangOf(e), li, repo) == LineText(PatternOf(e), li.version, PkgOf(e, li, repo), TailOf(e, li), li.path)
  {
    var p, url := PatternOf(e), PackageUrl(LangOf(e), li, repo);
    OpenLabel(e);
    UrlOf(e, li, repo);
    Regroup(p.open + li.version + "] " + url, " - ", li.path);
    Regroup(p.open + li.version + "] ", url, " - " + li.path);
    Regroup(p.open + li.version, "] ", url + (" - " + li.path));
    Regroup(p.open, li.version, "] " + (url + (" - " + li.path)));
  }

  /** The pattern of a language captures the version, URL, package and path of the
      line `String()` writes for it, when the line ends the text or a newline follows. */
  lemma LineCaptures(e: Registry, li: LanguageReleaseInfo, repo: string, rest: string)
    requires LineClean(LangOf(e), li, repo) && (rest == "" || rest[0] == '\n')
    ensures EcoAt(ReleaseLine(LangOf(e), li, repo) + rest, PatternOf(e)) == Some(CapsOf(e, li, repo))
  {
    var p := PatternOf(e);
    LineOf(e, li, repo);
    UrlOf(e, li, repo);
    PatternMids(e);
    if e == GoModule {
      GoLine(p, li.version, repo, li.path, rest);
    } else {
      NonGoLine(p, li.version, li.packageName, li.path, rest);
    }
  }

  // ---- Where a pattern can start.

  /** A line after its label. */
  function LineTail(lang: string, li: LanguageReleaseInfo, repo: string): string {
    li.version + "] " + PackageUrl(lang, li, repo) + " - " + li.path
  }

  /** Every line opens with `- [`, the label and ` v`. */
  lemma LineFront(lang: string, li: LanguageReleaseInfo, repo: string)
    ensures ReleaseLine(lang, li, repo) == "- [" + ((Label(lang) + " v") + LineTail(lang, li, repo))
  {
    var url, a := PackageUrl(lang, li, repo), "- [" + Label(lang) + " v";
    Regroup(a, li.version, "] ");
    Regroup(a, li.version + "] ", url);
    Regroup(a, li.version + "] " + url, " - ");
    Regroup(a, li.version + "] " + url + " - ", li.path);
    Regroup("- [", Label(lang), " v");
    Regroup("- [", Label(lang) + " v", LineTail(lang, li, repo));
  }

  /** Version text holds neither a bracket, a newline nor a space. */
  lemma VersionPlain(x: string)
    requires IsVersionText(x)
    ensures '[' !in x && '\n' !in x && ' ' !in x
  {
    VersionChars(x);
  }

  /** After its `- [`, a clean line holds no bracket and no newline. */
  lemma LinePlain(lang: string, li: LanguageReleaseInfo, repo: string)
    requires LineClean(lang, li, repo) && Label(lang) != ""
    ensures Plain((Label(lang) + " v") + LineTail(lang, li, repo))
  {
    VersionPlain(li.version);
    UrlPlain(lang, li, repo);
    assert Plain(Label(lang)) && Plain(" v") && Plain("] ") && Plain(" - ");
    PlainCat(li.version, "] ");
    PlainUrl(li.version + "] ", PackageUrl(lang, li, repo), " - ", li.path);
    PlainCat(Label(lang), " v");
    PlainCat(Label(lang) + " v", LineTail(lang, li, repo));
  }

  /** Text free of brackets and newlines, in pieces. */
  predicate Plain(x: string) {
    '[' !in x && '\n' !in x
  }

  lemma PlainCat(x: string, y: string)
    requires Plain(x) && Plain(y)
    ensures Plain(x + y)
  {
  }

  /** A URL assembled from plain pieces is plain. */
  lemma PlainUrl(head: string, pkg: string, mid: string, tail: string)
    requires Plain(head) && Plain(pkg) && Plain(mid) && Plain(tail)
    ensures Plain(head + pkg + mid + tail)
  {
    PlainCat(head, pkg);
    PlainCat(head + pkg, mid);
    PlainCat(head + pkg + mid, tail);
  }

  lemma PlainGoLits() ensures Plain("https://github.com/") && Plain("/releases/tag/") {}
  lemma PlainNpmLits() ensures Plain("https://www.npmjs.com/package/") && Plain("/v/") {}
  lemma PlainPyPILits() ensures Plain("https://pypi.org/project/") && Plain("/") {}
  lemma PlainComposerLits() ensures Plain("https://packagist.org/packages/") && Plain("#v") {}

  /** A clean line's URL holds no bracket and no newline. */
  lemma UrlPlain(lang: string, li: LanguageReleaseInfo, repo: string)
    requires LineClean(lang, li, repo) && Label(lang) != ""
    ensures Plain(PackageUrl(lang, li, repo))
  {
    VersionPlain(li.version);
    if lang == "go" {
      var g := GoTag(li);
      assert Plain("/") && Plain("v");
      if li.path != "." {
        PlainUrl(li.path, "/", "v", li.version);
      } else {
        PlainCat("v", li.version);
      }
      PlainGoLits();
      PlainUrl("https://github.com/", repo, "/releases/tag/", g);
    } else if lang == "typescript" {
      PlainNpmLits();
      PlainUrl("https://www.npmjs.com/package/", li.packageName, "/v/", li.version);
    } else if lang == "python" {
      PlainPyPILits();
      PlainUrl("https://pypi.org/project/", li.packageName, "/", li.version);
    } else {
      PlainComposerLits();
      PlainUrl("https://packagist.org/packages/", li.packageName, "#v", li.version);
    }
  }

  /** Two different space-free labels: where one opens a line, the other's opening
      does not start. */
  lemma OpenMismatch(s: string, i: nat, a: string, b: string)
    requires StartsAt(s, i, "- [" + b + " v") && ' ' !in a && ' ' !in b && a != b
    ensures !StartsAt(s, i, "- [" + a + " v")
  {
    var A, B := "- [" + a + " v", "- [" + b + " v";
    if |a| < |b| {
      CharAt(s, i, B, 3 + |a|);
      assert B[3 + |a|] == b[|a|] && A[3 + |a|] == ' ';
      NotStartsAt(s, i, A, 3 + |a|);
    } else if |b| < |a| {
      CharAt(s, i, B, 3 + |b|);
      assert B[3 + |b|] == ' ' && A[3 + |b|] == a[|b|];
      NotStartsAt(s, i, A, 3 + |b|);
    } else {
      var k :| 0 <= k < |a| && a[k] != b[k];
      CharAt(s, i, B, 3 + k);
      assert B[3 + k] == b[k] && A[3 + k] == a[k];
      NotStartsAt(s, i, A, 3 + k);
    }
  }

  /** Each pattern opens with `- [`. */
  lemma OpenBracket(e: Registry)
    ensures |PatternOf(e).open| > 3 && PatternOf(e).open[..3] == "- [" && PatternOf(e).open[2] == '['
  {
  }

  /** An ecosystem pattern does not start where its opening does not. */
  lemma NoOpenNoMatch(s: string, j: nat, e: Registry)
    requires j <= |s| && !StartsAt(s, j, PatternOf(e).open)
    ensures EcoPattern(e)(s[j..]).None?
  {
    StartsAtSuffix(s, j, PatternOf(e).open);
  }

  /** No pattern starts at a position whose third character is not a bracket. */
  lemma NoBracketNoMatch(s: string, j: nat, e: Registry)
    requires j <= |s| && (j + 2 >= |s| || s[j + 2] != '[')
    ensures EcoPattern(e)(s[j..]).None?
  {
    OpenBracket(e);
    NotStartsAt(s, j, PatternOf(e).open, 2);
    NoOpenNoMatch(s, j, e);
  }

  /** In bracket-free text followed by the end or by another line, no pattern starts. */
  lemma SkipPlain(x: string, y: string, e: Registry)
    requires '[' !in x && (y == "" || StartsAt(y, 0, "\n- ["))
    ensures forall j :: 0 <= j < |x| ==> EcoPattern(e)((x + y)[j..]).None?
  {
    var s := x + y;
    forall j | 0 <= j < |x| ensures EcoPattern(e)(s[j..]).None? {
      if j + 2 < |x| {
        assert s[j + 2] == x[j + 2];
      } else if j + 2 < |s| {
        CharAt(y, 0, "\n- [", j + 2 - |x|);
        assert s[j + 2] == y[j + 2 - |x|];
      }
      NoBracketNoMatch(s, j, e);
    }
  }

  /** Distinct languages with a label have distinct, space-free labels. */
  lemma LabelsDiffer(lang: string, e: Registry)
    requires Label(lang) != "" && lang != LangOf(e)
    ensures Label(LangOf(e)) != Label(lang) && ' ' !in Label(lang) && ' ' !in Label(LangOf(e))
  {
  }

  /** Where another language's opening starts, the pattern of `e` does not. */
  lemma SkipOther(s: string, i: nat, lang: string, e: Registry)
    requires i <= |s| && StartsAt(s, i, "- [" + Label(lang) + " v")
    requires Label(lang) != "" && lang != LangOf(e)
    ensures EcoPattern(e)(s[i..]).None?
  {
    LabelsDiffer(lang, e);
    OpenLabel(e);
    OpenMismatch(s, i, Label(LangOf(e)), Label(lang));
    NoOpenNoMatch(s, i, e);
  }

  /** Over the line of another language, and the newline before it, no pattern of
      `e` starts. */
  lemma SkipLine(lang: string, li: LanguageReleaseInfo, repo: string, y: string, e: Registry)
    requires LineClean(lang, li, repo) && Label(lang) != "" && lang != LangOf(e)
    requires y == "" || StartsAt(y, 0, "\n- [")
    ensures forall j :: 0 <= j < 1 + |ReleaseLine(lang, li, repo)| ==>
              EcoPattern(e)((("\n" + ReleaseLine(lang, li, repo)) + y)[j..]).None?
  {
    LineFront(lang, li, repo);
    LinePlain(lang, li, repo);
    SkipOpened(lang, LineTail(lang, li, repo), y, e);
  }

  /** The same, for any bracket-free line that opens with another language's label. */
  lemma SkipOpened(lang: string, w: string, y: string, e: Registry)
    requires Label(lang) != "" && lang != LangOf(e) && '[' !in (Label(lang) + " v") + w
    requires y == "" || StartsAt(y, 0, "\n- [")
    ensures forall j :: 0 <= j < 4 + |(Label(lang) + " v") + w| ==>
              EcoPattern(e)((("\n" + ("- [" + ((Label(lang) + " v") + w))) + y)[j..]).None?
  {
    var a := Label(lang) + " v";
    var s := ("\n" + ("- [" + (a + w))) + y;
    forall j | 0 <= j < 4 + |a + w| ensures EcoPattern(e)(s[j..]).None? {
      if j == 0 {
        assert s[0..] == s;
        NoEcoAtNewline(s, e);
      } else if j == 1 {
        var B := "- [" + a;
        forall k | 0 <= k < |B| ensures s[1 + k] == B[k] {
          if k >= 3 { assert s[1 + k] == (a + w)[k - 3]; }
        }
        assert B == "- [" + Label(lang) + " v";
        SkipOther(s, 1, lang, e);
      } else {
        SkipTail(a + w, y, e, j);
      }
    }
  }

  /** Past the `- ` that opens a bracket-free line, no pattern starts. */
  lemma SkipTail(r: string, y: string, e: Registry, j: nat)
    requires '[' !in r && (y == "" || StartsAt(y, 0, "\n- ["))
    requires 2 <= j < 4 + |r|
    ensures EcoPattern(e)((("\n" + ("- [" + r)) + y)[j..]).None?
  {
    var x := "\n" + ("- [" + r);
    var s := x + y;
    if j + 2 < |x| {
      assert s[j + 2] == r[j - 2];
    } else if j + 2 < |s| {
      CharAt(y, 0, "\n- [", j + 2 - |x|);
      assert s[j + 2] == y[j + 2 - |x|];
    }
    NoBracketNoMatch(s, j, e);
  }

  // ---- The release list, line by line.

  /** Every language with a line has clean fields. */
  predicate LinesClean(langs: map<string, LanguageReleaseInfo>, repo: string) {
    forall l :: l in langs && Label(l) != "" ==> LineClean(l, langs[l], repo)
  }

  /** Visiting the first language, then the rest. */
  lemma {:induction false} LinesCons(o: string, os: seq<string>, langs: map<string, LanguageReleaseInfo>, repo: string)
    ensures Lines([o] + os, langs, repo) == Lines([o], langs, repo) + Lines(os, langs, repo)
    decreases |os|
  {
    var order := [o] + os;
    if os == [] {
      assert order == [o];
    } else {
      var init := os[..|os| - 1];
      assert order[..|order| - 1] == [o] + init;
      assert order[|order| - 1] == os[|os| - 1];
      LinesCons(o, init, langs, repo);
    }
  }

  /** The list of lines is the first line, newline-led, then the others. */
  lemma {:induction false} BulletsCons(l: string, ls: seq<string>)
    ensures Bullets([l] + ls) == "\n" + l + Bullets(ls)
    decreases |ls|
  {
    var all := [l] + ls;
    if ls == [] {
      assert all[..|all| - 1] == [];
    } else {
      var init := ls[..|ls| - 1];
      assert all[..|all| - 1] == [l] + init;
      BulletsCons(l, init);
      Regroup("\n" + l, Bullets(init), "\n" + ls[|ls| - 1]);
      Regroup(Bullets(init), "\n", ls[|ls| - 1]);
      Regroup("\n" + l, Bullets(init) + "\n", ls[|ls| - 1]);
    }
  }

  /** A non-empty list, and so what follows a line, starts a new line `- [`. */
  lemma {:induction false} BulletsOpen(order: seq<string>, langs: map<string, LanguageReleaseInfo>, repo: string)
    ensures Bullets(Lines(order, langs, repo)) == "" || StartsAt(Bullets(Lines(order, langs, repo)), 0, "\n- [")
    decreases |order|
  {
    if order != [] {
      var o, os := order[0], order[1..];
      assert order == [o] + os;
      LinesCons(o, os, langs, repo);
      BulletsOpen(os, langs, repo);
      var first := Lines([o], langs, repo);
      assert [o][..0] == [];
      if first == [] {
        assert Lines(order, langs, repo) == Lines(os, langs, repo);
      } else {
        var l := ReleaseLine(o, langs[o], repo);
        assert first == [l];
        BulletsCons(l, Lines(os, langs, repo));
        LineFront(o, langs[o], repo);
        OpenedStarts((Label(o) + " v") + LineTail(o, langs[o], repo), Bullets(Lines(os, langs, repo)));
      }
    }
  }

  lemma OpenedStarts(r: string, y: string)
    ensures StartsAt(("\n" + ("- [" + r)) + y, 0, "\n- [")
  {
    var b := ("\n" + ("- [" + r)) + y;
    assert b[0] == '\n' && b[1] == '-' && b[2] == ' ' && b[3] == '[';
  }

  /** What the pattern of `e` finds in the list: the line of its language, when that
      language was visited and has an entry. */
  function Want(e: Registry, order: seq<string>, langs: map<string, LanguageReleaseInfo>, repo: string): Option<Captures> {
    if LangOf(e) in order && LangOf(e) in langs then Some(CapsOf(e, langs[LangOf(e)], repo)) else None
  }

  /** Scanning the list, the leftmost match of the pattern of `e` is the line of its
      language, and there is none when that language has no line. */
  lemma {:induction false} ScanLines(order: seq<string>, langs: map<string, LanguageReleaseInfo>, repo: string, e: Registry)
    requires LinesClean(langs, repo)
    ensures Leftmost(Bullets(Lines(order, langs, repo)), EcoPattern(e)) == Want(e, order, langs, repo)
    decreases |order|
  {
    if order == [] {
      LeftmostNone("", EcoPattern(e));
    } else {
      var o, os := order[0], order[1..];
      assert order == [o] + os;
      if o == LangOf(e) && o in langs {
        ScanFirst(os, langs, repo, e);
      } else {
        ScanPast(o, os, langs, repo, e);
        ScanLines(os, langs, repo, e);
      }
    }
  }

  /** A list led by the line of the language of `e` matches there. */
  lemma ScanFirst(os: seq<string>, langs: map<string, LanguageReleaseInfo>, repo: string, e: Registry)
    requires LinesClean(langs, repo) && LangOf(e) in langs
    ensures Leftmost(Bullets(Lines([LangOf(e)] + os, langs, repo)), EcoPattern(e)) == Some(CapsOf(e, langs[LangOf(e)], repo))
  {
    var o := LangOf(e);
    LinesCons(o, os, langs, repo);
    assert [o][..0] == [];
    var l := ReleaseLine(o, langs[o], repo);
    assert Lines([o], langs, repo) == [l];
    BulletsCons(l, Lines(os, langs, repo));
    BulletsOpen(os, langs, repo);
    ScanHit(e, langs[o], repo, Bullets(Lines(os, langs, repo)));
  }

  /** The line of another language, or none, is passed over. */
  lemma ScanPast(o: string, os: seq<string>, langs: map<string, LanguageReleaseInfo>, repo: string, e: Registry)
    requires LinesClean(langs, repo) && !(o == LangOf(e) && o in langs)
    ensures Leftmost(Bullets(Lines([o] + os, langs, repo)), EcoPattern(e)) == Leftmost(Bullets(Lines(os, langs, repo)), EcoPattern(e))
  {
    LinesCons(o, os, langs, repo);
    assert [o][..0] == [];
    if o in langs && Label(o) != "" {
      var l := ReleaseLine(o, langs[o], repo);
      var y := Bullets(Lines(os, langs, repo));
      assert Lines([o], langs, repo) == [l];
      BulletsCons(l, Lines(os, langs, repo));
      BulletsOpen(os, langs, repo);
      SkipLine(o, langs[o], repo, y, e);
      LeftmostSkip("\n" + l, y, EcoPattern(e));
    } else {
      assert Lines([o] + os, langs, repo) == Lines(os, langs, repo);
    }
  }

  /** A list that starts with the line of the language of `e` matches there. */
  lemma ScanHit(e: Registry, li: LanguageReleaseInfo, repo: string, y: string)
    requires LineClean(LangOf(e), li, repo)
    requires y == "" || StartsAt(y, 0, "\n- [")
    ensures Leftmost(("\n" + ReleaseLine(LangOf(e), li, repo)) + y, EcoPattern(e)) == Some(CapsOf(e, li, repo))
  {
    if y != "" { CharAt(y, 0, "\n- [", 0); }
    LineCaptures(e, li, repo, y);
    ScanAt(ReleaseLine(LangOf(e), li, repo), y, e);
  }

  /** Right after a newline, a match is the leftmost one. */
  lemma ScanAt(x: string, y: string, e: Registry)
    ensures EcoPattern(e)(x + y).Some? ==> Leftmost(("\n" + x) + y, EcoPattern(e)) == EcoPattern(e)(x + y)
  {
    var b := x + y;
    if EcoPattern(e)(b).Some? {
      Regroup("\n", x, y);
      NoEcoAtNewline("\n" + b, e);
      LeftmostShift('\n', b, EcoPattern(e));
      assert b[0..] == b;
      LeftmostAt(b, EcoPattern(e), 0);
    }
  }

  // ---- The whole entry.

  /** The heading of a non-empty release list. */
  const ReleasesMark := "\n### Releases"

  /** Header fields the header pattern reads back, and that keep the entry a single
      block: no newline (a blank line would split the entry) and no `[` anywhere, and
      no space in the two versions (a space ends their captures). */
  predicate HeaderClean(info: ReleasesInfo) {
    '\n' !in info.releaseTitle && '\n' !in info.docVersion && '\n' !in info.docLocation && '\n' !in info.speakeasyVersion &&
    '[' !in info.releaseTitle && '[' !in info.docVersion && '[' !in info.docLocation && '[' !in info.speakeasyVersion &&
    ' ' !in info.docVersion && ' ' !in info.speakeasyVersion
  }

  /** Ten pieces joined to the left are the same pieces joined to the right. */
  lemma Nest(a: string, b: string, t: string, c: string, dv: string, s: string, dl: string, d: string, tv: string, e: string, u: string)
    ensures (((((((((a + b) + t) + c) + dv) + s) + dl) + d) + tv) + e) + u ==
            a + ((b + (t + (c + (dv + (s + (dl + (d + (tv + e)))))))) + u)
  {
    var E := e + u;
    Regroup((((((((a + b) + t) + c) + dv) + s) + dl) + d) + tv, e, u);
    Regroup(((((((a + b) + t) + c) + dv) + s) + dl) + d, tv, E);
    Regroup((((((a + b) + t) + c) + dv) + s) + dl, d, tv + E);
    Regroup(((((a + b) + t) + c) + dv) + s, dl, d + (tv + E));
    Regroup((((a + b) + t) + c) + dv, s, dl + (d + (tv + E)));
    Regroup(((a + b) + t) + c, dv, s + (dl + (d + (tv + E))));
    Regroup((a + b) + t, c, dv + (s + (dl + (d + (tv + E)))));
    Regroup(a + b, t, c + (dv + (s + (dl + (d + (tv + E))))));
    Regroup(a, b, t + (c + (dv + (s + (dl + (d + (tv + E)))))));
    Regroup(tv, e, u);
    Regroup(d, tv + e, u);
    Regroup(dl, d + (tv + e), u);
    Regroup(s, dl + (d + (tv + e)), u);
    Regroup(dv, s + (dl + (d + (tv + e))), u);
    Regroup(c, dv + (s + (dl + (d + (tv + e)))), u);
    Regroup(t, c + (dv + (s + (dl + (d + (tv + e))))), u);
    Regroup(b, t + (c + (dv + (s + (dl + (d + (tv + e)))))), u);
  }

  /** The header of an entry is a blank line, then the text the header pattern reads,
      then the tool's URL. */
  lemma HeaderSplit(info: ReleasesInfo)
    ensures Header(info) == "\n\n" + (HeaderText(info.releaseTitle, info.docVersion, info.docLocation, info.speakeasyVersion) + ToolUrl)
  {
    Nest("\n\n", TitleMark, info.releaseTitle, DocMark, info.docVersion, " ", info.docLocation, ToolMark,
         info.speakeasyVersion, " ", ToolUrl);
  }

  // ---- No blank line inside an entry.

  /** A string has no blank line when no newline is followed by another. */
  lemma NoSepByChars(s: string)
    requires forall k :: 0 <= k < |s| - 1 ==> s[k] != '\n' || s[k + 1] != '\n'
    ensures NoSep(s)
  {
    forall i | 0 <= i <= |s| ensures !StartsAt(s, i, "\n\n") {
      if i + 1 < |s| && s[i] != '\n' {
        NotStartsAt(s, i, "\n\n", 0);
      } else {
        NotStartsAt(s, i, "\n\n", 1);
      }
    }
  }

  /** A newline-free field in front keeps a text free of blank lines. */
  lemma NoSepField(x: string, r: string)
    requires '\n' !in x && NoSep(r)
    ensures NoSep(x + r)
  {
    NoSepWithoutNewline(x);
    if |x| > 0 { assert x[|x| - 1] in x; }
    NoSepConcat(x, r);
  }

  lemma DocMarkFacts()
    ensures NoSep(DocMark) && DocMark[|DocMark| - 1] == ' ' && '[' !in DocMark
  {
    NoSepByChars(DocMark);
  }

  lemma ToolMarkFacts()
    ensures NoSep(ToolMark) && ToolMark[|ToolMark| - 1] == ' ' && '[' !in ToolMark
  {
    NoSepByChars(ToolMark);
  }

  lemma TitleMarkFacts()
    ensures '\n' !in TitleMark && '[' !in TitleMark && TitleMark[0] == '#'
  {
  }

  lemma ToolUrlFacts()
    ensures '\n' !in ToolUrl && '[' !in ToolUrl
  {
  }

  lemma ReleasesMarkFacts()
    ensures NoSep(ReleasesMark) && ReleasesMark[|ReleasesMark| - 1] == 's' && '[' !in ReleasesMark
  {
    NoSepByChars(ReleasesMark);
  }

  /** A header with newline-free fields, and what follows it, has no blank line when
      what follows has none. */
  lemma HeadNoSep(title: string, dv: string, dl: string, tv: string, r: string)
    requires '\n' !in title && '\n' !in dv && '\n' !in dl && '\n' !in tv && NoSep(r)
    ensures NoSep(HeaderText(title, dv, dl, tv) + r)
  {
    DocMarkFacts();
    ToolMarkFacts();
    TitleMarkFacts();
    HeaderTextRest(title, dv, dl, tv, r);
    var r1 := " " + r;
    NoSepField(" ", r);
    var r2 := tv + r1;
    NoSepField(tv, r1);
    var r3 := ToolMark + r2;
    NoSepConcat(ToolMark, r2);
    var r4 := dl + r3;
    NoSepField(dl, r3);
    var r5 := " " + r4;
    NoSepField(" ", r4);
    var r6 := dv + r5;
    NoSepField(dv, r5);
    var r7 := DocMark + r6;
    NoSepConcat(DocMark, r6);
    var r8 := title + r7;
    NoSepField(title, r7);
    NoSepField(TitleMark, r8);
  }

  /** A header with bracket-free fields is bracket-free. */
  lemma HeadBracketFree(title: string, dv: string, dl: string, tv: string)
    requires '[' !in title && '[' !in dv && '[' !in dl && '[' !in tv
    ensures '[' !in HeaderText(title, dv, dl, tv)
  {
    DocMarkFacts();
    ToolMarkFacts();
    TitleMarkFacts();
  }

  /** The list of lines has no blank line. */
  lemma {:induction false} BulletsNoSep(order: seq<string>, langs: map<string, LanguageReleaseInfo>, repo: string)
    requires LinesClean(langs, repo)
    ensures NoSep(Bullets(Lines(order, langs, repo)))
    decreases |order|
  {
    if order == [] {
      NoSepWithoutNewline("");
    } else {
      var o, os := order[0], order[1..];
      assert order == [o] + os;
      LinesCons(o, os, langs, repo);
      assert [o][..0] == [];
      BulletsNoSep(os, langs, repo);
      var y := Bullets(Lines(os, langs, repo));
      if o in langs && Label(o) != "" {
        var l := ReleaseLine(o, langs[o], repo);
        assert Lines([o], langs, repo) == [l];
        BulletsCons(l, Lines(os, langs, repo));
        LineNoSep(o, langs[o], repo, y);
      } else {
        assert Lines([o] + os, langs, repo) == Lines(os, langs, repo);
      }
    }
  }

  /** A newline, a clean line, then text without a blank line: still none. */
  lemma LineNoSep(lang: string, li: LanguageReleaseInfo, repo: string, y: string)
    requires LineClean(lang, li, repo) && Label(lang) != "" && NoSep(y)
    ensures NoSep(("\n" + ReleaseLine(lang, li, repo)) + y)
  {
    LineFront(lang, li, repo);
    LinePlain(lang, li, repo);
    OpenedNoSep((Label(lang) + " v") + LineTail(lang, li, repo), y);
  }

  lemma OpenedNoSep(r: string, y: string)
    requires '\n' !in r && NoSep(y)
    ensures NoSep(("\n" + ("- [" + r)) + y)
  {
    var l := "- [" + r;
    assert '\n' !in l;
    NoSepField(l, y);
    Regroup("\n", l, y);
    assert ("\n" + (l + y))[1] == '-';
    NoSepWithoutNewline("");
    NoSepConcat("\n", l + y);
  }

  /** The release list has no blank line. */
  lemma ReleasesNoSep(order: seq<string>, langs: map<string, LanguageReleaseInfo>, repo: string)
    requires LinesClean(langs, repo)
    ensures NoSep(ReleasesBlock(Lines(order, langs, repo)))
  {
    var lines := Lines(order, langs, repo);
    ReleasesBlockShape(lines);
    BulletsNoSep(order, langs, repo);
    if lines != [] {
      ReleasesMarkFacts();
      NoSepConcat(ReleasesMark, Bullets(lines));
    } else {
      NoSepWithoutNewline("");
    }
  }

  // ---- Reading the entry back.

  /** An entry without its leading blank line. */
  function Block(info: ReleasesInfo, repo: string, order: seq<string>): string {
    HeaderText(info.releaseTitle, info.docVersion, info.docLocation, info.speakeasyVersion) +
    (ToolUrl + ReleasesBlock(Lines(order, info.languages, repo)))
  }

  /** An entry is a blank line, then the block. */
  lemma RenderBlock(info: ReleasesInfo, repo: string, order: seq<string>)
    ensures Render(info, repo, order) == "\n\n" + Block(info, repo, order)
  {
    var h := HeaderText(info.releaseTitle, info.docVersion, info.docLocation, info.speakeasyVersion);
    var rb := ReleasesBlock(Lines(order, info.languages, repo));
    HeaderSplit(info);
    Regroup("\n\n", h + ToolUrl, rb);
    Regroup(h, ToolUrl, rb);
  }

  /** A clean block has no blank line and starts with the title's `#`. */
  lemma BlockNoSep(info: ReleasesInfo, repo: string, order: seq<string>)
    requires HeaderClean(info) && LinesClean(info.languages, repo)
    ensures NoSep(Block(info, repo, order)) && |Block(info, repo, order)| > 0 && Block(info, repo, order)[0] == '#'
  {
    var rb := ReleasesBlock(Lines(order, info.languages, repo));
    ReleasesNoSep(order, info.languages, repo);
    ToolUrlFacts();
    NoSepField(ToolUrl, rb);
    HeadNoSep(info.releaseTitle, info.docVersion, info.docLocation, info.speakeasyVersion, ToolUrl + rb);
    TitleMarkFacts();
  }

  /** The header pattern reads the four header fields back from a clean block. */
  lemma BlockHeader(info: ReleasesInfo, repo: string, order: seq<string>)
    requires HeaderClean(info)
    ensures MatchHeader(Block(info, repo, order)) ==
            Some(HeaderFields(info.releaseTitle, info.docVersion, info.docLocation, info.speakeasyVersion))
  {
    MatchHeaderRendered(info.releaseTitle, info.docVersion, info.docLocation, info.speakeasyVersion,
                        ToolUrl + ReleasesBlock(Lines(order, info.languages, repo)));
  }

  /** The block up to its first line: header, tool URL and list heading. */
  function Front(info: ReleasesInfo, repo: string, order: seq<string>): string {
    HeaderText(info.releaseTitle, info.docVersion, info.docLocation, info.speakeasyVersion) +
    (ToolUrl + (if Lines(order, info.languages, repo) == [] then "" else ReleasesMark))
  }

  lemma FrontSplit(info: ReleasesInfo, repo: string, order: seq<string>)
    ensures Block(info, repo, order) == Front(info, repo, order) + Bullets(Lines(order, info.languages, repo))
  {
    var h := HeaderText(info.releaseTitle, info.docVersion, info.docLocation, info.speakeasyVersion);
    var lines := Lines(order, info.languages, repo);
    var rh := if lines == [] then "" else ReleasesMark;
    ReleasesBlockShape(lines);
    assert ReleasesBlock(lines) == rh + Bullets(lines);
    Regroup(ToolUrl, rh, Bullets(lines));
    Regroup(h, ToolUrl + rh, Bullets(lines));
  }

  lemma FrontBracketFree(info: ReleasesInfo, repo: string, order: seq<string>)
    requires HeaderClean(info)
    ensures '[' !in Front(info, repo, order)
  {
    HeadBracketFree(info.releaseTitle, info.docVersion, info.docLocation, info.speakeasyVersion);
    ToolUrlFacts();
    ReleasesMarkFacts();
  }

  /** Each ecosystem pattern finds, in a clean block, the line of its language, and
      nothing when that language has no line. */
  lemma BlockEco(info: ReleasesInfo, repo: string, order: seq<string>, e: Registry)
    requires HeaderClean(info) && LinesClean(info.languages, repo)
    ensures EcoMatch(Block(info, repo, order), e) == Want(e, order, info.languages, repo)
  {
    var f, y := Front(info, repo, order), Bullets(Lines(order, info.languages, repo));
    FrontSplit(info, repo, order);
    FrontBracketFree(info, repo, order);
    BulletsOpen(order, info.languages, repo);
    SkipPlain(f, y, e);
    LeftmostSkip(f, y, EcoPattern(e));
    ScanLines(order, info.languages, repo, e);
  }

  /** The registry whose pattern reads a language's line. */
  function RegistryFor(lang: string): (e: Registry)
    requires lang in Ecosystems
    ensures LangOf(e) == lang
  {
    if lang == "typescript" then Npm else if lang == "python" then PyPI else if lang == "go" then GoModule else Composer
  }

  /** The entry read back for a language: the version, path and URL that were
      written; the registry name for npm, PyPI and Composer; for Go, the module path
      `github.com/<repo>`, followed by the module's directory (without a leading
      `./`) when it is not `.`. */
  function Reparsed(lang: string, li: LanguageReleaseInfo, repo: string): LanguageReleaseInfo {
    LanguageReleaseInfo(if lang == "go" then GoPackageName(GoHostText + repo, li.path) else li.packageName,
                        li.path, li.version, PackageUrl(lang, li, repo))
  }

  /** What reading back a written entry yields: the header fields as written and an
      entry for each language that has a registry line. */
  function Reread(info: ReleasesInfo, repo: string): ReleasesInfo {
    ReleasesInfo(info.releaseTitle, info.docVersion, info.speakeasyVersion, info.docLocation,
                 map l | l in info.languages && Label(l) != "" :: Reparsed(l, info.languages[l], repo))
  }

  /** The language map of a clean block is the one `Reread` describes. */
  lemma BlockLanguages(info: ReleasesInfo, repo: string, order: seq<string>)
    requires IsOrdering(order, info.languages.Keys)
    requires HeaderClean(info) && LinesClean(info.languages, repo)
    ensures Languages(Block(info, repo, order)) == Reread(info, repo).languages
  {
    var m, r := Languages(Block(info, repo, order)), Reread(info, repo).languages;
    forall l | l in m || l in r ensures l in m && l in r && m[l] == r[l] {
      LanguageAgrees(info, repo, order, l);
    }
    SameMaps(m, r);
  }

  /** Maps with the same keys and the same value at each key are equal. */
  lemma SameMaps(m: map<string, LanguageReleaseInfo>, r: map<string, LanguageReleaseInfo>)
    requires forall l :: l in m || l in r ==> l in m && l in r && m[l] == r[l]
    ensures m == r
  {
    assert m.Keys == r.Keys;
  }

  /** One language of the block's map against `Reread`. */
  lemma LanguageAgrees(info: ReleasesInfo, repo: string, order: seq<string>, l: string)
    requires IsOrdering(order, info.languages.Keys)
    requires HeaderClean(info) && LinesClean(info.languages, repo)
    requires l in Languages(Block(info, repo, order)) || l in Reread(info, repo).languages
    ensures l in Languages(Block(info, repo, order)) && l in Reread(info, repo).languages
    ensures Languages(Block(info, repo, order))[l] == Reread(info, repo).languages[l]
  {
    var b := Block(info, repo, order);
    LabelIffEcosystem(l);
    var e := RegistryFor(l);
    LanguagesEntries(b, e);
    BlockEco(info, repo, order, e);
    assert l in order <==> l in info.languages;
  }

  /** Appending a clean entry to any ledger text and parsing the ledger gives back the
      entry's title, document version and location, tool version, and an entry per
      language with a registry line, holding its version, path and URL; whatever
      order `String()` visited the languages in. */
  lemma ReadBack(x: string, info: ReleasesInfo, repo: string, order: seq<string>)
    requires IsOrdering(order, info.languages.Keys)
    requires HeaderClean(info) && LinesClean(info.languages, repo)
    ensures ParseSpec(x + Render(info, repo, order)) == Success(Reread(info, repo))
  {
    var b := Block(info, repo, order);
    RenderBlock(info, repo, order);
    Regroup(x, "\n\n", b);
    BlockNoSep(info, repo, order);
    OnlyLastBlock(x, b);
    BlockHeader(info, repo, order);
    BlockLanguages(info, repo, order);
  }

  /** The fields of the entry read back, one by one, against those written. */
  lemma RereadFields(info: ReleasesInfo, repo: string)
    ensures Reread(info, repo).releaseTitle == info.releaseTitle
    ensures Reread(info, repo).docVersion == info.docVersion && Reread(info, repo).docLocation == info.docLocation
    ensures Reread(info, repo).speakeasyVersion == info.speakeasyVersion
    ensures Reread(info, repo).languages.Keys == KnownLangs(info.languages.Keys)
    ensures forall l :: l in Reread(info, repo).languages ==>
              Reread(info, repo).languages[l].version == info.languages[l].version &&
              Reread(info, repo).languages[l].path == info.languages[l].path &&
              Reread(info, repo).languages[l].url == PackageUrl(l, info.languages[l], repo)
    ensures forall l :: l in Reread(info, repo).languages && l != "go" ==>
              Reread(info, repo).languages[l].packageName == info.languages[l].packageName
  {
  }
}
