/** The release ledger's entry format (pkg/releases/releases.go): one entry is a blank
    line, a `##` title, the document and generator it was built from, and, when any
    language with a package registry was released, a `### Releases` list with one line
    per such language. */
module ReleaseFormat {
  import opened MapOrder

  /** One released package: its registry name, its directory in the repository, its
      version and the URL the ledger links to. */
  datatype LanguageReleaseInfo = LanguageReleaseInfo(packageName: string, path: string, version: string, url: string)

  /** One ledger entry, keyed by generator language. */
  datatype ReleasesInfo = ReleasesInfo(releaseTitle: string, docVersion: string, speakeasyVersion: string,
                                       docLocation: string, languages: map<string, LanguageReleaseInfo>)

  /** The languages the ledger has a registry line for. */
  const Ecosystems: set<string> := {"go", "typescript", "python", "php"}

  /** The registry label of a language's line; empty for a language without one. */
  function Label(lang: string): string {
    if lang == "go" then "Go"
    else if lang == "typescript" then "NPM"
    else if lang == "python" then "PyPI"
    else if lang == "php" then "Composer"
    else ""
  }

  /** The release tag of a Go module: `v<version>`, under the module's directory
      unless that directory is the repository root `.`. */
  function GoTag(li: LanguageReleaseInfo): string {
    if li.path != "." then li.path + "/" + "v" + li.version else "v" + li.version
  }

  /** The registry page a language's line links to; `repo` is the `owner/name` of the
      repository the action runs in (`GITHUB_REPOSITORY`). */
  function PackageUrl(lang: string, li: LanguageReleaseInfo, repo: string): string {
    if lang == "go" then "https://github.com/" + repo + "/releases/tag/" + GoTag(li)
    else if lang == "typescript" then "https://www.npmjs.com/package/" + li.packageName + "/v/" + li.version
    else if lang == "python" then "https://pypi.org/project/" + li.packageName + "/" + li.version
    else if lang == "php" then "https://packagist.org/packages/" + li.packageName + "#v" + li.version
    else ""
  }

  /** `- [<label> v<version>] <url> - <path>`. */
  function ReleaseLine(lang: string, li: LanguageReleaseInfo, repo: string): string {
    "- [" + Label(lang) + " v" + li.version + "] " + PackageUrl(lang, li, repo) + " - " + li.path
  }

  /** The release lines produced while visiting the languages in `order`. */
  function Lines(order: seq<string>, langs: map<string, LanguageReleaseInfo>, repo: string): seq<string> {
    if order == [] then []
    else
      var init := Lines(order[..|order| - 1], langs, repo);
      var lang := order[|order| - 1];
      if lang in langs && Label(lang) != "" then init + [ReleaseLine(lang, langs[lang], repo)] else init
  }

  /** Go's `strings.Join`. */
  function Join(parts: seq<string>, sep: string): string {
    if |parts| == 0 then ""
    else if |parts| == 1 then parts[0]
    else Join(parts[..|parts| - 1], sep) + sep + parts[|parts| - 1]
  }

  /** The list under `### Releases`: nothing when there are no lines. */
  function ReleasesBlock(lines: seq<string>): string {
    Join(if |lines| > 0 then ["\n### Releases"] + lines else lines, "\n")
  }

  /** An entry's text up to its release list. */
  function Header(info: ReleasesInfo): string {
    "\n\n" + "## " + info.releaseTitle + "\n### Changes\nBased on:\n- OpenAPI Doc " + info.docVersion + " " +
    info.docLocation + "\n- Speakeasy CLI " + info.speakeasyVersion + " " + ToolUrl
  }

  /** The generator's repository, which ends the header's tool line. */
  const ToolUrl := "https://github.com/speakeasy-api/speakeasy"

  /** The text `String()` produces when it visits the languages in `order`. */
  function Render(info: ReleasesInfo, repo: string, order: seq<string>): string {
    Header(info) + ReleasesBlock(Lines(order, info.languages, repo))
  }

  /** Each line of a non-empty list, preceded by a newline. */
  function Bullets(lines: seq<string>): string {
    if lines == [] then "" else Bullets(lines[..|lines| - 1]) + "\n" + lines[|lines| - 1]
  }

  /** The languages in `s` that get a line. */
  function KnownLangs(s: set<string>): (r: set<string>)
    ensures r <= s
    ensures forall l :: l in r <==> l in s && Label(l) != ""
  {
    set l | l in s && Label(l) != ""
  }

  /** A label exists exactly for the four registry ecosystems. */
  lemma LabelIffEcosystem(lang: string)
    ensures Label(lang) != "" <==> lang in Ecosystems
  {
  }

  /** The release list is a `### Releases` heading followed by one newline-led line
      per release line, and empty when there are none. */
  lemma {:induction false} ReleasesBlockShape(lines: seq<string>)
    ensures ReleasesBlock(lines) == if lines == [] then "" else "\n### Releases" + Bullets(lines)
    decreases |lines|
  {
    if lines != [] {
      var init := lines[..|lines| - 1];
      var full := ["\n### Releases"] + lines;
      assert full[..|full| - 1] == ["\n### Releases"] + init;
      if init == [] {
        assert Join(["\n### Releases"] + init, "\n") == "\n### Releases";
      } else {
        ReleasesBlockShape(init);
      }
      assert Bullets(lines) == Bullets(init) + "\n" + lines[|lines| - 1];
    }
  }

  /** Visiting the languages in any iteration order yields one line for each language
      with a registry label and no other line. */
  lemma LinesDescribeKnown(order: seq<string>, s: set<string>, langs: map<string, LanguageReleaseInfo>, repo: string)
    requires IsOrdering(order, s) && s <= langs.Keys
    ensures |Lines(order, langs, repo)| == |KnownLangs(s)|
    ensures forall l :: l in KnownLangs(s) ==> ReleaseLine(l, langs[l], repo) in Lines(order, langs, repo)
    ensures forall x :: x in Lines(order, langs, repo) ==>
      (exists l :: l in KnownLangs(s) && x == ReleaseLine(l, langs[l], repo))
  {
    LinesCount(order, s, langs, repo);
    LinesComplete(order, s, langs, repo);
    LinesSound(order, s, langs, repo);
  }

  /** The known languages of an ordering, split at its last element. */
  lemma KnownSplit(order: seq<string>, s: set<string>)
    requires IsOrdering(order, s) && order != []
    ensures IsOrdering(order[..|order| - 1], s - {order[|order| - 1]})
    ensures order[|order| - 1] in s
    ensures KnownLangs(s) == KnownLangs(s - {order[|order| - 1]}) + (if Label(order[|order| - 1]) != "" then {order[|order| - 1]} else {})
  {
    var x := order[|order| - 1];
    assert x in order;
    OrderingInit(order, s);
  }

  /** An empty ordering has no known languages. */
  lemma KnownEmpty(s: set<string>)
    requires IsOrdering([], s)
    ensures KnownLangs(s) == {}
  {
    assert forall l :: l in s ==> l in [];
  }

  lemma {:induction false} LinesCount(order: seq<string>, s: set<string>, langs: map<string, LanguageReleaseInfo>, repo: string)
    requires IsOrdering(order, s) && s <= langs.Keys
    ensures |Lines(order, langs, repo)| == |KnownLangs(s)|
    decreases |order|
  {
    if order == [] {
      KnownEmpty(s);
    } else {
      var x := order[|order| - 1];
      KnownSplit(order, s);
      LinesCount(order[..|order| - 1], s - {x}, langs, repo);
    }
  }

  lemma {:induction false} LinesComplete(order: seq<string>, s: set<string>, langs: map<string, LanguageReleaseInfo>, repo: string)
    requires IsOrdering(order, s) && s <= langs.Keys
    ensures forall l :: l in KnownLangs(s) ==> ReleaseLine(l, langs[l], repo) in Lines(order, langs, repo)
    decreases |order|
  {
    if order == [] {
      KnownEmpty(s);
    } else {
      var x := order[|order| - 1];
      KnownSplit(order, s);
      LinesComplete(order[..|order| - 1], s - {x}, langs, repo);
    }
  }

  lemma {:induction false} LinesSound(order: seq<string>, s: set<string>, langs: map<string, LanguageReleaseInfo>, repo: string)
    requires IsOrdering(order, s) && s <= langs.Keys
    ensures forall x :: x in Lines(order, langs, repo) ==>
      (exists l :: l in KnownLangs(s) && x == ReleaseLine(l, langs[l], repo))
    decreases |order|
  {
    if order != [] {
      var x := order[|order| - 1];
      KnownSplit(order, s);
      LinesSound(order[..|order| - 1], s - {x}, langs, repo);
    }
  }

  /** An entry has a release list exactly when some language in it has a registry. */
  lemma ReleasesIffKnown(info: ReleasesInfo, repo: string, order: seq<string>)
    requires IsOrdering(order, info.languages.Keys)
    ensures ReleasesBlock(Lines(order, info.languages, repo)) == "" <==> KnownLangs(info.languages.Keys) == {}
  {
    LinesDescribeKnown(order, info.languages.Keys, info.languages, repo);
    ReleasesBlockShape(Lines(order, info.languages, repo));
  }

  /** `ReleasesInfo.String()`: the entry's text; the release lines come in the
      iteration order of the language map, which Go leaves unspecified. */
  method String(info: ReleasesInfo, repo: string) returns (s: string)
    ensures exists order :: IsOrdering(order, info.languages.Keys) && s == Render(info, repo, order)
  {
    var releasesOutput: seq<string> := [];
    var rest := info.languages.Keys;
    ghost var visited: seq<string> := [];
    while rest != {}
      invariant rest <= info.languages.Keys
      invariant IsOrdering(visited, info.languages.Keys - rest)
      invariant releasesOutput == Lines(visited, info.languages, repo)
      decreases |rest|
    {
      var lang :| lang in rest;
      var li := info.languages[lang];
      var pkgID, pkgURL := RegistryOf(lang, li, repo);
      if pkgID != "" {
        releasesOutput := releasesOutput + ["- [" + pkgID + " v" + li.version + "] " + pkgURL + " - " + li.path];
      }
      OrderingSnoc(visited, info.languages.Keys - rest, lang);
      assert (visited + [lang])[..|visited|] == visited;
      visited := visited + [lang];
      DoneGrows(info.languages.Keys, rest, lang);
      rest := rest - {lang};
    }
    if |releasesOutput| > 0 {
      releasesOutput := ["\n### Releases"] + releasesOutput;
    }
    s := "\n\n" + "## " + info.releaseTitle + "\n### Changes\nBased on:\n- OpenAPI Doc " + info.docVersion + " " +
      info.docLocation + "\n- Speakeasy CLI " + info.speakeasyVersion + " " + ToolUrl +
      Join(releasesOutput, "\n");
    assert info.languages.Keys - rest == info.languages.Keys;
    assert s == Render(info, repo, visited);
  }

  /** The `switch` on the language inside `String()`: the line's label and link, both
      empty for a language without a registry. */
  method RegistryOf(lang: string, li: LanguageReleaseInfo, repo: string) returns (pkgID: string, pkgURL: string)
    ensures pkgID == Label(lang) && pkgURL == PackageUrl(lang, li, repo)
    ensures pkgID != "" <==> lang in Ecosystems
  {
    pkgID, pkgURL := "", "";
    if lang == "go" {
      pkgID := "Go";
      var tag := "v" + li.version;
      if li.path != "." {
        tag := li.path + "/" + tag;
      }
      pkgURL := "https://github.com/" + repo + "/releases/tag/" + tag;
    } else if lang == "typescript" {
      pkgID := "NPM";
      pkgURL := "https://www.npmjs.com/package/" + li.packageName + "/v/" + li.version;
    } else if lang == "python" {
      pkgID := "PyPI";
      pkgURL := "https://pypi.org/project/" + li.packageName + "/" + li.version;
    } else if lang == "php" {
      pkgID := "Composer";
      pkgURL := "https://packagist.org/packages/" + li.packageName + "#v" + li.version;
    }
  }

  /** Appending a new element to an ordering. */
  lemma OrderingSnoc(order: seq<string>, s: set<string>, x: string)
    requires IsOrdering(order, s) && x !in s
    ensures IsOrdering(order + [x], s + {x})
  {
    assert IsOrdering([x], {x});
    OrderingAppend(order, s, [x], {x});
  }

  /** Moving one key from the unvisited set to the visited one. */
  lemma DoneGrows(keys: set<string>, rest: set<string>, x: string)
    requires x in rest && rest <= keys
    ensures keys - (rest - {x}) == (keys - rest) + {x}
  {
  }
}
