# SDK generation action: version reconciliation and the releases ledger

This project models the core of a GitHub Action that regenerates SDKs from an
OpenAPI document and keeps a releases ledger. It covers three pieces of that action.

1. **Version reconciliation** (`checkForChanges` in `main.go`). The action compares this
   run's tool version, document version and document checksum with the values stored in
   a language's `management` section. It then decides whether the SDK version moves, and by
   which segment.
2. **The release-version loop** in `runAction` (`main.go`). For each language that was
   regenerated, the loop stamps the new management values and marks the output
   `<lang>_regenerated`. It also picks the release version: the Go version when Go is
   configured, otherwise the greatest version among the regenerated languages.
3. **The releases ledger** (`pkg/releases/releases.go`). A `ReleasesInfo` is rendered as a
   Markdown block (`String`) and appended to the ledger (`UpdateReleasesFile`). The ledger's
   last block is read back with five regular expressions (`ParseReleases`, `GetLastReleaseInfo`).

Modules, one per concern:

| module | file | concern |
|---|---|---|
| `Wrappers` | wrappers.dfy | `Option`, `Result` |
| `Text` | text.dfy | string predicates, the least-index search `Find` used for lazy regex groups, `Leftmost` (leftmost match), `strings.Split` and its last piece |
| `SemVer` | semver.dfy | `N.N.N` versions: parse, format, `GreaterThan` |
| `MapOrder` | map_order.dfy | `IsOrdering`: a sequence that lists a key set once each (Go map iteration order) |
| `Reconcile` | reconcile.dfy | `checkForChanges`: the specification `Decide`, and the imperative `CheckForChanges` with its stage methods |
| `ReleaseVersion` | release_version.dfy | the loop over generated languages: the specification `Run` (a left fold over an iteration order), and the method `SelectReleaseVersion` |
| `ReleaseFormat` | release_format.dfy | `ReleasesInfo`, the `String` method and its specification `Render` |
| `ReleaseParse` | release_parse.dfy | the header and per-registry matchers written out by hand; `ParseReleases` and its specification `ParseSpec` |
| `RoundTrip` | roundtrip.dfy | block separation and the header read-back |
| `LineMatch` | line_match.dfy | each registry pattern captures a line that `String` wrote |
| `BlockMatch` | block_match.dfy | the whole rendered block parses back (`ReadBack`) |
| `ReleasesFile` | ledger.dfy | class `Ledger`: the ledger's text as a field, with append and read-back |

## Regular expressions

The matchers follow Go's `regexp` semantics:

- `FindStringSubmatch` returns the leftmost match (`Text.Leftmost`).
- A lazy group `(.*?)` takes the shortest length for which the rest of the pattern matches (`Text.Find`).
- `.` stops at a newline. The header pattern is the exception: it carries `(?s)`.
- `\d+` followed by a non-digit literal is the maximal run of digits.

Three points follow from the source rather than from how the format reads:

- The header pattern's trailing `.*?` matches the empty string.
- The tool-version capture ends at the first space.
- For Go, the package name read back is `github.com/<repository>`. When the path is not `.`,
  it gets `/` and the path appended, with a leading `./` removed. This is what the code
  builds. The package name that `String` was given for Go is never written to the ledger,
  so it does not come back.

## Version ladder

The ladder in `checkForChanges` tests the major, minor and patch segments in that order,
and a higher segment is not required to be equal:

- `2.0.0 -> 1.5.0` raises the minor flag.
- `1.2.3 -> 1.2.1` raises nothing.

`Reconcile.LadderExamples` states both. This is how the ladder at `main.go:222-231` reads,
so it is modelled as is.

## Model

| member | source | states |
|---|---|---|
| Reconcile.CheckForChanges | main.go:203-308 | the result is `Decide`. When the tool version, document version and checksum all equal the stored ones, the result is `""`. Otherwise a success is a non-empty `N.N.N` version |
| Reconcile.ToolStage | main.go:209-232 | with no tool version stored, raises minor and never fails (the current version is not parsed). With one stored, fails exactly when it or the current one does not parse, with the matching error; otherwise the flags are the inputs raised by the segment ladder |
| Reconcile.DocStage | main.go:234-263 | with no document version stored, raises minor and never fails. With one stored, fails exactly when the current one parses and the stored one does not. Otherwise it returns the raised flags, the not-semver warning, and whether the document version moved |
| Reconcile.BumpSdkVersion | main.go:277-302 | fails exactly when a non-empty SDK version does not parse. Otherwise it returns the start version (0.0.0 for `""`) resolved with the flags |
| Reconcile.Ladder | main.go:222-231 | the flags raised by the segment ladder, and whether any was raised |
| Reconcile.Raise | main.go:222-231 | raising keeps every set flag and sets the one the bump names |
| Reconcile.SegmentBumpIsFirstRaised | main.go:222-231 | the ladder's bump is the level of the first segment, most significant first, that went up |
| Reconcile.LadderExamples | main.go:222-231 | `1.2.3 -> 2.0.0` is a major bump; `2.0.0 -> 1.5.0` is a minor bump; `1.2.3 -> 1.2.1` is none |
| Reconcile.Resolve | main.go:290-302 | the resolved version is greater than the start exactly when some flag is set, and equal to it otherwise |
| Reconcile.ResolvePrecedence | main.go:290-302 | major beats minor beats patch: segments above the highest flag are kept, its segment goes up by one, lower segments become 0 |
| Reconcile.ConfigToolVersionError | main.go:212-215 | an unparsable stored tool version fails with the config-tool-version error |
| Reconcile.ToolVersionError | main.go:217-220 | a parsable stored tool version with an unparsable current one fails with the tool-version error |
| Reconcile.ConfigDocVersionError | main.go:239-245 | a parsable document version with an unparsable stored one fails with the config-document-version error |
| Reconcile.SdkVersionError | main.go:279-283 | a non-empty unparsable SDK version fails once the flags are computed |
| Reconcile.FailsIff | main.go:203-308 | `Decide` fails exactly when something changed and one of the listed versions is unparsable (both directions) |
| Reconcile.ChangedYieldsVersion | main.go:277-304 | a successful changed run yields an `N.N.N` text, parsing to the resolved start version, never below the start |
| Reconcile.NoFlagKeepsVersion | main.go:290-304 | when nothing raises a flag, the result is the previous SDK version re-formatted by `%d.%d.%d` (so `01.2.3` becomes `1.2.3`), which parses to the same version |
| Reconcile.ToolDowngradeExample | main.go:204-304 | tool `2.0.0 -> 1.0.0` with the same document and checksum yields `1.2.3` unchanged, without warnings |
| Reconcile.FirstRunIsZeroOneZero | main.go:204-304 | with nothing stored, some input non-empty (so something changed) and no SDK version, the result is `0.1.0` |
| Reconcile.ChecksumForcesBump | main.go:265-268 | a changed stored checksum always yields a version strictly above the start |
| Reconcile.ChecksumOnlyExample | main.go:265-275 | a checksum change alone bumps `1.2.0` to `1.2.1` and raises the checksum-without-version warning |
| Reconcile.DocNotSemverOnlyWarns | main.go:239-262 | an unparsable document version only warns; the version is resolved from the tool and checksum signals |
| Reconcile.ToolFailure | main.go:212-220 | a tool-stage failure is the result |
| Reconcile.DocFailure | main.go:239-245 | a document-stage failure after a good tool stage is the result |
| Reconcile.DecideBumps | main.go:265-304 | the result is the formatted resolved version with the document warning. The checksum warning is raised exactly when the checksum moved and the document version did not |
| SemVer.ParseIffVersionText | main.go:212-220 | a string parses exactly when it has the shape `\d+\.\d+\.\d+` |
| SemVer.ParseFormat | main.go:304 | formatting a version and parsing it back gives the same version |
| SemVer.DecimalOfNatToString | main.go:304 | the decimal text of `n` reads back as `n` |
| SemVer.GreaterThanStrictTotal | main.go:173 | `GreaterThan` is irreflexive, asymmetric, transitive and total |
| ReleaseVersion.UpdateReleaseVersion | main.go:159-177 | the step keeps the current version or takes the new one; it fails only when neither is the Go version and one of the two does not parse |
| ReleaseVersion.SelectReleaseVersion | main.go:132-181 | the result, the regenerated flag, the stamped configs and the outputs are `Run` over some iteration order of the configs |
| ReleaseVersion.Stamp | main.go:146-148 | stamping keeps the language version, and the stamped management values then count as unchanged |
| ReleaseVersion.StampedIsUnchanged | main.go:146-148 | `checkForChanges` on a just-stamped config returns `""` |
| ReleaseVersion.RunFailureStays | main.go:163-171 | once the loop has failed, later languages do not change the outcome |
| ReleaseVersion.FailureWitness | main.go:142-181 | a failing partial iteration extends to a complete iteration order with the same failure |
| ReleaseVersion.RunEffects | main.go:142-181 | after a full successful loop: regenerated iff some configured language was generated, exactly those are stamped, and exactly those outputs are marked |
| ReleaseVersion.GoVersionWins | main.go:137-140 | with Go configured, every order succeeds with the Go version |
| ReleaseVersion.GreatestVersionWins | main.go:159-177 | without Go and with parsable versions, the result is a greatest version among the regenerated languages |
| ReleaseVersion.OrderIndependent | main.go:142-181 | without Go and with parsable versions, any two iteration orders give the same version |
| ReleaseVersion.ErrorsDependOnOrder | main.go:160-171 | for the loop taken on its own, an empty and a malformed version succeed in one order and fail in the other; in the action these inputs do not arise, since a regenerated language's version is the `N.N.N` text from `checkForChanges` (`main.go:93-97`) |
| ReleaseFormat.String | pkg/releases/releases.go:28-71 | the text is `Render` for some iteration order of the languages |
| ReleaseFormat.RegistryOf | pkg/releases/releases.go:35-55 | the label and URL chosen for a language; the label is non-empty exactly for the four ecosystems |
| ReleaseFormat.LabelIffEcosystem | pkg/releases/releases.go:35-55 | a language is labelled exactly when it is go, typescript, python or php |
| ReleaseFormat.ReleasesBlockShape | pkg/releases/releases.go:62-64 | no lines give an empty section; otherwise it is `\n### Releases` and the lines, each after a newline |
| ReleaseFormat.LinesDescribeKnown | pkg/releases/releases.go:31-60 | one line per known language, each known language's line present, and no other line |
| ReleaseFormat.ReleasesIffKnown | pkg/releases/releases.go:57-64 | the releases section is empty exactly when no language is known |
| ReleaseParse.ParseReleases | pkg/releases/releases.go:109-180 | the method computes `ParseSpec` |
| ReleaseParse.AddMatch | pkg/releases/releases.go:128-177 | a match adds its entry under the language key; no match leaves the map unchanged |
| ReleaseParse.ErrorIffNoHeader | pkg/releases/releases.go:110-118 | parsing fails exactly when the last `\n\n` piece has no header match; otherwise the languages come from that piece |
| ReleaseParse.NoPreambleFails | pkg/releases/releases.go:91-118 | a ledger whose last block lacks the `### Changes` / `Based on:` / `- OpenAPI Doc ` preamble fails to parse |
| ReleaseParse.EmptyFails | pkg/releases/releases.go:109-118 | an empty ledger fails to parse |
| ReleaseParse.LanguagesEntries | pkg/releases/releases.go:128-177 | a language is present exactly when its pattern matches, with the entry built from that match |
| ReleaseParse.AssembleEntries | pkg/releases/releases.go:128-177 | the assembled map holds a registry's entry exactly when its match is present |
| ReleaseParse.Languages | pkg/releases/releases.go:128-177 | only the four ecosystem keys can appear |
| ReleaseParse.EcoVersionShaped | pkg/releases/releases.go:92-95 | a captured version is always `N.N.N` |
| ReleaseParse.TrimPrefixInverse | pkg/releases/releases.go:157 | trimming a present prefix leaves the rest, which rebuilds the string; a missing prefix leaves the string as is |
| ReleaseParse.GoPackageNameCases | pkg/releases/releases.go:153-158 | path `.` gives the module; `./x` gives module `/x`; any other path gives module `/` path |
| ReleaseParse.HeaderAt | pkg/releases/releases.go:91 | a header match begins with `## ` |
| ReleaseParse.EcoAt | pkg/releases/releases.go:92-95 | a line match begins with the registry's `- [<label> v` |
| Text.Split | pkg/releases/releases.go:110 | splitting always yields at least one piece |
| Text.LastPieceOfAppend | pkg/releases/releases.go:110-112 | after appending `\n\n` and a block without `\n\n`, the last piece is that block, possibly behind one newline |
| RoundTrip.OnlyLastBlock | pkg/releases/releases.go:110-118 | whatever precedes an appended block, parsing reads only that block |
| RoundTrip.ParseBlockShift | pkg/releases/releases.go:110-118 | one leading newline does not change the parse of a block |
| RoundTrip.MatchHeaderRendered | pkg/releases/releases.go:91 | a rendered header reads back its title, document version, location and tool version |
| RoundTrip.HeaderAtRendered | pkg/releases/releases.go:91 | the header anchored at the start captures the four fields it was written with |
| LineMatch.NonGoLine | pkg/releases/releases.go:92-95 | an NPM, PyPI or Composer line captures its version, URL, package and path |
| LineMatch.GoLine | pkg/releases/releases.go:94 | a Go line captures its version, URL, `github.com/<repository>` and path |
| BlockMatch.LineCaptures | pkg/releases/releases.go:58 | each registry's pattern captures the fields of the line `String` wrote |
| BlockMatch.GoTagTail | pkg/releases/releases.go:40-45 | the Go tag is `v<version>`, behind `<path>/` when the path is not `.` |
| BlockMatch.UrlOf | pkg/releases/releases.go:45-54 | the written URL is the pattern's URL shape for that registry |
| BlockMatch.OpenMismatch | pkg/releases/releases.go:92-95 | one registry's line opening never matches another's |
| BlockMatch.SkipLine | pkg/releases/releases.go:92-95 | no position inside another registry's line starts a match |
| BlockMatch.ScanLines | pkg/releases/releases.go:128-177 | the leftmost match in the written lines is exactly the own line's captures, and there is none without that line |
| BlockMatch.RenderBlock | pkg/releases/releases.go:66-70 | the rendered text is `\n\n` and the block |
| BlockMatch.BlockNoSep | pkg/releases/releases.go:66-70 | a clean block holds no `\n\n` and starts with `#` |
| BlockMatch.BlockHeader | pkg/releases/releases.go:91 | the block's header reads back its four fields |
| BlockMatch.BlockEco | pkg/releases/releases.go:128-177 | each registry's match in the block is its own line's captures, or none |
| BlockMatch.BlockLanguages | pkg/releases/releases.go:128-177 | the languages read back are the labelled languages with the fields as written |
| BlockMatch.RegistryFor | pkg/releases/releases.go:128-177 | every ecosystem key has a registry pattern |
| BlockMatch.ReadBack | pkg/releases/releases.go:109-180 | whatever the ledger held before, parsing after `String`'s block, in any iteration order, gives the data back |
| BlockMatch.RereadFields | pkg/releases/releases.go:120-177 | what is read back keeps the header fields and the known keys, with version, path and URL as written, and the non-Go package name |
| ReleasesFile.Ledger.Update | pkg/releases/releases.go:73-88 | the ledger's text grows by `String`'s block, and for clean data the last release then reads back |
| ReleasesFile.Ledger.LastReleaseInfo | pkg/releases/releases.go:98-107 | the ledger's last release is `ParseReleases` of its text |

## Left out

- Reading the environment, the action's inputs and `GITHUB_REPOSITORY` is left out. The repository is a parameter `repo` of `String`, `Render` and `Ledger.Update`.
- `getReleasesPath`, and opening, reading and writing the ledger file, are left out. The ledger is a `string` field, and the error paths of the file calls (`releases.go:76-85`, `101-104`) are not modelled.
- Console output (`fmt.Printf`, the `::warning` lines) is left out. The two warnings appear as the booleans `docVersionNotSemver` and `checksumWithoutVersion`.
- `version.NewVersion` from hashicorp/go-version is not part of this model. Only the `N.N.N` shape with decimal segments is treated as a version. Go's pre-release, metadata, `v`-prefixed, shorter and longer (such as `1.2.3.4`) forms are treated as parse errors.
- SemVer.Parse: segments are unbounded naturals. go-version reads each segment as a 64-bit integer and rejects a longer one (such as `99999999999999999999.0.0`) with a parse error; the model parses it.
- Reconcile.Resolve: the segments are Go `int`s (`main.go:277-288`) and `major++`, `minor++`, `patch++` (`main.go:290-302`) would wrap at the largest `int`; the model never wraps.
- The rest of `runAction` is left out: YAML marshalling and writing the configs (`main.go:150-157`), git operations, and publishing.
- ReleaseVersion.Stamp: the write into `cfg.Config["management"]` (`main.go:146-148`) panics in Go when that section is a nil map; the model's map update always succeeds. How configs are loaded, and so whether the section can be missing, is not part of this model.
- ReleaseVersion.SelectReleaseVersion: the marshal and write failures inside the loop are not modelled, only the version-parse failures.
- Go's random map iteration order is not modelled as a concrete order. The contracts of `String`, `SelectReleaseVersion` and `Ledger.Update` state the result for some ordering of the keys (`exists order :: IsOrdering(...)`).
- BlockMatch.ReadBack: proved under `HeaderClean` and `LinesClean`. `HeaderClean` asks for no `[` and no newline in the four header fields and no space in the two header versions. `LinesClean` asks, for every language, for an `N.N.N` version and a path with no newline and no `[`. For NPM, PyPI and Composer it also asks for a package name with no space, newline or `[`. For Go it puts no condition on the package name (it is not written), and asks instead for a path without a space and a repository with no `[` or newline in which, once `/releases/tag/` follows it, no occurrence of `/releases/tag/` starts inside the repository (`Text.StopsAt`; so `org/releases/tag` is excluded too). The `[` bans on the header fields and on the paths are stronger than the source needs; they keep the search for release lines off text that is not a release line's opening.
- ReleasesFile.Ledger.Update: its read-back clause carries the same conditions as `BlockMatch.ReadBack`. Its append clause holds unconditionally.
- BlockMatch.Reparsed: the Go package name stored before writing is not recovered. The read-back value is the one that `ParseReleases` builds from the URL and the path.
