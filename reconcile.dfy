/** The SDK version reconciliation of main.go (`checkForChanges`): from the current
    generator (tool) version, OpenAPI document version and checksum, the previous SDK
    version and the previous management metadata, decide whether a new SDK version is
    due and which one. */
module Reconcile {
  import opened Wrappers
  import opened Text
  import opened SemVer

  /** Keys of the `management` section of the generator configuration. */
  const ToolKey := "speakeasy-version"
  const DocKey := "openapi-version"
  const ChecksumKey := "openapi-checksum"

  /** Go's read of a `map[string]string`: a missing key reads as "". */
  function Get(m: map<string, string>, k: string): string {
    if k in m then m[k] else ""
  }

  /** A bump recommendation of one signal. */
  datatype Bump = NoBump | Patch | Minor | Major

  /** The three flags `bumpMajor`, `bumpMinor`, `bumpPatch`. */
  datatype Flags = Flags(major: bool, minor: bool, patch: bool) {
    predicate Any() {
      major || minor || patch
    }
  }

  const NoFlags := Flags(false, false, false)

  /** The fatal parse errors; each is returned before anything else is decided. */
  datatype ReconcileError =
    | ConfigToolVersionInvalid  // stored speakeasy-version does not parse
    | ToolVersionInvalid        // current tool version does not parse
    | ConfigDocVersionInvalid   // stored openapi-version does not parse (current one does)
    | SdkVersionInvalid         // previous SDK version does not parse

  /** The new version ("" for no change) and whether each of the two warnings was
      printed: the document version is not a semantic version, and the checksum
      changed although the document version did not go up. */
  datatype Decision = Decision(newVersion: string, docVersionNotSemver: bool, checksumWithoutVersion: bool)

  /** All three inputs equal their stored values. */
  predicate Unchanged(tool: string, doc: string, checksum: string, mgmt: map<string, string>) {
    tool == Get(mgmt, ToolKey) && doc == Get(mgmt, DocKey) && checksum == Get(mgmt, ChecksumKey)
  }

  /** The if/else-if ladder over segments 0, 1 and 2. */
  function SegmentBump(cur: Version, prev: Version): Bump {
    if cur.major > prev.major then Major
    else if cur.minor > prev.minor then Minor
    else if cur.patch > prev.patch then Patch
    else NoBump
  }

  /** Segment `i` of a version, most significant first. */
  function Segment(v: Version, i: nat): nat
    requires i < 3
  {
    if i == 0 then v.major else if i == 1 then v.minor else v.patch
  }

  /** The bump named by a segment index; index 3 means no segment went up. */
  function LevelOf(i: nat): Bump {
    if i == 0 then Major else if i == 1 then Minor else if i == 2 then Patch else NoBump
  }

  /** Index of the most significant segment that went up (3 if none): the ranking the
      ladder implements, stated on its own. */
  function FirstRaised(cur: Version, prev: Version): nat {
    match Find(0, 2, (i: nat) => i < 3 && Segment(cur, i) > Segment(prev, i))
    case None => 3
    case Some(i) => i
  }

  /** The ladder picks the level of the first segment, most significant first, that
      went up; lower segments are never looked at once one did. */
  lemma SegmentBumpIsFirstRaised(cur: Version, prev: Version)
    ensures SegmentBump(cur, prev) == LevelOf(FirstRaised(cur, prev))
  {
    var p := (i: nat) => i < 3 && Segment(cur, i) > Segment(prev, i);
    if cur.major > prev.major {
      FindIs(0, 2, p, 0);
    } else if cur.minor > prev.minor {
      assert !p(0);
      FindIs(0, 2, p, 1);
    } else if cur.patch > prev.patch {
      assert !p(0) && !p(1);
      FindIs(0, 2, p, 2);
    } else {
      assert !p(0) && !p(1) && !p(2);
      FindNone(0, 2, p);
    }
  }

  /** Illustrations of `SegmentBumpIsFirstRaised`: the major segment short-circuits the
      rest (`1.2.3 -> 2.0.0` is major); the ladder has no equality guard on the higher
      segments, so a major downgrade with a higher minor segment still recommends a minor
      bump, while a downgrade in the last segment recommends nothing. */
  lemma LadderExamples()
    ensures SegmentBump(Version(2, 0, 0), Version(1, 2, 3)) == Major
    ensures SegmentBump(Version(1, 5, 0), Version(2, 0, 0)) == Minor
    ensures SegmentBump(Version(1, 2, 1), Version(1, 2, 3)) == NoBump
  {
  }

  /** Sets the flag of a recommendation. */
  function Raise(f: Flags, b: Bump): (r: Flags)
    ensures r.major == (f.major || b == Major)
    ensures r.minor == (f.minor || b == Minor)
    ensures r.patch == (f.patch || b == Patch)
  {
    match b
    case NoBump => f
    case Patch => f.(patch := true)
    case Minor => f.(minor := true)
    case Major => f.(major := true)
  }

  /** Tool-version signal: Minor on a first run, else the segment ladder. */
  function ToolSignal(tool: string, prevTool: string): Result<Bump, ReconcileError> {
    if prevTool == "" then Success(Minor)
    else
      match Parse(prevTool)
      case None => Failure(ConfigToolVersionInvalid)
      case Some(p) =>
        match Parse(tool)
        case None => Failure(ToolVersionInvalid)
        case Some(c) => Success(SegmentBump(c, p))
  }

  /** Document-version signal and whether the not-a-semver warning is printed: Minor
      on a first run; nothing (with the warning) if the current version is not a
      semantic version; else the segment ladder. */
  function DocSignal(doc: string, prevDoc: string): Result<(Bump, bool), ReconcileError> {
    if prevDoc == "" then Success((Minor, false))
    else
      match Parse(doc)
      case None => Success((NoBump, true))
      case Some(c) =>
        match Parse(prevDoc)
        case None => Failure(ConfigDocVersionInvalid)
        case Some(p) => Success((SegmentBump(c, p), false))
  }

  /** Checksum signal: Minor on a first run, Patch on any change. */
  function ChecksumSignal(checksum: string, prevChecksum: string): Bump {
    if prevChecksum == "" then Minor
    else if checksum != prevChecksum then Patch
    else NoBump
  }

  /** The three flags after all three signals, or the first fatal parse error. */
  function BumpFlags(tool: string, doc: string, checksum: string, mgmt: map<string, string>): Result<Flags, ReconcileError> {
    var t :- ToolSignal(tool, Get(mgmt, ToolKey));
    var d :- DocSignal(doc, Get(mgmt, DocKey));
    Success(Raise(Raise(Raise(NoFlags, t), d.0), ChecksumSignal(checksum, Get(mgmt, ChecksumKey))))
  }

  /** The version the bump starts from: 0.0.0 when there is no previous SDK version. */
  function StartVersion(sdk: string): Result<Version, ReconcileError> {
    if sdk == "" then Success(Version(0, 0, 0))
    else
      match Parse(sdk)
      case None => Failure(SdkVersionInvalid)
      case Some(v) => Success(v)
  }

  /** Precedence Major > Minor > Patch. */
  function Resolve(v: Version, f: Flags): (r: Version)
    ensures GreaterThan(r, v) <==> f.Any()
    ensures !f.Any() ==> r == v
  {
    if f.major then Version(v.major + 1, 0, 0)
    else if f.minor then Version(v.major, v.minor + 1, 0)
    else if f.patch then Version(v.major, v.minor, v.patch + 1)
    else v
  }

  /** Index of the most significant flag that is set (3 if none). */
  function HighestFlag(f: Flags): nat {
    if f.major then 0 else if f.minor then 1 else if f.patch then 2 else 3
  }

  /** The precedence law segment by segment: the segments above the highest set flag
      are kept, its own segment goes up by one and every segment below it is zeroed. */
  lemma ResolvePrecedence(v: Version, f: Flags)
    ensures forall j :: 0 <= j < 3 && j < HighestFlag(f) ==> Segment(Resolve(v, f), j) == Segment(v, j)
    ensures HighestFlag(f) < 3 ==> Segment(Resolve(v, f), HighestFlag(f)) == Segment(v, HighestFlag(f)) + 1
    ensures forall j :: HighestFlag(f) < j < 3 ==> Segment(Resolve(v, f), j) == 0
  {
  }

  /** The decision `checkForChanges` reaches, as one expression. */
  function Decide(tool: string, doc: string, checksum: string, sdk: string, mgmt: map<string, string>): Result<Decision, ReconcileError> {
    if Unchanged(tool, doc, checksum, mgmt) then Success(Decision("", false, false))
    else
      var flags :- BumpFlags(tool, doc, checksum, mgmt);
      var start :- StartVersion(sdk);
      var prevDoc, prevChecksum := Get(mgmt, DocKey), Get(mgmt, ChecksumKey);
      var docUpdated := prevDoc != "" && DocSignal(doc, prevDoc).value.0 != NoBump;
      Success(Decision(
        Format(Resolve(start, flags)),
        DocSignal(doc, prevDoc).value.1,
        prevChecksum != "" && checksum != prevChecksum && !docUpdated))
  }

  /** A stored tool version that does not parse is fatal, before anything else. */
  lemma ConfigToolVersionError(tool: string, doc: string, checksum: string, sdk: string, mgmt: map<string, string>)
    requires !Unchanged(tool, doc, checksum, mgmt)
    requires Get(mgmt, ToolKey) != "" && Parse(Get(mgmt, ToolKey)).None?
    ensures Decide(tool, doc, checksum, sdk, mgmt) == Failure(ConfigToolVersionInvalid)
  {
  }

  /** With a stored tool version, a current tool version that does not parse is fatal. */
  lemma ToolVersionError(tool: string, doc: string, checksum: string, sdk: string, mgmt: map<string, string>)
    requires !Unchanged(tool, doc, checksum, mgmt)
    requires Get(mgmt, ToolKey) != "" && Parse(Get(mgmt, ToolKey)).Some? && Parse(tool).None?
    ensures Decide(tool, doc, checksum, sdk, mgmt) == Failure(ToolVersionInvalid)
  {
  }

  /** A stored document version that does not parse is fatal only when the current
      one does parse. */
  lemma ConfigDocVersionError(tool: string, doc: string, checksum: string, sdk: string, mgmt: map<string, string>)
    requires !Unchanged(tool, doc, checksum, mgmt)
    requires Get(mgmt, ToolKey) == "" || (Parse(Get(mgmt, ToolKey)).Some? && Parse(tool).Some?)
    requires Get(mgmt, DocKey) != "" && Parse(doc).Some? && Parse(Get(mgmt, DocKey)).None?
    ensures Decide(tool, doc, checksum, sdk, mgmt) == Failure(ConfigDocVersionInvalid)
  {
  }

  /** A previous SDK version that does not parse is fatal once the signals are read. */
  lemma SdkVersionError(tool: string, doc: string, checksum: string, sdk: string, mgmt: map<string, string>)
    requires !Unchanged(tool, doc, checksum, mgmt)
    requires BumpFlags(tool, doc, checksum, mgmt).Success?
    requires sdk != "" && Parse(sdk).None?
    ensures Decide(tool, doc, checksum, sdk, mgmt) == Failure(SdkVersionInvalid)
  {
  }

  /** Exactly four situations are fatal, all stated on the inputs; everything else,
      including a current document version that is not a semantic version, yields a
      decision. */
  lemma FailsIff(tool: string, doc: string, checksum: string, sdk: string, mgmt: map<string, string>)
    ensures Decide(tool, doc, checksum, sdk, mgmt).Failure? <==>
      !Unchanged(tool, doc, checksum, mgmt) &&
      ((Get(mgmt, ToolKey) != "" && (Parse(Get(mgmt, ToolKey)).None? || Parse(tool).None?)) ||
       (Get(mgmt, DocKey) != "" && Parse(doc).Some? && Parse(Get(mgmt, DocKey)).None?) ||
       (sdk != "" && Parse(sdk).None?))
  {
  }

  /** A change always yields a non-empty version text that parses back to the start
      version bumped by the flags, and never to anything below the start version. */
  lemma ChangedYieldsVersion(tool: string, doc: string, checksum: string, sdk: string, mgmt: map<string, string>)
    requires !Unchanged(tool, doc, checksum, mgmt)
    requires Decide(tool, doc, checksum, sdk, mgmt).Success?
    ensures BumpFlags(tool, doc, checksum, mgmt).Success? && StartVersion(sdk).Success?
    ensures var v := Decide(tool, doc, checksum, sdk, mgmt).value.newVersion;
      v != "" && IsVersionText(v) &&
      Parse(v) == Some(Resolve(StartVersion(sdk).value, BumpFlags(tool, doc, checksum, mgmt).value))
    ensures var v := Parse(Decide(tool, doc, checksum, sdk, mgmt).value.newVersion).value;
      v == StartVersion(sdk).value || GreaterThan(v, StartVersion(sdk).value)
  {
    var start, flags := StartVersion(sdk).value, BumpFlags(tool, doc, checksum, mgmt).value;
    ParseFormat(Resolve(start, flags));
  }

  /** When no flag fires (e.g. only a tool-version downgrade), the new version is the
      previous SDK version re-formatted. */
  lemma NoFlagKeepsVersion(tool: string, doc: string, checksum: string, sdk: string, mgmt: map<string, string>)
    requires !Unchanged(tool, doc, checksum, mgmt)
    requires BumpFlags(tool, doc, checksum, mgmt).Success? && !BumpFlags(tool, doc, checksum, mgmt).value.Any()
    requires sdk != "" && Parse(sdk).Some?
    ensures Decide(tool, doc, checksum, sdk, mgmt).Success?
    ensures Decide(tool, doc, checksum, sdk, mgmt).value.newVersion == Format(Parse(sdk).value)
    ensures Parse(Decide(tool, doc, checksum, sdk, mgmt).value.newVersion) == Parse(sdk)
  {
    ParseFormat(Parse(sdk).value);
  }

  /** Proof step of `ToolDowngradeExample`: its signals, the tool going from 2.0.0 down to 1.0.0. */
  lemma DowngradeSignals()
    ensures ToolSignal("1.0.0", "2.0.0") == Success(NoBump)
    ensures DocSignal("1.0.0", "1.0.0") == Success((NoBump, false))
  {
    assert Format(Version(1, 0, 0)) == "1.0.0" && Format(Version(2, 0, 0)) == "2.0.0";
    ParseFormat(Version(1, 0, 0));
    ParseFormat(Version(2, 0, 0));
  }

  /** A tool downgrade (2.0.0 to 1.0.0) with document and checksum unchanged
      re-formats the previous SDK version 1.2.3. */
  lemma ToolDowngradeExample(tool: string, doc: string, sdk: string, mgmt: map<string, string>)
    requires tool == "1.0.0" && doc == "1.0.0" && sdk == "1.2.3"
    requires Get(mgmt, ToolKey) == "2.0.0" && Get(mgmt, DocKey) == "1.0.0" && Get(mgmt, ChecksumKey) == "abc"
    ensures Decide(tool, doc, "abc", sdk, mgmt) == Success(Decision("1.2.3", false, false))
  {
    assert tool[0] != Get(mgmt, ToolKey)[0];
    assert BumpFlags(tool, doc, "abc", mgmt) == Success(NoFlags) && DocSignal(doc, Get(mgmt, DocKey)) == Success((NoBump, false)) by {
      DowngradeSignals();
    }
    assert StartVersion(sdk) == Success(Version(1, 2, 3)) && Format(Version(1, 2, 3)) == "1.2.3" by {
      assert Format(Version(1, 2, 3)) == "1.2.3";
      ParseFormat(Version(1, 2, 3));
    }
    assert Resolve(Version(1, 2, 3), NoFlags) == Version(1, 2, 3);
    DecideBumps(tool, doc, "abc", sdk, mgmt, NoFlags, Version(1, 2, 3), false, false);
  }

  /** First run: with no stored metadata and no previous SDK version, any input gives
      0.1.0 and neither warning. */
  lemma FirstRunIsZeroOneZero(tool: string, doc: string, checksum: string, mgmt: map<string, string>)
    requires Get(mgmt, ToolKey) == "" && Get(mgmt, DocKey) == "" && Get(mgmt, ChecksumKey) == ""
    requires !Unchanged(tool, doc, checksum, mgmt)
    ensures Decide(tool, doc, checksum, "", mgmt) == Success(Decision("0.1.0", false, false))
  {
    assert Format(Version(0, 1, 0)) == "0.1.0";
  }

  /** A checksum that differs from a stored one bumps at least the patch segment. */
  lemma ChecksumForcesBump(tool: string, doc: string, checksum: string, sdk: string, mgmt: map<string, string>)
    requires Get(mgmt, ChecksumKey) != "" && checksum != Get(mgmt, ChecksumKey)
    requires Decide(tool, doc, checksum, sdk, mgmt).Success?
    ensures StartVersion(sdk).Success?
    ensures Parse(Decide(tool, doc, checksum, sdk, mgmt).value.newVersion).Some?
    ensures GreaterThan(Parse(Decide(tool, doc, checksum, sdk, mgmt).value.newVersion).value, StartVersion(sdk).value)
  {
    ChangedYieldsVersion(tool, doc, checksum, sdk, mgmt);
  }

  /** Proof step of `ChecksumOnlyExample`: its signals, tool and document versions unchanged. */
  lemma ChecksumOnlySignals()
    ensures ToolSignal("1.20.0", "1.20.0") == Success(NoBump)
    ensures DocSignal("1.0.0", "1.0.0") == Success((NoBump, false))
  {
    assert Format(Version(1, 0, 0)) == "1.0.0" && Format(Version(1, 20, 0)) == "1.20.0";
    ParseFormat(Version(1, 0, 0));
    ParseFormat(Version(1, 20, 0));
  }

  /** Checksum-only change (abc to def) on 1.2.0 gives 1.2.1 and the checksum warning. */
  lemma ChecksumOnlyExample(tool: string, doc: string, checksum: string, sdk: string, mgmt: map<string, string>)
    requires tool == "1.20.0" && doc == "1.0.0" && checksum == "def" && sdk == "1.2.0"
    requires Get(mgmt, ToolKey) == "1.20.0" && Get(mgmt, DocKey) == "1.0.0" && Get(mgmt, ChecksumKey) == "abc"
    ensures Decide(tool, doc, checksum, sdk, mgmt) == Success(Decision("1.2.1", false, true))
  {
    assert checksum[0] != Get(mgmt, ChecksumKey)[0];
    assert BumpFlags(tool, doc, checksum, mgmt) == Success(Flags(false, false, true)) &&
      DocSignal(doc, Get(mgmt, DocKey)) == Success((NoBump, false)) by {
      ChecksumOnlySignals();
    }
    assert StartVersion(sdk) == Success(Version(1, 2, 0)) by {
      assert Format(Version(1, 2, 0)) == "1.2.0";
      ParseFormat(Version(1, 2, 0));
    }
    assert Resolve(Version(1, 2, 0), Flags(false, false, true)) == Version(1, 2, 1);
    assert Format(Version(1, 2, 1)) == "1.2.1";
    DecideBumps(tool, doc, checksum, sdk, mgmt, Flags(false, false, true), Version(1, 2, 0), false, false);
  }

  /** A current document version that is not a semantic version (with a stored one)
      only warns: it is never fatal and the flags are those of the other two signals. */
  lemma DocNotSemverOnlyWarns(tool: string, doc: string, checksum: string, sdk: string, mgmt: map<string, string>)
    requires !Unchanged(tool, doc, checksum, mgmt)
    requires Get(mgmt, DocKey) != "" && Parse(doc).None?
    requires ToolSignal(tool, Get(mgmt, ToolKey)).Success? && StartVersion(sdk).Success?
    ensures Decide(tool, doc, checksum, sdk, mgmt).Success?
    ensures var r := Decide(tool, doc, checksum, sdk, mgmt).value;
      r.docVersionNotSemver &&
      r.checksumWithoutVersion == (Get(mgmt, ChecksumKey) != "" && checksum != Get(mgmt, ChecksumKey)) &&
      Parse(r.newVersion) == Some(Resolve(StartVersion(sdk).value,
        Raise(Raise(NoFlags, ToolSignal(tool, Get(mgmt, ToolKey)).value), ChecksumSignal(checksum, Get(mgmt, ChecksumKey)))))
  {
    assert DocSignal(doc, Get(mgmt, DocKey)) == Success((NoBump, true));
    assert BumpFlags(tool, doc, checksum, mgmt) == Success(Raise(Raise(NoFlags, ToolSignal(tool, Get(mgmt, ToolKey)).value),
      ChecksumSignal(checksum, Get(mgmt, ChecksumKey))));
    ChangedYieldsVersion(tool, doc, checksum, sdk, mgmt);
  }

  /** A tool signal that cannot be read is the outcome. */
  lemma ToolFailure(tool: string, doc: string, checksum: string, sdk: string, mgmt: map<string, string>)
    requires !Unchanged(tool, doc, checksum, mgmt)
    requires ToolSignal(tool, Get(mgmt, ToolKey)).Failure?
    ensures Decide(tool, doc, checksum, sdk, mgmt) == Failure(ToolSignal(tool, Get(mgmt, ToolKey)).error)
  {
  }

  /** A document signal that cannot be read, after a readable tool signal, is the outcome. */
  lemma DocFailure(tool: string, doc: string, checksum: string, sdk: string, mgmt: map<string, string>)
    requires !Unchanged(tool, doc, checksum, mgmt)
    requires ToolSignal(tool, Get(mgmt, ToolKey)).Success?
    requires DocSignal(doc, Get(mgmt, DocKey)).Failure?
    ensures Decide(tool, doc, checksum, sdk, mgmt) == Failure(DocSignal(doc, Get(mgmt, DocKey)).error)
  {
  }

  /** When nothing is fatal, the new version is the start version bumped by the flags. */
  lemma DecideBumps(tool: string, doc: string, checksum: string, sdk: string, mgmt: map<string, string>, flags: Flags, start: Version, docWarning: bool, docUpdated: bool)
    requires !Unchanged(tool, doc, checksum, mgmt)
    requires BumpFlags(tool, doc, checksum, mgmt) == Success(flags)
    requires StartVersion(sdk) == Success(start)
    requires DocSignal(doc, Get(mgmt, DocKey)).Success?
    requires DocSignal(doc, Get(mgmt, DocKey)).value.1 == docWarning
    requires docUpdated == (Get(mgmt, DocKey) != "" && DocSignal(doc, Get(mgmt, DocKey)).value.0 != NoBump)
    ensures Decide(tool, doc, checksum, sdk, mgmt) == Success(Decision(Format(Resolve(start, flags)), docWarning,
      Get(mgmt, ChecksumKey) != "" && checksum != Get(mgmt, ChecksumKey) && !docUpdated))
  {
  }

  /** The segment ladder as `checkForChanges` runs it on the three flags (it is
      written out twice there, for the tool and for the document version): the first
      segment that went up sets its flag; `raised` says whether one did. */
  method Ladder(cur: Version, prev: Version, bumpMajor: bool, bumpMinor: bool, bumpPatch: bool)
    returns (major: bool, minor: bool, patch: bool, raised: bool)
    ensures Flags(major, minor, patch) == Raise(Flags(bumpMajor, bumpMinor, bumpPatch), SegmentBump(cur, prev))
    ensures raised == (SegmentBump(cur, prev) != NoBump)
  {
    major, minor, patch, raised := bumpMajor, bumpMinor, bumpPatch, false;
    if cur.major > prev.major {
      major, raised := true, true;
    } else if cur.minor > prev.minor {
      minor, raised := true, true;
    } else if cur.patch > prev.patch {
      patch, raised := true, true;
    }
  }

  /** The second half of `checkForChanges`: parse the previous SDK version (0.0.0 when
      there is none) and bump it in place by precedence Major > Minor > Patch. */
  method BumpSdkVersion(sdkVersion: string, bumpMajor: bool, bumpMinor: bool, bumpPatch: bool)
    returns (r: Result<Version, ReconcileError>)
    ensures r.Failure? <==> StartVersion(sdkVersion).Failure?
    ensures r.Failure? ==> r.error == SdkVersionInvalid
    ensures r.Success? ==> r.value == Resolve(StartVersion(sdkVersion).value, Flags(bumpMajor, bumpMinor, bumpPatch))
  {
    var major, minor, patch := 0, 0, 0;
    if sdkVersion != "" {
      var sdkV := Parse(sdkVersion);
      if sdkV.None? {
        return Failure(SdkVersionInvalid);
      }
      major, minor, patch := sdkV.value.major, sdkV.value.minor, sdkV.value.patch;
    }

    if bumpMajor {
      major := major + 1;
      minor := 0;
      patch := 0;
    } else if bumpMinor {
      minor := minor + 1;
      patch := 0;
    } else if bumpPatch {
      patch := patch + 1;
    }
    return Success(Version(major, minor, patch));
  }

  /** The tool-version block of `checkForChanges`: raises the flags for the CLI
      version signal, or reports why it cannot be read. */
  method ToolStage(speakeasyVersion: string, prevTool: string, bumpMajor: bool, bumpMinor: bool, bumpPatch: bool)
    returns (failure: Option<ReconcileError>, major: bool, minor: bool, patch: bool)
    ensures failure.Some? <==> ToolSignal(speakeasyVersion, prevTool).Failure?
    ensures failure.Some? ==> failure.value == ToolSignal(speakeasyVersion, prevTool).error
    ensures failure.None? ==>
      Flags(major, minor, patch) == Raise(Flags(bumpMajor, bumpMinor, bumpPatch), ToolSignal(speakeasyVersion, prevTool).value)
  {
    failure, major, minor, patch := None, bumpMajor, bumpMinor, bumpPatch;
    if prevTool == "" {
      minor := true;
      return;
    }
    var previousSpeakeasyV := Parse(prevTool);
    if previousSpeakeasyV.None? {
      return Some(ConfigToolVersionInvalid), major, minor, patch;
    }
    var currentSpeakeasyV := Parse(speakeasyVersion);
    if currentSpeakeasyV.None? {
      return Some(ToolVersionInvalid), major, minor, patch;
    }
    var raised;
    major, minor, patch, raised := Ladder(currentSpeakeasyV.value, previousSpeakeasyV.value, major, minor, patch);
  }

  /** The document-version block of `checkForChanges`: raises the flags for the
      document version signal, and says whether that signal raised anything and
      whether the not-a-semver warning is printed. */
  method DocStage(docVersion: string, prevDoc: string, bumpMajor: bool, bumpMinor: bool, bumpPatch: bool)
    returns (failure: Option<ReconcileError>, major: bool, minor: bool, patch: bool, docVersionUpdated: bool, docWarning: bool)
    ensures failure.Some? <==> DocSignal(docVersion, prevDoc).Failure?
    ensures failure.Some? ==> failure.value == DocSignal(docVersion, prevDoc).error
    ensures failure.None? ==>
      Flags(major, minor, patch) == Raise(Flags(bumpMajor, bumpMinor, bumpPatch), DocSignal(docVersion, prevDoc).value.0) &&
      docWarning == DocSignal(docVersion, prevDoc).value.1 &&
      docVersionUpdated == (prevDoc != "" && DocSignal(docVersion, prevDoc).value.0 != NoBump)
  {
    failure, major, minor, patch, docVersionUpdated, docWarning := None, bumpMajor, bumpMinor, bumpPatch, false, false;
    if prevDoc == "" {
      minor := true;
      return;
    }
    var currentDocV := Parse(docVersion);
    if currentDocV.None? {
      docWarning := true;
      return;
    }
    var previousDocV := Parse(prevDoc);
    if previousDocV.None? {
      return Some(ConfigDocVersionInvalid), major, minor, patch, docVersionUpdated, docWarning;
    }
    major, minor, patch, docVersionUpdated := Ladder(currentDocV.value, previousDocV.value, major, minor, patch);
  }

  /** `checkForChanges`: sets the bump flags signal by signal, then bumps the parsed
      previous SDK version in place. */
  method CheckForChanges(speakeasyVersion: string, docVersion: string, docChecksum: string, sdkVersion: string, mgmtConfig: map<string, string>)
    returns (r: Result<Decision, ReconcileError>)
    ensures r == Decide(speakeasyVersion, docVersion, docChecksum, sdkVersion, mgmtConfig)
    ensures Unchanged(speakeasyVersion, docVersion, docChecksum, mgmtConfig) ==> r == Success(Decision("", false, false))
    ensures !Unchanged(speakeasyVersion, docVersion, docChecksum, mgmtConfig) && r.Success? ==>
      r.value.newVersion != "" && Parse(r.value.newVersion).Some?
  {
    var prevTool, prevDoc, prevChecksum := Get(mgmtConfig, ToolKey), Get(mgmtConfig, DocKey), Get(mgmtConfig, ChecksumKey);
    if speakeasyVersion == prevTool && docVersion == prevDoc && docChecksum == prevChecksum {
      return Success(Decision("", false, false));
    }
    var failure, bumpMajor, bumpMinor, bumpPatch := ToolStage(speakeasyVersion, prevTool, false, false, false);
    if failure.Some? {
      ToolFailure(speakeasyVersion, docVersion, docChecksum, sdkVersion, mgmtConfig);
      return Failure(failure.value);
    }
    var docVersionUpdated, docWarning;
    failure, bumpMajor, bumpMinor, bumpPatch, docVersionUpdated, docWarning := DocStage(docVersion, prevDoc, bumpMajor, bumpMinor, bumpPatch);
    if failure.Some? {
      DocFailure(speakeasyVersion, docVersion, docChecksum, sdkVersion, mgmtConfig);
      return Failure(failure.value);
    }

    var checksumWarning := false;
    if prevChecksum == "" {
      bumpMinor := true;
    } else if docChecksum != prevChecksum {
      bumpPatch := true;
      if !docVersionUpdated {
        checksumWarning := true;
      }
    }
    assert BumpFlags(speakeasyVersion, docVersion, docChecksum, mgmtConfig) == Success(Flags(bumpMajor, bumpMinor, bumpPatch));

    var next := BumpSdkVersion(sdkVersion, bumpMajor, bumpMinor, bumpPatch);
    if next.Failure? {
      SdkVersionError(speakeasyVersion, docVersion, docChecksum, sdkVersion, mgmtConfig);
      return Failure(next.error);
    }
    DecideBumps(speakeasyVersion, docVersion, docChecksum, sdkVersion, mgmtConfig, Flags(bumpMajor, bumpMinor, bumpPatch),
      StartVersion(sdkVersion).value, docWarning, docVersionUpdated);
    ParseFormat(next.value);
    return Success(Decision(Format(next.value), docWarning, checksumWarning));
  }
}
