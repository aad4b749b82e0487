/** The release-version loop of `runAction` (main.go): after generation, every
    regenerated language has its management metadata stamped and is flagged in the
    outputs, and the release version is chosen: the Go configuration's version when
    one exists, otherwise the greatest version among the regenerated languages. */
module ReleaseVersion {
  import opened Wrappers
  import opened SemVer
  import opened Reconcile
  import opened MapOrder

  /** What the loop reads and writes of one language's generator configuration: the
      `version` entry of the language's own section and the `management` section. */
  datatype LangConfig = LangConfig(version: string, management: map<string, string>)

  /** `version.NewVersion` failed on this text. */
  datatype ReleaseError = MalformedVersion(text: string)

  /** The release version before the loop: Go's version when a Go config exists. */
  function InitVersion(configs: map<string, LangConfig>): string {
    if "go" in configs then configs["go"].version else ""
  }

  /** One regenerated language seen by the loop with current release version `rv`. */
  function Consider(rv: string, usingGo: bool, v: string): Result<string, ReleaseError> {
    if usingGo then Success(rv)
    else if rv == "" then Success(v)
    else
      match Parse(rv)
      case None => Failure(MalformedVersion(rv))
      case Some(a) =>
        match Parse(v)
        case None => Failure(MalformedVersion(v))
        case Some(b) => Success(if GreaterThan(b, a) then v else rv)
  }

  /** The management section after a regeneration records the inputs it ran on. */
  function Stamp(c: LangConfig, tool: string, doc: string, checksum: string): (r: LangConfig)
    ensures r.version == c.version
    ensures Unchanged(tool, doc, checksum, r.management)
  {
    c.(management := c.management[ToolKey := tool][DocKey := doc][ChecksumKey := checksum])
  }

  /** The configurations with every language of `langs` stamped. */
  function StampAll(configs: map<string, LangConfig>, langs: set<string>, tool: string, doc: string, checksum: string): map<string, LangConfig> {
    map l | l in configs :: if l in langs then Stamp(configs[l], tool, doc, checksum) else configs[l]
  }

  /** The output names `<lang>_regenerated` of the languages in `langs`. */
  function Flagged(langs: set<string>): set<string> {
    set l | l in langs :: l + "_regenerated"
  }

  /** The outputs with `<lang>_regenerated` set to "true" for every language of `langs`. */
  function MarkRegenerated(outputs: map<string, string>, langs: set<string>): map<string, string> {
    map k | k in outputs.Keys + Flagged(langs) :: if k in Flagged(langs) then "true" else outputs[k]
  }

  /** What the loop reads: the configurations, the languages whose generation
      changed something (`langGenerated`), the inputs the management sections record,
      and the outputs before the loop. */
  datatype LoopInput = LoopInput(configs: map<string, LangConfig>, generated: set<string>,
                                 tool: string, doc: string, checksum: string, outputs: map<string, string>)

  /** The variables the loop updates. */
  datatype LoopState = LoopState(releaseVersion: string, regenerated: bool, stamped: map<string, LangConfig>, outs: map<string, string>)

  /** The state before the loop. */
  function Start(inp: LoopInput): LoopState {
    LoopState(InitVersion(inp.configs), false, inp.configs, inp.outputs)
  }

  /** The loop body for language `lang`. */
  function Visit(st: LoopState, lang: string, inp: LoopInput): Result<LoopState, ReleaseError> {
    if lang in inp.generated && lang in inp.configs then
      var rv :- Consider(st.releaseVersion, "go" in inp.configs, inp.configs[lang].version);
      Success(LoopState(rv, true,
        st.stamped[lang := Stamp(inp.configs[lang], inp.tool, inp.doc, inp.checksum)],
        st.outs[lang + "_regenerated" := "true"]))
    else Success(st)
  }

  /** The state after the loop has visited `order`, or the first parse error, which
      ends the loop. */
  function Run(order: seq<string>, inp: LoopInput): Result<LoopState, ReleaseError>
    decreases |order|
  {
    if order == [] then Success(Start(inp))
    else
      var st :- Run(order[..|order| - 1], inp);
      Visit(st, order[|order| - 1], inp)
  }

  /** A method outcome as a `Run` result. */
  function Outcome(r: Result<string, ReleaseError>, regenerated: bool, stamped: map<string, LangConfig>, outs: map<string, string>): Result<LoopState, ReleaseError> {
    match r
    case Success(v) => Success(LoopState(v, regenerated, stamped, outs))
    case Failure(e) => Failure(e)
  }

  /** Every regenerated version parses. */
  predicate AllParse(inp: LoopInput) {
    forall l :: l in inp.generated && l in inp.configs ==> Parse(inp.configs[l].version).Some?
  }

  /** One more visited language. */
  lemma RunSnoc(visited: seq<string>, lang: string, inp: LoopInput)
    requires Run(visited, inp).Success?
    ensures Run(visited + [lang], inp) == Visit(Run(visited, inp).value, lang, inp)
  {
    assert (visited + [lang])[..|visited|] == visited;
  }

  /** A failure ends the loop: visiting more languages does not change the outcome. */
  lemma {:induction false} RunFailureStays(prefix: seq<string>, suffix: seq<string>, inp: LoopInput)
    requires Run(prefix, inp).Failure?
    ensures Run(prefix + suffix, inp) == Run(prefix, inp)
    decreases |suffix|
  {
    if suffix == [] {
      assert prefix + suffix == prefix;
    } else {
      var shorter := suffix[..|suffix| - 1];
      RunFailureStays(prefix, shorter, inp);
      assert (prefix + suffix)[..|prefix + suffix| - 1] == prefix + shorter;
    }
  }

  /** A failure after visiting part of the map is the outcome of a whole iteration
      order that starts with the visited part. */
  lemma FailureWitness(visited: seq<string>, inp: LoopInput, done: set<string>)
    requires done <= inp.configs.Keys && IsOrdering(visited, done)
    requires Run(visited, inp).Failure?
    ensures exists order :: (IsOrdering(order, inp.configs.Keys) && Run(order, inp) == Run(visited, inp))
  {
    var tail := OrderingOf(inp.configs.Keys - done);
    OrderingAppend(visited, done, tail, inp.configs.Keys - done);
    assert done + (inp.configs.Keys - done) == inp.configs.Keys;
    RunFailureStays(visited, tail, inp);
  }

  /** Stamping one more language. */
  lemma StampOneMore(configs: map<string, LangConfig>, langs: set<string>, lang: string, tool: string, doc: string, checksum: string)
    requires lang in configs
    ensures StampAll(configs, langs, tool, doc, checksum)[lang := Stamp(configs[lang], tool, doc, checksum)] ==
      StampAll(configs, langs + {lang}, tool, doc, checksum)
  {
  }

  /** Flagging one more language. */
  lemma MarkOneMore(outputs: map<string, string>, langs: set<string>, lang: string)
    ensures MarkRegenerated(outputs, langs)[lang + "_regenerated" := "true"] == MarkRegenerated(outputs, langs + {lang})
  {
    assert Flagged(langs + {lang}) == Flagged(langs) + {lang + "_regenerated"};
  }

  /** Whatever the order, a loop that completes over the languages `s` has flagged
      and stamped exactly the regenerated ones among them and leaves everything else
      as it was; `regenerated` says whether there was any. */
  lemma RunEffects(order: seq<string>, s: set<string>, inp: LoopInput)
    requires IsOrdering(order, s) && s <= inp.configs.Keys
    requires Run(order, inp).Success?
    ensures Run(order, inp).value.regenerated == (inp.generated * s != {})
    ensures Run(order, inp).value.stamped == StampAll(inp.configs, inp.generated * s, inp.tool, inp.doc, inp.checksum)
    ensures Run(order, inp).value.outs == MarkRegenerated(inp.outputs, inp.generated * s)
  {
    RunRegenerated(order, s, inp);
    RunStamped(order, s, inp);
    RunMarked(order, s, inp);
  }

  /** What one successful loop step leaves in the flag, the configurations and the outputs. */
  lemma VisitShape(st: LoopState, x: string, inp: LoopInput)
    requires Visit(st, x, inp).Success?
    ensures Visit(st, x, inp).value.regenerated == (st.regenerated || (x in inp.generated && x in inp.configs))
    ensures Visit(st, x, inp).value.stamped ==
      if x in inp.generated && x in inp.configs then st.stamped[x := Stamp(inp.configs[x], inp.tool, inp.doc, inp.checksum)] else st.stamped
    ensures Visit(st, x, inp).value.outs ==
      if x in inp.generated && x in inp.configs then st.outs[x + "_regenerated" := "true"] else st.outs
  {
  }

  /** The loop over `order` is the loop over all but its last language, then one step. */
  lemma RunLast(order: seq<string>, s: set<string>, inp: LoopInput)
    requires IsOrdering(order, s) && order != [] && s <= inp.configs.Keys
    requires Run(order, inp).Success?
    ensures IsOrdering(order[..|order| - 1], s - {order[|order| - 1]})
    ensures order[|order| - 1] in inp.configs
    ensures Run(order[..|order| - 1], inp).Success?
    ensures Run(order, inp) == Visit(Run(order[..|order| - 1], inp).value, order[|order| - 1], inp)
  {
    assert order[|order| - 1] in order;
    OrderingInit(order, s);
  }

  lemma {:induction false} RunRegenerated(order: seq<string>, s: set<string>, inp: LoopInput)
    requires IsOrdering(order, s) && s <= inp.configs.Keys
    requires Run(order, inp).Success?
    ensures Run(order, inp).value.regenerated == (inp.generated * s != {})
    decreases |order|
  {
    if order == [] {
      assert s == {};
    } else {
      var init, x := order[..|order| - 1], order[|order| - 1];
      RunLast(order, s, inp);
      RunRegenerated(init, s - {x}, inp);
      VisitShape(Run(init, inp).value, x, inp);
      if x in inp.generated {
        assert x in inp.generated * s;
      } else {
        assert inp.generated * s == inp.generated * (s - {x});
      }
    }
  }

  lemma {:induction false} RunStamped(order: seq<string>, s: set<string>, inp: LoopInput)
    requires IsOrdering(order, s) && s <= inp.configs.Keys
    requires Run(order, inp).Success?
    ensures Run(order, inp).value.stamped == StampAll(inp.configs, inp.generated * s, inp.tool, inp.doc, inp.checksum)
    decreases |order|
  {
    if order == [] {
      assert s == {};
      assert StampAll(inp.configs, {}, inp.tool, inp.doc, inp.checksum) == inp.configs;
    } else {
      var init, x := order[..|order| - 1], order[|order| - 1];
      RunLast(order, s, inp);
      RunStamped(init, s - {x}, inp);
      VisitShape(Run(init, inp).value, x, inp);
      if x in inp.generated {
        assert inp.generated * s == inp.generated * (s - {x}) + {x};
        StampOneMore(inp.configs, inp.generated * (s - {x}), x, inp.tool, inp.doc, inp.checksum);
      } else {
        assert inp.generated * s == inp.generated * (s - {x});
      }
    }
  }

  lemma {:induction false} RunMarked(order: seq<string>, s: set<string>, inp: LoopInput)
    requires IsOrdering(order, s) && s <= inp.configs.Keys
    requires Run(order, inp).Success?
    ensures Run(order, inp).value.outs == MarkRegenerated(inp.outputs, inp.generated * s)
    decreases |order|
  {
    if order == [] {
      assert s == {};
      assert MarkRegenerated(inp.outputs, {}) == inp.outputs;
    } else {
      var init, x := order[..|order| - 1], order[|order| - 1];
      RunLast(order, s, inp);
      RunMarked(init, s - {x}, inp);
      VisitShape(Run(init, inp).value, x, inp);
      if x in inp.generated {
        assert inp.generated * s == inp.generated * (s - {x}) + {x};
        MarkOneMore(inp.outputs, inp.generated * (s - {x}), x);
      } else {
        assert inp.generated * s == inp.generated * (s - {x});
      }
    }
  }

  /** With a Go configuration, the loop never parses anything and the release version
      is Go's, whatever the order. */
  lemma {:induction false} GoVersionWins(order: seq<string>, inp: LoopInput)
    requires "go" in inp.configs
    ensures Run(order, inp).Success?
    ensures Run(order, inp).value.releaseVersion == inp.configs["go"].version
    decreases |order|
  {
    if order != [] {
      GoVersionWins(order[..|order| - 1], inp);
    }
  }

  /** The visited languages that were regenerated. */
  ghost function RegenIn(order: seq<string>, inp: LoopInput): (r: set<string>)
    ensures r <= inp.configs.Keys
  {
    set l | l in order && l in inp.generated && l in inp.configs
  }

  /** `rv` is "" when `langs` is empty, and otherwise the version of one of `langs`
      that no other one exceeds. */
  ghost predicate IsGreatest(rv: string, langs: set<string>, inp: LoopInput)
    requires langs <= inp.configs.Keys
  {
    (rv == "" <==> langs == {}) &&
    (rv != "" ==> Parse(rv).Some? && exists l :: l in langs && inp.configs[l].version == rv) &&
    (rv != "" ==> forall l :: l in langs && Parse(inp.configs[l].version).Some? ==>
      !GreaterThan(Parse(inp.configs[l].version).value, Parse(rv).value))
  }

  /** One loop step keeps the release version greatest among the regenerated
      languages seen. */
  lemma ConsiderKeepsGreatest(rv: string, langs: set<string>, x: string, inp: LoopInput)
    requires langs <= inp.configs.Keys && x in inp.configs && IsGreatest(rv, langs, inp)
    requires Parse(inp.configs[x].version).Some?
    ensures Consider(rv, false, inp.configs[x].version).Success?
    ensures IsGreatest(Consider(rv, false, inp.configs[x].version).value, langs + {x}, inp)
  {
    var v := inp.configs[x].version;
    var b := Parse(v).value;
    var rv' := Consider(rv, false, v).value;
    assert v != "";
    GreaterThanStrictTotal(b, b, b);
    if rv == "" {
      assert langs == {} && rv' == v;
      assert langs + {x} == {x};
    } else {
      var a := Parse(rv).value;
      if GreaterThan(b, a) {
        assert rv' == v;
        forall l | l in langs + {x} && Parse(inp.configs[l].version).Some?
          ensures !GreaterThan(Parse(inp.configs[l].version).value, b)
        {
          GreaterThanStrictTotal(Parse(inp.configs[l].version).value, b, a);
        }
      } else {
        assert rv' == rv;
      }
    }
  }

  /** The regenerated languages after one more visited one. */
  lemma RegenInSnoc(init: seq<string>, x: string, inp: LoopInput)
    ensures RegenIn(init + [x], inp) == RegenIn(init, inp) + (if x in inp.generated && x in inp.configs then {x} else {})
  {
  }

  /** One more visited language keeps the release version greatest. */
  lemma GreatestStep(init: seq<string>, x: string, inp: LoopInput)
    requires "go" !in inp.configs && AllParse(inp)
    requires Run(init, inp).Success? && IsGreatest(Run(init, inp).value.releaseVersion, RegenIn(init, inp), inp)
    ensures Run(init + [x], inp).Success?
    ensures IsGreatest(Run(init + [x], inp).value.releaseVersion, RegenIn(init + [x], inp), inp)
  {
    RunSnoc(init, x, inp);
    RegenInSnoc(init, x, inp);
    if x in inp.generated && x in inp.configs {
      ConsiderKeepsGreatest(Run(init, inp).value.releaseVersion, RegenIn(init, inp), x, inp);
    }
  }

  /** Without a Go configuration and with every regenerated version parsing, the loop
      succeeds, and the release version is "" when no visited language was
      regenerated, and otherwise the version of a visited regenerated language that no
      other one exceeds. */
  lemma {:induction false} GreatestVersionWins(order: seq<string>, inp: LoopInput)
    requires "go" !in inp.configs && AllParse(inp)
    ensures Run(order, inp).Success?
    ensures IsGreatest(Run(order, inp).value.releaseVersion, RegenIn(order, inp), inp)
    decreases |order|
  {
    if order == [] {
      assert RegenIn(order, inp) == {};
    } else {
      var init, x := order[..|order| - 1], order[|order| - 1];
      GreatestVersionWins(init, inp);
      GreatestStep(init, x, inp);
      assert init + [x] == order;
    }
  }

  /** The release version does not depend on the iteration order: two orders of the
      same languages give versions that are both "" or parse to the same version. */
  lemma OrderIndependent(o1: seq<string>, o2: seq<string>, s: set<string>, inp: LoopInput)
    requires IsOrdering(o1, s) && IsOrdering(o2, s)
    requires "go" !in inp.configs && AllParse(inp)
    ensures Run(o1, inp).Success? && Run(o2, inp).Success?
    ensures var r1, r2 := Run(o1, inp).value.releaseVersion, Run(o2, inp).value.releaseVersion;
      (r1 == "" <==> r2 == "") && Parse(r1) == Parse(r2)
  {
    GreatestVersionWins(o1, inp);
    GreatestVersionWins(o2, inp);
    assert RegenIn(o1, inp) == RegenIn(o2, inp);
    var r1, r2 := Run(o1, inp).value.releaseVersion, Run(o2, inp).value.releaseVersion;
    if r1 != "" {
      var l1 :| l1 in RegenIn(o1, inp) && inp.configs[l1].version == r1;
      var l2 :| l2 in RegenIn(o2, inp) && inp.configs[l2].version == r2;
      GreaterThanStrictTotal(Parse(r1).value, Parse(r2).value, Parse(r1).value);
    }
  }

  /** Errors, unlike the version, depend on the order: a regenerated language without
      a version followed by one whose version does not parse succeeds, the other way
      round fails. This is a property of the loop taken on its own: in the action, a
      regenerated language's version is the `N.N.N` text `checkForChanges` produced, so
      these inputs, and the loop's parse errors, do not arise there. */
  lemma ErrorsDependOnOrder(a: string, b: string, inp: LoopInput)
    requires "go" !in inp.configs && a != b
    requires a in inp.generated && a in inp.configs && inp.configs[a].version == ""
    requires b in inp.generated && b in inp.configs && inp.configs[b].version != "" && Parse(inp.configs[b].version).None?
    ensures Run([a, b], inp).Success? && Run([a, b], inp).value.releaseVersion == inp.configs[b].version
    ensures Run([b, a], inp) == Failure(MalformedVersion(inp.configs[b].version))
  {
    var va, vb := inp.configs[a].version, inp.configs[b].version;
    assert [a, b][..1] == [a] && [b, a][..1] == [b];
    assert [a][..0] == [] && [b][..0] == [];
    assert Run([a], inp) == Visit(Start(inp), a, inp);
    assert Run([a], inp) == Success(Start(inp).(releaseVersion := va, regenerated := true,
      stamped := inp.configs[a := Stamp(inp.configs[a], inp.tool, inp.doc, inp.checksum)],
      outs := inp.outputs[a + "_regenerated" := "true"]));
    assert Run([b], inp) == Visit(Start(inp), b, inp);
    assert Run([b], inp).value.releaseVersion == vb;
    assert Consider(vb, false, va) == Failure(MalformedVersion(vb));
  }

  /** A regenerated language's stamped management section makes the next
      `checkForChanges` on the same inputs report no change. */
  lemma StampedIsUnchanged(c: LangConfig, tool: string, doc: string, checksum: string, sdk: string)
    ensures Decide(tool, doc, checksum, sdk, Stamp(c, tool, doc, checksum).management) == Success(Decision("", false, false))
  {
  }

  /** The body of the loop for one regenerated language with version text `v`:
      unless Go's version is used, the first version seen is taken as it is and every
      later one replaces it only when it is strictly greater; both texts must parse
      once there is something to compare. */
  method UpdateReleaseVersion(releaseVersion: string, usingGoVersion: bool, v: string) returns (r: Result<string, ReleaseError>)
    ensures r == Consider(releaseVersion, usingGoVersion, v)
    ensures r.Success? ==> r.value == releaseVersion || r.value == v
    ensures r.Failure? ==> !usingGoVersion && releaseVersion != "" && (Parse(releaseVersion).None? || Parse(v).None?)
  {
    if usingGoVersion {
      return Success(releaseVersion);
    }
    if releaseVersion == "" {
      return Success(v);
    }
    var current := Parse(releaseVersion);
    if current.None? {
      return Failure(MalformedVersion(releaseVersion));
    }
    var candidate := Parse(v);
    if candidate.None? {
      return Failure(MalformedVersion(v));
    }
    if GreaterThan(candidate.value, current.value) {
      return Success(v);
    }
    return Success(releaseVersion);
  }

  /** The loop of main.go, over the configuration map in an order the runtime picks:
      its outcome is `Run` over some iteration order of all the languages. */
  method SelectReleaseVersion(configs: map<string, LangConfig>, generated: set<string>, tool: string, doc: string, checksum: string, outputs: map<string, string>)
    returns (r: Result<string, ReleaseError>, regenerated: bool, stamped: map<string, LangConfig>, outs: map<string, string>)
    ensures exists order :: (IsOrdering(order, configs.Keys) &&
      Run(order, LoopInput(configs, generated, tool, doc, checksum, outputs)) == Outcome(r, regenerated, stamped, outs))
  {
    ghost var inp := LoopInput(configs, generated, tool, doc, checksum, outputs);
    var releaseVersion := "";
    var usingGoVersion := false;
    if "go" in configs {
      releaseVersion := configs["go"].version;
      usingGoVersion := true;
    }
    regenerated, stamped, outs := false, configs, outputs;
    var rest := configs.Keys;
    ghost var visited: seq<string> := [];
    while rest != {}
      invariant rest <= configs.Keys
      invariant IsOrdering(visited, configs.Keys - rest)
      invariant Run(visited, inp) == Success(LoopState(releaseVersion, regenerated, stamped, outs))
      decreases rest
    {
      var lang :| lang in rest;
      ghost var done := configs.Keys - rest;
      OrderingAppend(visited, done, [lang], {lang});
      RunSnoc(visited, lang, inp);
      if lang in generated {
        outs := outs[lang + "_regenerated" := "true"];
        stamped := stamped[lang := Stamp(configs[lang], tool, doc, checksum)];
        var next := UpdateReleaseVersion(releaseVersion, usingGoVersion, configs[lang].version);
        if next.Failure? {
          r := Failure(next.error);
          FailureWitness(visited + [lang], inp, done + {lang});
          return;
        }
        releaseVersion := next.value;
        regenerated := true;
      }
      rest := rest - {lang};
      visited := visited + [lang];
      assert configs.Keys - rest == done + {lang};
    }
    r := Success(releaseVersion);
    assert configs.Keys - rest == configs.Keys;
    assert IsOrdering(visited, configs.Keys) && Run(visited, inp) == Outcome(r, regenerated, stamped, outs);
  }
}
