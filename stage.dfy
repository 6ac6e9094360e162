/** The external world a migration acts on, the actions it takes, and the
    effect of the three kinds of migration phase: running the scripts of a
    stage, an OpenUpgrade upgrade, and an enterprise upgrade.  Whether an
    external action raises is an oracle indexed by the number of actions
    taken before it; so are the modules installed in the database and what
    the enterprise loop observes. */
module Stage {
  import opened Wrappers
  import opened PyStr
  import opened Versions
  import opened Progress
  import opened Directives
  import opened Hooks
  import opened Enterprise

  /** The filesystem, the build directory (WAFT_DIR), the version being
      built (ODOO_VERSION), and the oracles. */
  datatype World = World(
    fs: Fs,
    waftDir: string,
    odooVersion: nat,
    fails: nat -> bool,
    installed: nat -> set<string>,
    observe: nat -> seq<Observation>)

  /** Links followed before the chain counts as too deep; it stands for
      Python's recursion limit. */
  const LinkBound: nat := 1000

  datatype Phase =
    | Scripts(version: nat, stage: string, runAt: nat)  // run_scripts(version, stage, runAt)
    | Upgrade(version: nat)                              // run_upgrade(version)
    | EnterpriseUpgrade(version: nat)                    // run_enterprise_upgrade(version)

  datatype Action =
    | Enter(phase: Phase)
    | Exec(kind: ScriptKind, script: string, buildDir: string)
    | LoadEnterpriseScript
    | BackupMailServers
    | DefuseDatabase
    | OdooUpgrade(version: nat, buildDir: string, initial: bool)
    | BackupDatabase(version: nat)
    | PrepareEnterprise(version: nat)
    | EnterpriseAttempts(version: nat, outcome: Outcome, answers: seq<string>)
    | PlaceEnterpriseDatabase(version: nat, copy: bool)

  /** The build a script or an upgrade of `v` runs in: the main build for
      the final version from 14.0 on, the migration build of `v` otherwise. */
  function BuildDir(w: World, v: nat): string {
    if v == w.odooVersion && v >= 14 then w.waftDir else MigrationPath(w.waftDir) + "/build-" + VersionName(v)
  }

  /** The phases entered, in order. */
  function Phases(ops: seq<Action>): seq<Phase> {
    if ops == [] then []
    else (if ops[0].Enter? then [ops[0].phase] else []) + Phases(ops[1..])
  }

  lemma {:induction false} PhasesAppend(a: seq<Action>, b: seq<Action>)
    ensures Phases(a + b) == Phases(a) + Phases(b)
  {
    if a != [] {
      var h := if a[0].Enter? then [a[0].phase] else [];
      assert (a + b)[0] == a[0] && (a + b)[1..] == a[1..] + b;
      assert Phases(a + b) == h + Phases(a[1..] + b);
      PhasesAppend(a[1..], b);
      assert Phases(a) == h + Phases(a[1..]);
      assert h + (Phases(a[1..]) + Phases(b)) == (h + Phases(a[1..])) + Phases(b);
    } else {
      assert a + b == b;
    }
  }

  /** The state a phase leaves: the progress, the actions so far, and
      whether it ended without raising. */
  datatype Effect = Effect(progress: ProgressMap, ops: seq<Action>, ok: bool)

  /** A candidate comes to rest: recorded, or readable and skipped as
      unsupported under `installed` or as having an unknown extension. */
  predicate Settled(w: World, version: nat, stage: string, runAt: nat, m: ProgressMap, c: Candidate, installed: set<string>) {
    || Recorded(m, version, stage, c.path)
    || (&& c.path in w.fs.files
        && (|| !CheckScriptSupport(c.path, w.fs.files[c.path], VersionName(runAt), installed)
            || Resolve(w.fs, w.waftDir, c.path, LinkBound) == UnknownExtension))
  }

  /** One pass of the loop of `run_scripts`: a recorded, unsupported or
      unknown script is passed over, a listed file that cannot be opened
      raises, and a script that runs is recorded once it returned. */
  function Visit(w: World, version: nat, stage: string, runAt: nat, c: Candidate, m: ProgressMap, ops: seq<Action>): Effect {
    if Recorded(m, version, stage, c.path) then Effect(m, ops, true)
    else if c.path !in w.fs.files then Effect(m, ops, false)
    else if !CheckScriptSupport(c.path, w.fs.files[c.path], VersionName(runAt), w.installed(|ops|)) then Effect(m, ops, true)
    else match Resolve(w.fs, w.waftDir, c.path, LinkBound)
      case Runs(kind, script) =>
        var ops' := ops + [Exec(kind, script, BuildDir(w, runAt))];
        if w.fails(|ops|) then Effect(m, ops', false)
        else Effect(MarkScript(m, version, stage, c.path), ops', true)
      case UnknownExtension => Effect(m, ops, true)
      case _ => Effect(m, ops, false)
  }

  /** The loop of `run_scripts` over the sorted candidates. */
  function Scan(w: World, version: nat, stage: string, runAt: nat, cands: seq<Candidate>, m: ProgressMap, ops: seq<Action>): Effect
    decreases |cands|
  {
    if cands == [] then Effect(m, ops, true)
    else
      var e := Visit(w, version, stage, runAt, cands[0], m, ops);
      if !e.ok then e else Scan(w, version, stage, runAt, cands[1..], e.progress, e.ops)
  }

  /** `run_scripts(version, stage, runAt)`. */
  function ScriptsEffect(w: World, version: nat, stage: string, runAt: nat, m: ProgressMap, ops: seq<Action>): Effect {
    var ops1 := ops + [Enter(Scripts(version, stage, runAt))];
    match StageCandidates(w.fs, w.waftDir, version, stage)
    case None => Effect(m, ops1, false)
    case Some(cs) => Scan(w, version, stage, runAt, SortByName(cs), m, ops1)
  }

  /** One pass either changes nothing or, for a readable, supported script
      not yet recorded that resolves to a run, runs it once and, unless the
      run raised, records it. */
  lemma VisitFacts(w: World, version: nat, stage: string, runAt: nat, c: Candidate, m: ProgressMap, ops: seq<Action>)
    ensures var e := Visit(w, version, stage, runAt, c, m, ops);
            && (e.ops == ops || (|e.ops| == |ops| + 1 && e.ops == ops + [e.ops[|ops|]] && e.ops[|ops|].Exec?))
            && (|| e.progress == m
                || (&& e.progress == MarkScript(m, version, stage, c.path)
                    && !Recorded(m, version, stage, c.path) && c.path in w.fs.files
                    && CheckScriptSupport(c.path, w.fs.files[c.path], VersionName(runAt), w.installed(|ops|))
                    && Resolve(w.fs, w.waftDir, c.path, LinkBound).Runs?))
  {
  }

  /** Appending script runs after one more script run. */
  lemma ExecsExtend(ops: seq<Action>, x: Action, r: seq<Action>)
    requires x.Exec? && |ops| + 1 <= |r| && r[..|ops| + 1] == ops + [x]
    requires forall i :: |ops| + 1 <= i < |r| ==> r[i].Exec?
    ensures r[..|ops|] == ops && forall i :: |ops| <= i < |r| ==> r[i].Exec?
  {
    assert r[..|ops|] == r[..|ops| + 1][..|ops|];
    assert r[|ops|] == r[..|ops| + 1][|ops|];
  }

  /** A scan only appends script runs to the actions. */
  lemma {:induction false} ScanOps(w: World, version: nat, stage: string, runAt: nat, cands: seq<Candidate>, m: ProgressMap, ops: seq<Action>)
    ensures var r := Scan(w, version, stage, runAt, cands, m, ops).ops;
            |ops| <= |r| && r[..|ops|] == ops && forall i :: |ops| <= i < |r| ==> r[i].Exec?
    decreases |cands|
  {
    if cands != [] {
      var e := Visit(w, version, stage, runAt, cands[0], m, ops);
      VisitFacts(w, version, stage, runAt, cands[0], m, ops);
      var r := Scan(w, version, stage, runAt, cands, m, ops).ops;
      if e.ok {
        ScanOps(w, version, stage, runAt, cands[1..], e.progress, e.ops);
      } else {
        assert r == e.ops;
        assert r[..|e.ops|] == e.ops;
      }
      if e.ops != ops {
        ExecsExtend(ops, e.ops[|ops|], r);
      }
    }
  }

  /** A scan changes only the scripts recorded for its own version and
      stage, never a flag, and forgets no script. */
  lemma {:induction false} ScanProgress(w: World, version: nat, stage: string, runAt: nat, cands: seq<Candidate>, m: ProgressMap, ops: seq<Action>)
    ensures var r := Scan(w, version, stage, runAt, cands, m, ops).progress;
            && UpgradedSet(r) == UpgradedSet(m) && EnterpriseSet(r) == EnterpriseSet(m)
            && (forall v': nat, s': string :: (v', s') != (version, stage) ==> StageScripts(r, v', s') == StageScripts(m, v', s'))
            && (forall p :: Recorded(m, version, stage, p) ==> Recorded(r, version, stage, p))
    decreases |cands|
  {
    if cands != [] {
      var c := cands[0];
      var e := Visit(w, version, stage, runAt, c, m, ops);
      VisitFacts(w, version, stage, runAt, c, m, ops);
      if e.progress != m {
        forall p | Recorded(m, version, stage, p) ensures Recorded(e.progress, version, stage, p) {
          assert p in StageScripts(m, version, stage);
        }
      }
      if e.ok {
        ScanProgress(w, version, stage, runAt, cands[1..], e.progress, e.ops);
      }
    }
  }

  /** Every script a scan records was listed, not recorded before, readable,
      supported when it was reached, and resolved to a script that ran. */
  lemma {:induction false} ScanRecordsOnlyRuns(w: World, version: nat, stage: string, runAt: nat, cands: seq<Candidate>, m: ProgressMap, ops: seq<Action>, p: string)
    requires Recorded(Scan(w, version, stage, runAt, cands, m, ops).progress, version, stage, p)
    requires !Recorded(m, version, stage, p)
    ensures exists i, n: nat :: && 0 <= i < |cands| && cands[i].path == p && p in w.fs.files
                                && CheckScriptSupport(p, w.fs.files[p], VersionName(runAt), w.installed(n))
                                && Resolve(w.fs, w.waftDir, p, LinkBound).Runs?
    decreases |cands|
  {
    var c := cands[0];
    var e := Visit(w, version, stage, runAt, c, m, ops);
    VisitFacts(w, version, stage, runAt, c, m, ops);
    if Recorded(e.progress, version, stage, p) {
      assert e.progress != m;
      assert StageScripts(e.progress, version, stage) == StageScripts(m, version, stage) + [c.path];
      assert p == c.path;
      var n: nat := |ops|;
      assert CheckScriptSupport(p, w.fs.files[p], VersionName(runAt), w.installed(n));
    } else {
      var rest := cands[1..];
      ScanRecordsOnlyRuns(w, version, stage, runAt, rest, e.progress, e.ops, p);
      var i, n: nat :| 0 <= i < |rest| && rest[i].path == p && p in w.fs.files
                       && CheckScriptSupport(p, w.fs.files[p], VersionName(runAt), w.installed(n))
                       && Resolve(w.fs, w.waftDir, p, LinkBound).Runs?;
      assert cands[i + 1] == rest[i];
    }
  }

  /** After a scan that did not raise, every candidate has come to rest,
      provided the installed modules did not change. */
  lemma {:induction false} ScanSettles(w: World, version: nat, stage: string, runAt: nat, cands: seq<Candidate>, m: ProgressMap, ops: seq<Action>, installed: set<string>)
    requires forall n :: w.installed(n) == installed
    requires Scan(w, version, stage, runAt, cands, m, ops).ok
    ensures forall c :: c in cands ==> Settled(w, version, stage, runAt, Scan(w, version, stage, runAt, cands, m, ops).progress, c, installed)
    decreases |cands|
  {
    if cands != [] {
      var c := cands[0];
      var rest := cands[1..];
      var r := Scan(w, version, stage, runAt, cands, m, ops);
      if Recorded(m, version, stage, c.path) {
        ScanSettles(w, version, stage, runAt, rest, m, ops, installed);
        ScanProgress(w, version, stage, runAt, rest, m, ops);
      } else if !CheckScriptSupport(c.path, w.fs.files[c.path], VersionName(runAt), w.installed(|ops|))
                || Resolve(w.fs, w.waftDir, c.path, LinkBound) == UnknownExtension {
        ScanSettles(w, version, stage, runAt, rest, m, ops, installed);
      } else {
        var res := Resolve(w.fs, w.waftDir, c.path, LinkBound);
        var ops' := ops + [Exec(res.kind, res.script, BuildDir(w, runAt))];
        var m' := MarkScript(m, version, stage, c.path);
        ScanSettles(w, version, stage, runAt, rest, m', ops', installed);
        ScanProgress(w, version, stage, runAt, rest, m', ops');
        assert Recorded(m', version, stage, c.path);
      }
      assert forall x :: x in cands ==> x == c || x in rest;
    }
  }

  /** A scan over candidates that have all come to rest runs nothing and
      changes nothing. */
  lemma {:induction false} ScanSettledNoop(w: World, version: nat, stage: string, runAt: nat, cands: seq<Candidate>, m: ProgressMap, ops: seq<Action>, installed: set<string>)
    requires forall n :: w.installed(n) == installed
    requires forall c :: c in cands ==> Settled(w, version, stage, runAt, m, c, installed)
    ensures Scan(w, version, stage, runAt, cands, m, ops) == Effect(m, ops, true)
    decreases |cands|
  {
    if cands != [] {
      assert cands[0] in cands;
      assert forall c :: c in cands[1..] ==> c in cands;
      ScanSettledNoop(w, version, stage, runAt, cands[1..], m, ops, installed);
    }
  }

  /** Running the scripts of a stage a second time, with the filesystem and
      the installed modules unchanged, executes nothing and records
      nothing. */
  lemma RunScriptsTwice(w: World, version: nat, stage: string, runAt: nat, m: ProgressMap, ops: seq<Action>, later: seq<Action>, installed: set<string>)
    requires forall n :: w.installed(n) == installed
    requires ScriptsEffect(w, version, stage, runAt, m, ops).ok
    ensures var m1 := ScriptsEffect(w, version, stage, runAt, m, ops).progress;
            ScriptsEffect(w, version, stage, runAt, m1, later)
            == Effect(m1, later + [Enter(Scripts(version, stage, runAt))], true)
  {
    var cs := StageCandidates(w.fs, w.waftDir, version, stage).value;
    var sorted := SortByName(cs);
    var ops1 := ops + [Enter(Scripts(version, stage, runAt))];
    ScanSettles(w, version, stage, runAt, sorted, m, ops1, installed);
    var m1 := Scan(w, version, stage, runAt, sorted, m, ops1).progress;
    ScanSettledNoop(w, version, stage, runAt, sorted, m1, later + [Enter(Scripts(version, stage, runAt))], installed);
  }

  /** `r` continues `ops` by entering phase `p` and then taking actions
      that enter no other phase. */
  predicate EntersOnly(ops: seq<Action>, r: seq<Action>, p: Phase) {
    && |ops| < |r| && r[..|ops|] == ops && r[|ops|] == Enter(p)
    && forall i :: |ops| < i < |r| ==> !r[i].Enter?
  }

  lemma {:induction false} NoPhases(a: seq<Action>)
    requires forall i :: 0 <= i < |a| ==> !a[i].Enter?
    ensures Phases(a) == []
  {
    if a != [] {
      NoPhases(a[1..]);
    }
  }

  lemma EntersOnlyPhases(ops: seq<Action>, r: seq<Action>, p: Phase)
    requires EntersOnly(ops, r, p)
    ensures Phases(r) == Phases(ops) + [p]
  {
    var tail := r[|ops| + 1..];
    assert r == ops + ([Enter(p)] + tail);
    NoPhases(tail);
    PhasesAppend([Enter(p)], tail);
    PhasesAppend(ops, [Enter(p)] + tail);
  }

  /** Actions that extend `ops + [Enter(p)]` by runs only enter `p` alone. */
  lemma ExtendEnters(ops: seq<Action>, p: Phase, r: seq<Action>)
    requires |ops| + 1 <= |r| && r[..|ops| + 1] == ops + [Enter(p)]
    requires forall i :: |ops| + 1 <= i < |r| ==> r[i].Exec?
    ensures EntersOnly(ops, r, p)
  {
    assert r[..|ops|] == r[..|ops| + 1][..|ops|];
    assert r[|ops|] == r[..|ops| + 1][|ops|];
  }

  lemma ScriptsEffectUnfold(w: World, version: nat, stage: string, runAt: nat, m: ProgressMap, ops: seq<Action>)
    ensures var ops1 := ops + [Enter(Scripts(version, stage, runAt))];
            var cs := StageCandidates(w.fs, w.waftDir, version, stage);
            ScriptsEffect(w, version, stage, runAt, m, ops).ops ==
            if cs.Some? then Scan(w, version, stage, runAt, SortByName(cs.value), m, ops1).ops else ops1
  {
  }

  /** The scripts of a stage enter exactly their own phase. */
  lemma ScriptsEffectOps(w: World, version: nat, stage: string, runAt: nat, m: ProgressMap, ops: seq<Action>)
    ensures EntersOnly(ops, ScriptsEffect(w, version, stage, runAt, m, ops).ops, Scripts(version, stage, runAt))
  {
    var p := Scripts(version, stage, runAt);
    var ops1 := ops + [Enter(p)];
    var cs := StageCandidates(w.fs, w.waftDir, version, stage);
    ScriptsEffectUnfold(w, version, stage, runAt, m, ops);
    if cs.Some? {
      ScanOps(w, version, stage, runAt, SortByName(cs.value), m, ops1);
      ExtendEnters(ops, p, Scan(w, version, stage, runAt, SortByName(cs.value), m, ops1).ops);
    } else {
      assert ops1[..|ops1|] == ops1;
      ExtendEnters(ops, p, ops1);
    }
  }

  /** The scripts of a stage leave every flag alone and enter exactly their
      own phase. */
  lemma ScriptsEffectFrame(w: World, version: nat, stage: string, runAt: nat, m: ProgressMap, ops: seq<Action>)
    ensures var r := ScriptsEffect(w, version, stage, runAt, m, ops);
            && UpgradedSet(r.progress) == UpgradedSet(m) && EnterpriseSet(r.progress) == EnterpriseSet(m)
            && EntersOnly(ops, r.ops, Scripts(version, stage, runAt))
  {
    var ops1 := ops + [Enter(Scripts(version, stage, runAt))];
    var cs := StageCandidates(w.fs, w.waftDir, version, stage);
    if cs.Some? {
      ScanProgress(w, version, stage, runAt, SortByName(cs.value), m, ops1);
    }
    ScriptsEffectOps(w, version, stage, runAt, m, ops);
  }

  // ---------------------------------------------------------------------
  // `run_upgrade` and `run_enterprise_upgrade`

  /** `run_upgrade(version)`: the OpenUpgrade run (an initial one when the
      version is MIGRATION_START_VERSION), defusing, a backup unless
      backups are off, and then the upgrade flag. */
  function UpgradeEffect(w: World, envStart: Option<nat>, noBackups: bool, version: nat, m: ProgressMap, ops: seq<Action>): (r: Effect)
    ensures EntersOnly(ops, r.ops, Upgrade(version))
    ensures r.ok ==> r.progress == MarkUpgrade(m, version)
    ensures !r.ok ==> r.progress == m
  {
    var ops1 := ops + [Enter(Upgrade(version))];
    var ops2 := ops1 + [OdooUpgrade(version, BuildDir(w, version), envStart == Some(version))];
    var ops3 := ops2 + [DefuseDatabase];
    var ops4 := if noBackups then ops3 else ops3 + [BackupDatabase(version)];
    if w.fails(|ops1|) then Effect(m, ops2, false)
    else if w.fails(|ops2|) then Effect(m, ops3, false)
    else if !noBackups && w.fails(|ops3|) then Effect(m, ops4, false)
    else Effect(MarkUpgrade(m, version), ops4, true)
  }

  /** `run_enterprise_upgrade(version)`: preparing the database and log,
      the attempt loop, the enterprise flag, and moving the upgraded
      database in place (copied with a backup, renamed without). */
  function EnterpriseEffect(w: World, dontResume: bool, noBackups: bool, version: nat, m: ProgressMap, ops: seq<Action>): (r: Effect)
    ensures EntersOnly(ops, r.ops, EnterpriseUpgrade(version))
    ensures r.ok ==> r.progress == MarkEnterprise(m, version)
    ensures !r.ok ==> r.progress == m || r.progress == MarkEnterprise(m, version)
  {
    var ops1 := ops + [Enter(EnterpriseUpgrade(version))];
    var ops2 := ops1 + [PrepareEnterprise(version)];
    var run := Attempts(w.observe(|ops2|), dontResume);
    var ops3 := ops2 + [EnterpriseAttempts(version, run.0, run.1)];
    var ops4 := ops3 + [PlaceEnterpriseDatabase(version, !noBackups)];
    if w.fails(|ops1|) then Effect(m, ops2, false)
    else if !run.0.Done? then Effect(m, ops3, false)
    else if w.fails(|ops3|) then Effect(MarkEnterprise(m, version), ops4, false)
    else Effect(MarkEnterprise(m, version), ops4, true)
  }

  /** The enterprise flag is set only after the loop succeeded, that is
      after a process ended with a connectable database. */
  lemma EnterpriseFlagNeedsDone(w: World, dontResume: bool, noBackups: bool, version: nat, m: ProgressMap, ops: seq<Action>)
    requires version !in EnterpriseSet(m)
    requires version in EnterpriseSet(EnterpriseEffect(w, dontResume, noBackups, version, m, ops).progress)
    ensures var obs := w.observe(|ops| + 2);
            exists k, c, l :: 0 <= k < |obs| && obs[k] == NoLine(Exited(c, l, true)) && c != 1
  {
    var obs := w.observe(|ops| + 2);
    RunDoneWitness(obs, LoopState(0, InitialAnswer(dontResume), []), false);
  }
}
