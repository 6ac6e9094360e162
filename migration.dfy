/** One run of the migration script: the stage executor, the two kinds of
    upgrade, and `run_migration` itself.  Each is proved to leave exactly
    the progress, the actions and the outcome of running the plan's phases
    in order up to the first that raises, and so to enter exactly the
    phases the plan gives, or a prefix of them when an action raises. */
module Migration {
  import opened Wrappers
  import opened Versions
  import opened Progress
  import opened Directives
  import opened Hooks
  import opened Enterprise
  import opened Stage
  import opened MigrationPlan

  /** From phases `before`, the phases `after` go on with `plan` if the
      run succeeded, and with a prefix of it if it raised. */
  predicate Progressed(before: seq<Phase>, after: seq<Phase>, plan: seq<Phase>, ok: bool) {
    && |before| <= |after| && after[..|before|] == before
    && (ok ==> after[|before|..] == plan)
    && (!ok ==> IsPrefix(after[|before|..], plan))
  }

  lemma ProgressedNothing(p: seq<Phase>)
    ensures Progressed(p, p, [], true)
  {
  }

  lemma ProgressedOne(p: seq<Phase>, q: seq<Phase>, x: Phase, ok: bool)
    requires q == p + [x]
    ensures Progressed(p, q, [x], ok)
  {
    assert q[|p|..] == [x];
  }

  lemma ProgressedThen(p0: seq<Phase>, p1: seq<Phase>, p2: seq<Phase>, a: seq<Phase>, b: seq<Phase>, ok: bool)
    requires Progressed(p0, p1, a, true) && Progressed(p1, p2, b, ok)
    ensures Progressed(p0, p2, a + b, ok)
  {
    assert p1 == p0 + a by { assert p1 == p1[..|p0|] + p1[|p0|..]; }
    assert p2 == p1 + p2[|p1|..] by { assert p2 == p2[..|p1|] + p2[|p1|..]; }
    assert p2[..|p0|] == p0;
    assert p2[|p0|..] == a + p2[|p1|..];
    if !ok {
      var x := p2[|p1|..];
      assert (a + b)[..|a + x|] == a + b[..|x|];
    }
  }

  lemma ProgressedStop(p0: seq<Phase>, p1: seq<Phase>, a: seq<Phase>, b: seq<Phase>)
    requires Progressed(p0, p1, a, false)
    ensures Progressed(p0, p1, a + b, false)
  {
    var x := p1[|p0|..];
    assert (a + b)[..|x|] == a[..|x|];
  }

  lemma ProgressedAbort(p0: seq<Phase>, p1: seq<Phase>, done: seq<Phase>, full: seq<Phase>)
    requires Progressed(p0, p1, done, false) && IsPrefix(done, full)
    ensures Progressed(p0, p1, full, false)
  {
    var x := p1[|p0|..];
    assert full[..|x|] == full[..|done|][..|x|];
  }

  // ---------------------------------------------------------------------
  // What the phases do to the progress and the actions

  /** Entering phase `p`: `run_scripts`, `run_upgrade` or
      `run_enterprise_upgrade`. */
  function PhaseEffect(w: World, cfg: Config, p: Phase, m: ProgressMap, ops: seq<Action>): Effect {
    match p
    case Scripts(version, stage, runAt) => ScriptsEffect(w, version, stage, runAt, m, ops)
    case Upgrade(version) => UpgradeEffect(w, cfg.envStart, cfg.noBackups, version, m, ops)
    case EnterpriseUpgrade(version) => EnterpriseEffect(w, cfg.dontResume, cfg.noBackups, version, m, ops)
  }

  /** Entering the phases `ps` in order; the first one that raises ends the
      run, since nothing in `run_migration` catches. */
  function PhasesEffect(w: World, cfg: Config, ps: seq<Phase>, m: ProgressMap, ops: seq<Action>): Effect
    decreases |ps|
  {
    if ps == [] then Effect(m, ops, true)
    else
      var e := PhaseEffect(w, cfg, ps[0], m, ops);
      if !e.ok then e else PhasesEffect(w, cfg, ps[1..], e.progress, e.ops)
  }

  /** Running `a + b` is running `a`, then `b` from where `a` left off
      unless `a` raised. */
  lemma {:induction false} PhasesEffectThen(w: World, cfg: Config, a: seq<Phase>, b: seq<Phase>, m: ProgressMap, ops: seq<Action>)
    ensures var e := PhasesEffect(w, cfg, a, m, ops);
            PhasesEffect(w, cfg, a + b, m, ops) == if e.ok then PhasesEffect(w, cfg, b, e.progress, e.ops) else e
    decreases |a|
  {
    if a == [] {
      assert a + b == b;
    } else {
      assert (a + b)[0] == a[0] && (a + b)[1..] == a[1..] + b;
      var e := PhaseEffect(w, cfg, a[0], m, ops);
      if e.ok {
        PhasesEffectThen(w, cfg, a[1..], b, e.progress, e.ops);
      }
    }
  }

  /** The version phase `p` flags as upgraded, if it is an OpenUpgrade run. */
  function UpgradeOf(p: Phase): set<nat> {
    if p.Upgrade? then {p.version} else {}
  }

  /** The version phase `p` flags as enterprise-upgraded, if it is one. */
  function EnterpriseOf(p: Phase): set<nat> {
    if p.EnterpriseUpgrade? then {p.version} else {}
  }

  /** The versions the OpenUpgrade phases of `ps` upgrade. */
  function UpgradesIn(ps: seq<Phase>): set<nat>
    decreases |ps|
  {
    if ps == [] then {} else UpgradeOf(ps[0]) + UpgradesIn(ps[1..])
  }

  /** The versions the enterprise phases of `ps` upgrade. */
  function EnterpriseIn(ps: seq<Phase>): set<nat>
    decreases |ps|
  {
    if ps == [] then {} else EnterpriseOf(ps[0]) + EnterpriseIn(ps[1..])
  }

  lemma {:induction false} FlagsAppend(a: seq<Phase>, b: seq<Phase>)
    ensures UpgradesIn(a + b) == UpgradesIn(a) + UpgradesIn(b)
    ensures EnterpriseIn(a + b) == EnterpriseIn(a) + EnterpriseIn(b)
    decreases |a|
  {
    if a == [] {
      assert a + b == b;
    } else {
      assert (a + b)[0] == a[0] && (a + b)[1..] == a[1..] + b;
      FlagsAppend(a[1..], b);
    }
  }

  lemma FlagsOne(p: Phase)
    ensures UpgradesIn([p]) == UpgradeOf(p) && EnterpriseIn([p]) == EnterpriseOf(p)
  {
    assert [p][1..] == [];
  }

  lemma FlagsPair(p: Phase, q: Phase)
    ensures UpgradesIn([p, q]) == UpgradeOf(p) + UpgradeOf(q)
    ensures EnterpriseIn([p, q]) == EnterpriseOf(p) + EnterpriseOf(q)
  {
    assert [p, q] == [p] + [q];
    FlagsAppend([p], [q]);
    FlagsOne(p);
    FlagsOne(q);
  }

  lemma FlagsTriple(p: Phase, q: Phase, r: Phase)
    ensures UpgradesIn([p, q, r]) == UpgradeOf(p) + UpgradeOf(q) + UpgradeOf(r)
    ensures EnterpriseIn([p, q, r]) == EnterpriseOf(p) + EnterpriseOf(q) + EnterpriseOf(r)
  {
    assert [p, q, r] == [p, q] + [r];
    FlagsAppend([p, q], [r]);
    FlagsPair(p, q);
    FlagsOne(r);
  }

  /** The enterprise part of a loop pass flags `v` as enterprise-upgraded
      when it runs the enterprise upgrade, and nothing else. */
  lemma EnterprisePhasesFlags(cfg: Config, v: nat, last: nat, entDone: bool, ouDone: bool)
    ensures UpgradesIn(EnterprisePhases(cfg, v, last, entDone, ouDone)) == {}
    ensures EnterpriseIn(EnterprisePhases(cfg, v, last, entDone, ouDone)) == if cfg.enterprise && !entDone && v > cfg.minTarget then {v} else {}
  {
    var a := if cfg.enterprise && !entDone && v > cfg.minTarget then [Scripts(v, "enterprise/pre-upgrade", last), EnterpriseUpgrade(v)] else [];
    var b := if cfg.enterprise && !ouDone then [Scripts(v, "enterprise/post-upgrade", v)] else [];
    FlagsAppend(a, b);
    FlagsPair(Scripts(v, "enterprise/pre-upgrade", last), EnterpriseUpgrade(v));
    FlagsOne(Scripts(v, "enterprise/post-upgrade", v));
  }

  /** The first part of a loop pass flags as the enterprise part does. */
  lemma LeadPhasesFlags(cfg: Config, v: nat, last: nat, entDone: bool, ouDone: bool)
    ensures UpgradesIn(LeadPhases(cfg, v, last, entDone, ouDone)) == {}
    ensures EnterpriseIn(LeadPhases(cfg, v, last, entDone, ouDone)) == if cfg.enterprise && !entDone && v > cfg.minTarget then {v} else {}
  {
    var a := if (!cfg.openUpgradeDisabled && !ouDone) || !entDone then [Scripts(v, "pre-upgrade", last)] else [];
    FlagsAppend(a, EnterprisePhases(cfg, v, last, entDone, ouDone));
    FlagsOne(Scripts(v, "pre-upgrade", last));
    EnterprisePhasesFlags(cfg, v, last, entDone, ouDone);
  }

  /** The rest of a loop pass flags `v` as upgraded when it runs OpenUpgrade. */
  lemma TailPhasesFlags(cfg: Config, v: nat, ouDone: bool)
    ensures UpgradesIn(TailPhases(cfg, v, ouDone)) == if !cfg.openUpgradeDisabled && !ouDone then {v} else {}
    ensures EnterpriseIn(TailPhases(cfg, v, ouDone)) == {}
  {
    var a := if !cfg.openUpgradeDisabled && !ouDone then [Scripts(v, "pre-openupgrade", v), Upgrade(v)] else [];
    FlagsAppend(a, [Scripts(v, "post-upgrade", v)]);
    FlagsPair(Scripts(v, "pre-openupgrade", v), Upgrade(v));
    FlagsOne(Scripts(v, "post-upgrade", v));
  }

  lemma PostMigrationFlags(cfg: Config, db: nat)
    ensures UpgradesIn(PostMigration(cfg, db)) == {} && EnterpriseIn(PostMigration(cfg, db)) == {}
  {
    var a := if cfg.enterprise then [Scripts(db, "enterprise/post-migration", db)] else [];
    FlagsAppend(a, [Scripts(db, "post-migration", db)]);
    FlagsOne(Scripts(db, "enterprise/post-migration", db));
    FlagsOne(Scripts(db, "post-migration", db));
  }

  lemma JumpEnterFlags(cfg: Config, entDone: bool)
    ensures UpgradesIn(JumpEnter(cfg, entDone)) == {}
    ensures EnterpriseIn(JumpEnter(cfg, entDone)) == if !entDone then {cfg.minTarget} else {}
  {
    FlagsPair(Scripts(cfg.minTarget, "enterprise/pre-jump", cfg.start), EnterpriseUpgrade(cfg.minTarget));
  }

  lemma JumpAfterFlags(cfg: Config, ouDone: bool)
    ensures UpgradesIn(JumpAfter(cfg, ouDone)) == {} && EnterpriseIn(JumpAfter(cfg, ouDone)) == {}
  {
    var t := cfg.minTarget;
    FlagsTriple(Scripts(t, "enterprise/post-jump", t), Scripts(t, "enterprise/post-upgrade", t), Scripts(t, "post-upgrade", t));
  }

  lemma CatchUpFlags(cfg: Config)
    ensures UpgradesIn(CatchUp(cfg)) == {} && EnterpriseIn(CatchUp(cfg)) == {}
  {
    var t := cfg.minTarget;
    var a := if WillJump(cfg) then [Scripts(t, "enterprise/post-jump", t)] else [];
    FlagsAppend(a, [Scripts(t, "enterprise/post-upgrade", t), Scripts(t, "post-upgrade", t)]);
    FlagsOne(Scripts(t, "enterprise/post-jump", t));
    FlagsPair(Scripts(t, "enterprise/post-upgrade", t), Scripts(t, "post-upgrade", t));
  }

  /** The opening flags the start version as upgraded when it runs the
      initial upgrade. */
  lemma OpeningFlags(cfg: Config, up: set<nat>, ent: set<nat>, pv: nat)
    ensures UpgradesIn(Opening(cfg, up, ent, pv)) == if InitialUpgrade(cfg, up, ent, pv) then {cfg.start} else {}
    ensures EnterpriseIn(Opening(cfg, up, ent, pv)) == {}
  {
    var s := cfg.start;
    var a := if s !in up then [Scripts(s, "pre-migration", s)] else [];
    var b := if cfg.enterprise && s !in ent then [Scripts(s, "enterprise/pre-migration", s)] else [];
    var c := if InitialUpgrade(cfg, up, ent, pv) then [Upgrade(s)] else [];
    FlagsAppend(a, b);
    FlagsAppend(a + b, c);
    FlagsOne(Scripts(s, "pre-migration", s));
    FlagsOne(Scripts(s, "enterprise/pre-migration", s));
    FlagsOne(Upgrade(s));
    assert UpgradesIn([]) == {} && EnterpriseIn([]) == {};
    if !FromStart(cfg, up, ent, pv) {
      assert Opening(cfg, up, ent, pv) == [];
    } else {
      assert Opening(cfg, up, ent, pv) == a + b + c;
    }
  }

  /** One step of the run of `ps`, at phase `i`. */
  lemma PhasesStep(w: World, cfg: Config, ps: seq<Phase>, i: nat, m: ProgressMap, ops: seq<Action>)
    requires i < |ps|
    ensures var e := PhaseEffect(w, cfg, ps[i], m, ops);
            PhasesEffect(w, cfg, ps[i..], m, ops) == if e.ok then PhasesEffect(w, cfg, ps[i + 1..], e.progress, e.ops) else e
    ensures UpgradesIn(ps[..i + 1]) == UpgradesIn(ps[..i]) + UpgradeOf(ps[i])
    ensures EnterpriseIn(ps[..i + 1]) == EnterpriseIn(ps[..i]) + EnterpriseOf(ps[i])
  {
    assert ps[i..][0] == ps[i] && ps[i..][1..] == ps[i + 1..];
    assert ps[..i + 1] == ps[..i] + [ps[i]];
    FlagsAppend(ps[..i], [ps[i]]);
    FlagsOne(ps[i]);
  }

  /** Each phase enters itself and nothing else. */
  lemma PhaseEffectEnters(w: World, cfg: Config, p: Phase, m: ProgressMap, ops: seq<Action>)
    ensures Phases(PhaseEffect(w, cfg, p, m, ops).ops) == Phases(ops) + [p]
  {
    match p
    case Scripts(version, stage, runAt) =>
      ScriptsEffectFrame(w, version, stage, runAt, m, ops);
      EntersOnlyPhases(ops, ScriptsEffect(w, version, stage, runAt, m, ops).ops, p);
    case Upgrade(version) =>
      EntersOnlyPhases(ops, UpgradeEffect(w, cfg.envStart, cfg.noBackups, version, m, ops).ops, p);
    case EnterpriseUpgrade(version) =>
      EntersOnlyPhases(ops, EnterpriseEffect(w, cfg.dontResume, cfg.noBackups, version, m, ops).ops, p);
  }

  /** The run of `ps` enters the phases `ps` when it succeeds and a prefix
      of them when it raises. */
  lemma {:induction false} PhasesEffectProgressed(w: World, cfg: Config, ps: seq<Phase>, m: ProgressMap, ops: seq<Action>)
    ensures var e := PhasesEffect(w, cfg, ps, m, ops);
            Progressed(Phases(ops), Phases(e.ops), ps, e.ok)
    decreases |ps|
  {
    if ps == [] {
      ProgressedNothing(Phases(ops));
    } else {
      var e := PhaseEffect(w, cfg, ps[0], m, ops);
      PhaseEffectEnters(w, cfg, ps[0], m, ops);
      assert ps == [ps[0]] + ps[1..];
      if !e.ok {
        ProgressedOne(Phases(ops), Phases(e.ops), ps[0], false);
        ProgressedStop(Phases(ops), Phases(e.ops), [ps[0]], ps[1..]);
      } else {
        ProgressedOne(Phases(ops), Phases(e.ops), ps[0], true);
        PhasesEffectProgressed(w, cfg, ps[1..], e.progress, e.ops);
        var r := PhasesEffect(w, cfg, ps[1..], e.progress, e.ops);
        ProgressedThen(Phases(ops), Phases(e.ops), Phases(r.ops), [ps[0]], ps[1..], r.ok);
      }
    }
  }

  /** Phase `k` of `ps` raises after the phases before it returned. */
  predicate RaisesAt(w: World, cfg: Config, ps: seq<Phase>, m: ProgressMap, ops: seq<Action>, k: nat)
    requires k < |ps|
  {
    var e := PhasesEffect(w, cfg, ps[..k], m, ops);
    e.ok && !PhaseEffect(w, cfg, ps[k], e.progress, e.ops).ok
  }

  lemma RaisesAtShift(w: World, cfg: Config, ps: seq<Phase>, m: ProgressMap, ops: seq<Action>, k: nat)
    requires k + 1 < |ps|
    requires PhaseEffect(w, cfg, ps[0], m, ops).ok
    ensures var e := PhaseEffect(w, cfg, ps[0], m, ops);
            RaisesAt(w, cfg, ps, m, ops, k + 1) <==> RaisesAt(w, cfg, ps[1..], e.progress, e.ops, k)
  {
    var e := PhaseEffect(w, cfg, ps[0], m, ops);
    assert ps[..k + 1][0] == ps[0] && ps[..k + 1][1..] == ps[1..][..k];
    assert PhasesEffect(w, cfg, ps[..k + 1], m, ops) == PhasesEffect(w, cfg, ps[1..][..k], e.progress, e.ops);
    assert ps[k + 1] == ps[1..][k];
  }

  /** A run raises exactly when some phase raises after every phase before
      it returned. */
  lemma {:induction false} PhasesEffectFails(w: World, cfg: Config, ps: seq<Phase>, m: ProgressMap, ops: seq<Action>)
    ensures !PhasesEffect(w, cfg, ps, m, ops).ok <==> exists k: nat :: k < |ps| && RaisesAt(w, cfg, ps, m, ops, k)
    decreases |ps|
  {
    if ps != [] {
      var e := PhaseEffect(w, cfg, ps[0], m, ops);
      assert ps[..0] == [];
      if !e.ok {
        assert RaisesAt(w, cfg, ps, m, ops, 0);
      } else {
        assert !RaisesAt(w, cfg, ps, m, ops, 0);
        PhasesEffectFails(w, cfg, ps[1..], e.progress, e.ops);
        if !PhasesEffect(w, cfg, ps, m, ops).ok {
          var k: nat :| k < |ps[1..]| && RaisesAt(w, cfg, ps[1..], e.progress, e.ops, k);
          RaisesAtShift(w, cfg, ps, m, ops, k);
        }
        if k: nat :| k < |ps| && RaisesAt(w, cfg, ps, m, ops, k) {
          RaisesAtShift(w, cfg, ps, m, ops, k - 1);
        }
      }
    }
  }

  /** The setup of `run_migration`: loading the enterprise script, the
      record of the start version, backing up the mail servers and
      defusing the database. */
  function SetupEffect(w: World, cfg: Config, m: ProgressMap, ops: seq<Action>): Effect {
    var ops1 := if cfg.enterprise then ops + [LoadEnterpriseScript] else ops;
    var m1 := InitVersion(m, cfg.start);
    if cfg.enterprise && w.fails(|ops|) then Effect(m, ops1, false)
    else if w.fails(|ops1|) then Effect(m1, ops1 + [BackupMailServers], false)
    else Effect(m1, ops1 + [BackupMailServers, DefuseDatabase], !w.fails(|ops1| + 1))
  }

  /** Everything before the loop: the setup, then the phases of the
      prelude for the database version `pv` found in the progress. */
  function PreludeEffect(w: World, cfg: Config, pv: nat, m: ProgressMap, ops: seq<Action>): Effect {
    var s := SetupEffect(w, cfg, m, ops);
    if !s.ok then s
    else PhasesEffect(w, cfg, Prelude(cfg, UpgradedSet(m), EnterpriseSet(m), pv).0, s.progress, s.ops)
  }

  /** One pass of the loop over the build versions: nothing for a skipped
      version, otherwise the record of `v` and the phases of the pass. */
  function VersionEffect(w: World, cfg: Config, st: PlanState, v: nat, m: ProgressMap, ops: seq<Action>): Effect {
    if Skipped(cfg, st, v) then Effect(m, ops, true)
    else PhasesEffect(w, cfg, VersionStep(cfg, st, v).0, InitVersion(m, v), ops)
  }

  /** The loop over the versions `vs`, from database version `db` after
      version `last`; the flags are read from the progress. */
  function LoopEffect(w: World, cfg: Config, db: nat, last: nat, vs: seq<nat>, m: ProgressMap, ops: seq<Action>): Effect
    decreases |vs|
  {
    if vs == [] then Effect(m, ops, true)
    else
      var st := PlanState(db, last, UpgradedSet(m), EnterpriseSet(m));
      var e := VersionEffect(w, cfg, st, vs[0], m, ops);
      if !e.ok then e else LoopEffect(w, cfg, VersionStep(cfg, st, vs[0]).1.db, vs[0], vs[1..], e.progress, e.ops)
  }

  /** The whole of `run_migration`. */
  function MigrationEffect(w: World, cfg: Config, pv: nat, m: ProgressMap, ops: seq<Action>): Effect {
    var up := UpgradedSet(m);
    var ent := EnterpriseSet(m);
    var p := PreludeEffect(w, cfg, pv, m, ops);
    var l := LoopEffect(w, cfg, Prelude(cfg, up, ent, pv).1.db, cfg.start, AvailableBuildVersions(cfg.start, cfg.final), p.progress, p.ops);
    if !p.ok then p
    else if !l.ok then l
    else PhasesEffect(w, cfg, PostMigration(cfg, FinalState(cfg, up, ent, pv).db), l.progress, l.ops)
  }

  class Session {
    const w: World
    const cfg: Config
    const store: ProgressStore
    /** `db_version`: the version the database is believed to be at. */
    var db: nat
    /** The actions taken so far. */
    var ops: seq<Action>

    constructor(w: World, cfg: Config, store: ProgressStore)
      requires w.odooVersion == cfg.final
      ensures this.w == w && this.cfg == cfg && this.store == store
      ensures db == cfg.start && ops == []
    {
      this.w := w;
      this.cfg := cfg;
      this.store := store;
      db := cfg.start;
      ops := [];
    }

    /** Takes an external action, which raises as the oracle says. */
    method Act(a: Action) returns (ok: bool)
      modifies this
      ensures ops == old(ops) + [a] && ok == !w.fails(|old(ops)|)
      ensures !a.Enter? ==> Phases(ops) == Phases(old(ops))
      ensures db == old(db)
    {
      ok := !w.fails(|ops|);
      PhasesAppend(ops, [a]);
      ops := ops + [a];
    }

    /** `run_scripts(version, stage, runAt)`. */
    method RunScripts(version: nat, stage: string, runAt: nat) returns (ok: bool)
      modifies this, store
      ensures var e := ScriptsEffect(w, version, stage, runAt, old(store.records), old(ops));
              store.records == e.progress && ops == e.ops && ok == e.ok
      ensures Phases(ops) == Phases(old(ops)) + [Scripts(version, stage, runAt)]
      ensures UpgradedSet(store.records) == UpgradedSet(old(store.records))
      ensures EnterpriseSet(store.records) == EnterpriseSet(old(store.records))
      ensures db == old(db)
    {
      ScriptsEffectFrame(w, version, stage, runAt, store.records, ops);
      EntersOnlyPhases(ops, ScriptsEffect(w, version, stage, runAt, store.records, ops).ops, Scripts(version, stage, runAt));
      ops := ops + [Enter(Scripts(version, stage, runAt))];
      var found := StageCandidates(w.fs, w.waftDir, version, stage);
      if found.None? {
        return false;
      }
      ok := RunCandidates(version, stage, runAt, SortByName(found.value));
    }

    /** The loop of `run_scripts` over the sorted candidates. */
    method RunCandidates(version: nat, stage: string, runAt: nat, sorted: seq<Candidate>) returns (ok: bool)
      modifies this, store
      ensures var e := Scan(w, version, stage, runAt, sorted, old(store.records), old(ops));
              store.records == e.progress && ops == e.ops && ok == e.ok
      ensures db == old(db)
    {
      ghost var target := Scan(w, version, stage, runAt, sorted, store.records, ops);
      var i := 0;
      while i < |sorted|
        invariant 0 <= i <= |sorted|
        invariant Scan(w, version, stage, runAt, sorted[i..], store.records, ops) == target
        invariant db == old(db)
      {
        assert sorted[i..][0] == sorted[i] && sorted[i..][1..] == sorted[i + 1..];
        ok := VisitCandidate(version, stage, runAt, sorted[i]);
        if !ok {
          return;
        }
        i := i + 1;
      }
      ok := true;
    }

    /** One pass of the loop of `run_scripts`. */
    method VisitCandidate(version: nat, stage: string, runAt: nat, c: Candidate) returns (ok: bool)
      modifies this, store
      ensures var e := Visit(w, version, stage, runAt, c, old(store.records), old(ops));
              store.records == e.progress && ops == e.ops && ok == e.ok
      ensures db == old(db)
    {
      if Recorded(store.records, version, stage, c.path) {
        return true;
      }
      if c.path !in w.fs.files {
        return false;
      }
      if !CheckScriptSupport(c.path, w.fs.files[c.path], VersionName(runAt), w.installed(|ops|)) {
        return true;
      }
      var res := Resolve(w.fs, w.waftDir, c.path, LinkBound);
      if res.Runs? {
        ok := Act(Exec(res.kind, res.script, BuildDir(w, runAt)));
        if ok {
          var _ := store.MarkScriptExecuted(version, stage, c.path);
        }
      } else {
        ok := res.UnknownExtension?;
      }
    }

    /** `run_upgrade(version)`. */
    method RunUpgrade(version: nat) returns (ok: bool)
      modifies this, store
      ensures var e := UpgradeEffect(w, cfg.envStart, cfg.noBackups, version, old(store.records), old(ops));
              store.records == e.progress && ops == e.ops && ok == e.ok
      ensures Phases(ops) == Phases(old(ops)) + [Upgrade(version)]
      ensures db == old(db)
    {
      EntersOnlyPhases(ops, UpgradeEffect(w, cfg.envStart, cfg.noBackups, version, store.records, ops).ops, Upgrade(version));
      ops := ops + [Enter(Upgrade(version))];
      ok := Act(OdooUpgrade(version, BuildDir(w, version), cfg.envStart == Some(version)));
      if !ok {
        return;
      }
      ok := Act(DefuseDatabase);
      if !ok {
        return;
      }
      if !cfg.noBackups {
        ok := Act(BackupDatabase(version));
        if !ok {
          return;
        }
      }
      store.MarkUpgradeDone(version);
    }

    /** `run_enterprise_upgrade(version)`. */
    method RunEnterpriseUpgrade(version: nat) returns (ok: bool)
      modifies this, store
      ensures var e := EnterpriseEffect(w, cfg.dontResume, cfg.noBackups, version, old(store.records), old(ops));
              store.records == e.progress && ops == e.ops && ok == e.ok
      ensures Phases(ops) == Phases(old(ops)) + [EnterpriseUpgrade(version)]
      ensures db == old(db)
    {
      EntersOnlyPhases(ops, EnterpriseEffect(w, cfg.dontResume, cfg.noBackups, version, store.records, ops).ops, EnterpriseUpgrade(version));
      ops := ops + [Enter(EnterpriseUpgrade(version))];
      ok := Act(PrepareEnterprise(version));
      if !ok {
        return;
      }
      var outcome, answers := RunAttempts(w.observe(|ops|), cfg.dontResume);
      ops := ops + [EnterpriseAttempts(version, outcome, answers)];
      if !outcome.Done? {
        return false;
      }
      store.MarkEnterpriseDone(version);
      ok := Act(PlaceEnterpriseDatabase(version, !cfg.noBackups));
    }

    /** Enters phase `p`. */
    method RunPhase(p: Phase) returns (ok: bool)
      modifies this, store
      ensures var e := PhaseEffect(w, cfg, p, old(store.records), old(ops));
              store.records == e.progress && ops == e.ops && ok == e.ok
      ensures Phases(ops) == Phases(old(ops)) + [p]
      ensures ok ==> UpgradedSet(store.records) == UpgradedSet(old(store.records)) + UpgradeOf(p)
      ensures ok ==> EnterpriseSet(store.records) == EnterpriseSet(old(store.records)) + EnterpriseOf(p)
      ensures db == old(db)
    {
      match p {
        case Scripts(version, stage, runAt) =>
          ok := RunScripts(version, stage, runAt);
        case Upgrade(version) =>
          ok := RunUpgrade(version);
        case EnterpriseUpgrade(version) =>
          ok := RunEnterpriseUpgrade(version);
      }
    }

    /** Enters the phases `ps` in order, up to the first that raises. */
    method RunPhases(ps: seq<Phase>) returns (ok: bool)
      modifies this, store
      ensures var e := PhasesEffect(w, cfg, ps, old(store.records), old(ops));
              store.records == e.progress && ops == e.ops && ok == e.ok
      ensures Progressed(Phases(old(ops)), Phases(ops), ps, ok)
      ensures ok ==> UpgradedSet(store.records) == UpgradedSet(old(store.records)) + UpgradesIn(ps)
      ensures ok ==> EnterpriseSet(store.records) == EnterpriseSet(old(store.records)) + EnterpriseIn(ps)
      ensures db == old(db)
    {
      ghost var m0, ops0 := store.records, ops;
      ghost var target := PhasesEffect(w, cfg, ps, m0, ops0);
      ghost var up0, ent0 := UpgradedSet(m0), EnterpriseSet(m0);
      var i := 0;
      while i < |ps|
        invariant 0 <= i <= |ps|
        invariant PhasesEffect(w, cfg, ps[i..], store.records, ops) == target
        invariant UpgradedSet(store.records) == up0 + UpgradesIn(ps[..i])
        invariant EnterpriseSet(store.records) == ent0 + EnterpriseIn(ps[..i])
        invariant db == old(db)
      {
        ok := RunNext(ps, i, target, up0, ent0);
        if !ok {
          PhasesEffectProgressed(w, cfg, ps, m0, ops0);
          return;
        }
        i := i + 1;
      }
      assert ps[..i] == ps;
      PhasesEffectProgressed(w, cfg, ps, m0, ops0);
      ok := true;
    }

    /** Phase `i` of the run of `ps` whose effect is `target`. */
    method RunNext(ps: seq<Phase>, i: nat, ghost target: Effect, ghost up0: set<nat>, ghost ent0: set<nat>) returns (ok: bool)
      requires i < |ps|
      requires PhasesEffect(w, cfg, ps[i..], store.records, ops) == target
      requires UpgradedSet(store.records) == up0 + UpgradesIn(ps[..i])
      requires EnterpriseSet(store.records) == ent0 + EnterpriseIn(ps[..i])
      modifies this, store
      ensures ok ==> PhasesEffect(w, cfg, ps[i + 1..], store.records, ops) == target
      ensures !ok ==> target == Effect(store.records, ops, false)
      ensures ok ==> UpgradedSet(store.records) == up0 + UpgradesIn(ps[..i + 1])
      ensures ok ==> EnterpriseSet(store.records) == ent0 + EnterpriseIn(ps[..i + 1])
      ensures db == old(db)
    {
      PhasesStep(w, cfg, ps, i, store.records, ops);
      ok := RunPhase(ps[i]);
    }

    /** One pass of the loop over the build versions, for version `v` after
        version `last`. */
    method RunVersion(v: nat, last: nat) returns (ok: bool)
      modifies this, store
      ensures var st := PlanState(old(db), last, UpgradedSet(old(store.records)), EnterpriseSet(old(store.records)));
              var e := VersionEffect(w, cfg, st, v, old(store.records), old(ops));
              store.records == e.progress && ops == e.ops && ok == e.ok
      ensures var r := VersionStep(cfg, PlanState(old(db), last, UpgradedSet(old(store.records)), EnterpriseSet(old(store.records))), v);
              && Progressed(Phases(old(ops)), Phases(ops), r.0, ok)
              && (ok ==> db == r.1.db && UpgradedSet(store.records) == r.1.up && EnterpriseSet(store.records) == r.1.ent)
    {
      ghost var st := PlanState(db, last, UpgradedSet(store.records), EnterpriseSet(store.records));
      ghost var full := VersionStep(cfg, st, v).0;
      ghost var p0 := Phases(ops);
      ProgressedNothing(p0);
      if v == cfg.start || db > v || (cfg.enterprise && v !in AvailableEnterpriseBuildVersions(cfg.start, cfg.minTarget, cfg.final)) {
        return true;
      }
      var entDone := EnterpriseDone(store.records, v);
      var ouDone := Upgraded(store.records, v);
      assert entDone == (v in st.ent) && ouDone == (v in st.up);
      if entDone || ouDone {
        db := v;
      }
      store.InitProgress(v);
      ok := RunPass(v, last, entDone, ouDone);
    }

    /** A loop pass over `v` that is not skipped, once the record of `v`
        exists: the lead, then the database is at `v` after an enterprise
        upgrade, then the tail. */
    method RunPass(v: nat, last: nat, entDone: bool, ouDone: bool) returns (ok: bool)
      modifies this, store
      ensures var e := PhasesEffect(w, cfg, LeadPhases(cfg, v, last, entDone, ouDone) + TailPhases(cfg, v, ouDone), old(store.records), old(ops));
              store.records == e.progress && ops == e.ops && ok == e.ok
      ensures Progressed(Phases(old(ops)), Phases(ops), LeadPhases(cfg, v, last, entDone, ouDone) + TailPhases(cfg, v, ouDone), ok)
      ensures ok ==> db == v
      ensures ok ==> UpgradedSet(store.records) == if !cfg.openUpgradeDisabled && !ouDone then UpgradedSet(old(store.records)) + {v} else UpgradedSet(old(store.records))
      ensures ok ==> EnterpriseSet(store.records) == if cfg.enterprise && !entDone && v > cfg.minTarget then EnterpriseSet(old(store.records)) + {v} else EnterpriseSet(old(store.records))
    {
      ghost var m0, ops0, p0 := store.records, ops, Phases(ops);
      ghost var lead, tail := LeadPhases(cfg, v, last, entDone, ouDone), TailPhases(cfg, v, ouDone);
      ok := RunLead(v, last, entDone, ouDone);
      PhasesEffectThen(w, cfg, lead, tail, m0, ops0);
      if !ok {
        ProgressedStop(p0, Phases(ops), lead, tail);
        return;
      }
      if cfg.enterprise && !entDone && v > cfg.minTarget {
        db := v;
      }
      ghost var p1 := Phases(ops);
      ok := RunTail(v, ouDone);
      ProgressedThen(p0, p1, Phases(ops), lead, tail, ok);
      db := v;
    }

    /** Pre-upgrade and the enterprise part of a loop pass. */
    method RunLead(v: nat, last: nat, entDone: bool, ouDone: bool) returns (ok: bool)
      modifies this, store
      ensures var e := PhasesEffect(w, cfg, LeadPhases(cfg, v, last, entDone, ouDone), old(store.records), old(ops));
              store.records == e.progress && ops == e.ops && ok == e.ok
      ensures Progressed(Phases(old(ops)), Phases(ops), LeadPhases(cfg, v, last, entDone, ouDone), ok)
      ensures ok ==> UpgradedSet(store.records) == UpgradedSet(old(store.records))
      ensures ok ==> EnterpriseSet(store.records) == if cfg.enterprise && !entDone && v > cfg.minTarget then EnterpriseSet(old(store.records)) + {v} else EnterpriseSet(old(store.records))
      ensures db == old(db)
    {
      LeadPhasesFlags(cfg, v, last, entDone, ouDone);
      ok := RunPhases(LeadPhases(cfg, v, last, entDone, ouDone));
    }

    /** OpenUpgrade and the post-upgrade scripts of a loop pass. */
    method RunTail(v: nat, ouDone: bool) returns (ok: bool)
      modifies this, store
      ensures var e := PhasesEffect(w, cfg, TailPhases(cfg, v, ouDone), old(store.records), old(ops));
              store.records == e.progress && ops == e.ops && ok == e.ok
      ensures Progressed(Phases(old(ops)), Phases(ops), TailPhases(cfg, v, ouDone), ok)
      ensures ok ==> UpgradedSet(store.records) == if !cfg.openUpgradeDisabled && !ouDone then UpgradedSet(old(store.records)) + {v} else UpgradedSet(old(store.records))
      ensures ok ==> EnterpriseSet(store.records) == EnterpriseSet(old(store.records))
      ensures db == old(db)
    {
      TailPhasesFlags(cfg, v, ouDone);
      ok := RunPhases(TailPhases(cfg, v, ouDone));
    }

    /** `run_migration`: the whole migration, from the start version given
        as a parameter to ODOO_VERSION.  `pv` is the database version found
        in the progress; it is that version as soon as a phase is entered. */
    method RunMigration() returns (ok: bool, ghost pv: nat)
      modifies this, store
      ensures var e := MigrationEffect(w, cfg, pv, old(store.records), old(ops));
              store.records == e.progress && ops == e.ops && ok == e.ok
      ensures ok || |Phases(ops)| > |Phases(old(ops))| ==> IsDbVersion(old(store.records), cfg.start, pv)
      ensures Progressed(Phases(old(ops)), Phases(ops), Plan(cfg, UpgradedSet(old(store.records)), EnterpriseSet(old(store.records)), pv), ok)
      ensures ok ==> var f := FinalState(cfg, UpgradedSet(old(store.records)), EnterpriseSet(old(store.records)), pv);
                     db == f.db && UpgradedSet(store.records) == f.up && EnterpriseSet(store.records) == f.ent
    {
      ghost var up0 := UpgradedSet(store.records);
      ghost var ent0 := EnterpriseSet(store.records);
      ghost var p0 := Phases(ops);
      ok, pv := RunPrelude();
      ghost var pre := Prelude(cfg, up0, ent0, pv);
      var versions := AvailableBuildVersions(cfg.start, cfg.final);
      ghost var loop := Loop(cfg, pre.1, versions);
      ghost var post := PostMigration(cfg, loop.1.db);
      if !ok {
        ProgressedStop(p0, Phases(ops), pre.0, loop.0);
        ProgressedStop(p0, Phases(ops), pre.0 + loop.0, post);
        return;
      }
      ghost var p1 := Phases(ops);
      ok := RunLoop(versions);
      ProgressedThen(p0, p1, Phases(ops), pre.0, loop.0, ok);
      if !ok {
        ProgressedStop(p0, Phases(ops), pre.0 + loop.0, post);
        return;
      }
      ghost var p2 := Phases(ops);
      ok := RunPostMigration();
      ProgressedThen(p0, p2, Phases(ops), pre.0 + loop.0, post, ok);
    }

    /** The loop over the build versions after the start version. */
    method RunLoop(versions: seq<nat>) returns (ok: bool)
      modifies this, store
      ensures var e := LoopEffect(w, cfg, old(db), cfg.start, versions, old(store.records), old(ops));
              store.records == e.progress && ops == e.ops && ok == e.ok
      ensures var l := Loop(cfg, PlanState(old(db), cfg.start, UpgradedSet(old(store.records)), EnterpriseSet(old(store.records))), versions);
              && Progressed(Phases(old(ops)), Phases(ops), l.0, ok)
              && (ok ==> db == l.1.db && UpgradedSet(store.records) == l.1.up && EnterpriseSet(store.records) == l.1.ent)
    {
      ghost var st := PlanState(db, cfg.start, UpgradedSet(store.records), EnterpriseSet(store.records));
      ghost var target := LoopEffect(w, cfg, db, cfg.start, versions, store.records, ops);
      ghost var p0 := Phases(ops);
      ghost var done: seq<Phase> := [];
      ghost var now := st;
      ProgressedNothing(p0);
      var last := cfg.start;
      var i := 0;
      while i < |versions|
        invariant 0 <= i <= |versions|
        invariant LoopEffect(w, cfg, db, last, versions[i..], store.records, ops) == target
        invariant Loop(cfg, st, versions[..i]) == (done, now)
        invariant Progressed(p0, Phases(ops), done, true)
        invariant db == now.db && last == now.last && UpgradedSet(store.records) == now.up && EnterpriseSet(store.records) == now.ent
      {
        ghost var before := Phases(ops);
        ghost var step := VersionStep(cfg, now, versions[i]);
        LoopSnoc(cfg, st, versions, i);
        assert versions[i..][0] == versions[i] && versions[i..][1..] == versions[i + 1..];
        ok := RunVersion(versions[i], last);
        ProgressedThen(p0, before, Phases(ops), done, step.0, ok);
        done, now := done + step.0, step.1;
        if !ok {
          LoopPrefix(cfg, st, versions, i + 1);
          ProgressedAbort(p0, Phases(ops), done, Loop(cfg, st, versions).0);
          return;
        }
        last := versions[i];
        i := i + 1;
      }
      assert versions[..i] == versions;
      ok := true;
    }

    /** The closing post-migration scripts, at the final database version. */
    method RunPostMigration() returns (ok: bool)
      modifies this, store
      ensures var e := PhasesEffect(w, cfg, PostMigration(cfg, old(db)), old(store.records), old(ops));
              store.records == e.progress && ops == e.ops && ok == e.ok
      ensures Progressed(Phases(old(ops)), Phases(ops), PostMigration(cfg, old(db)), ok)
      ensures ok ==> UpgradedSet(store.records) == UpgradedSet(old(store.records)) &&
                     EnterpriseSet(store.records) == EnterpriseSet(old(store.records))
      ensures db == old(db)
    {
      PostMigrationFlags(cfg, db);
      ok := RunPhases(PostMigration(cfg, db));
    }

    /** Everything `run_migration` does before the loop over the versions. */
    method RunPrelude() returns (ok: bool, ghost pv: nat)
      modifies this, store
      ensures var e := PreludeEffect(w, cfg, pv, old(store.records), old(ops));
              store.records == e.progress && ops == e.ops && ok == e.ok
      ensures ok || |Phases(ops)| > |Phases(old(ops))| ==> IsDbVersion(old(store.records), cfg.start, pv)
      ensures var p := Prelude(cfg, UpgradedSet(old(store.records)), EnterpriseSet(old(store.records)), pv);
              && Progressed(Phases(old(ops)), Phases(ops), p.0, ok)
              && (ok ==> db == p.1.db && UpgradedSet(store.records) == p.1.up && EnterpriseSet(store.records) == p.1.ent)
    {
      ghost var up0 := UpgradedSet(store.records);
      ghost var ent0 := EnterpriseSet(store.records);
      ghost var p0 := Phases(ops);
      var fromStart, found;
      ok, fromStart, found := RunSetup();
      pv := found;
      if !ok {
        return;
      }
      ghost var opening := Opening(cfg, up0, ent0, pv);
      ghost var p := Prelude(cfg, up0, ent0, pv);
      ghost var rest := p.0[|opening|..];
      assert p.0 == opening + rest;
      ghost var m1, ops1 := store.records, ops;
      ok := RunOpening(fromStart, found);
      PhasesEffectThen(w, cfg, opening, rest, m1, ops1);
      if !ok {
        ProgressedStop(p0, Phases(ops), opening, Jump(cfg, PlanState(db, cfg.start, UpgradedSet(store.records), ent0), pv, fromStart).0);
        return;
      }
      ghost var p1 := Phases(ops);
      ok := RunJump(fromStart, found);
      ProgressedThen(p0, p1, Phases(ops), opening, rest, ok);
    }

    /** Loading the enterprise script, finding the database version in the
        progress, and backing up the mail servers and defusing the
        database. */
    method RunSetup() returns (ok: bool, fromStart: bool, found: nat)
      modifies this, store
      ensures var e := SetupEffect(w, cfg, old(store.records), old(ops));
              store.records == e.progress && ops == e.ops && ok == e.ok
      ensures Phases(ops) == Phases(old(ops)) && db == cfg.start
      ensures ok ==> && IsDbVersion(old(store.records), cfg.start, found)
                     && fromStart == FromStart(cfg, UpgradedSet(old(store.records)), EnterpriseSet(old(store.records)), found)
                     && UpgradedSet(store.records) == UpgradedSet(old(store.records))
                     && EnterpriseSet(store.records) == EnterpriseSet(old(store.records))
    {
      db := cfg.start;
      fromStart, found := false, cfg.start;
      if cfg.enterprise {
        ok := Act(LoadEnterpriseScript);
        if !ok {
          return;
        }
      }
      ghost var ops1 := ops;
      store.InitProgress(cfg.start);
      found := store.FindDbVersion(cfg.start);
      fromStart := found == cfg.start && !Upgraded(store.records, cfg.minTarget) && !EnterpriseDone(store.records, cfg.minTarget);
      ok := Act(BackupMailServers);
      if !ok {
        return;
      }
      ok := Act(DefuseDatabase);
      assert ops == ops1 + [BackupMailServers, DefuseDatabase];
    }

    /** The pre-migration scripts and the initial upgrade of a migration
        from the start; otherwise the database version is taken from the
        progress. */
    method RunOpening(fromStart: bool, pv: nat) returns (ok: bool)
      requires fromStart == FromStart(cfg, UpgradedSet(store.records), EnterpriseSet(store.records), pv)
      modifies this, store
      ensures var e := PhasesEffect(w, cfg, Opening(cfg, UpgradedSet(old(store.records)), EnterpriseSet(old(store.records)), pv), old(store.records), old(ops));
              store.records == e.progress && ops == e.ops && ok == e.ok
      ensures var up := UpgradedSet(old(store.records));
              var ent := EnterpriseSet(old(store.records));
              && Progressed(Phases(old(ops)), Phases(ops), Opening(cfg, up, ent, pv), ok)
              && (ok ==> && db == (if fromStart then old(db) else pv)
                         && UpgradedSet(store.records) == (if InitialUpgrade(cfg, up, ent, pv) then up + {cfg.start} else up)
                         && EnterpriseSet(store.records) == ent)
    {
      OpeningFlags(cfg, UpgradedSet(store.records), EnterpriseSet(store.records), pv);
      if fromStart {
        ok := RunPhases(Opening(cfg, UpgradedSet(store.records), EnterpriseSet(store.records), pv));
      } else {
        ProgressedNothing(Phases(ops));
        db := pv;
        ok := true;
      }
    }

    /** The enterprise jump, or the catching up on the minimum target. */
    method RunJump(fromStart: bool, pv: nat) returns (ok: bool)
      modifies this, store
      ensures var j := Jump(cfg, PlanState(old(db), cfg.start, UpgradedSet(old(store.records)), EnterpriseSet(old(store.records))), pv, fromStart);
              var e := PhasesEffect(w, cfg, j.0, old(store.records), old(ops));
              store.records == e.progress && ops == e.ops && ok == e.ok
      ensures var j := Jump(cfg, PlanState(old(db), cfg.start, UpgradedSet(old(store.records)), EnterpriseSet(old(store.records))), pv, fromStart);
              && Progressed(Phases(old(ops)), Phases(ops), j.0, ok)
              && (ok ==> db == j.1.db && UpgradedSet(store.records) == j.1.up && EnterpriseSet(store.records) == j.1.ent)
    {
      ghost var m0, ops0 := store.records, ops;
      PhasesEffectProgressed(w, cfg, Jump(cfg, PlanState(db, cfg.start, UpgradedSet(store.records), EnterpriseSet(store.records)), pv, fromStart).0, m0, ops0);
      ok := true;
      var t := cfg.minTarget;
      if cfg.enterprise {
        if fromStart && !EnterpriseDone(store.records, cfg.start) {
          if WillJump(cfg) {
            var entDone := EnterpriseDone(store.records, t);
            var ouDone := Upgraded(store.records, t);
            ok := RunJumpEnter(entDone);
            PhasesEffectThen(w, cfg, JumpEnter(cfg, entDone), JumpAfter(cfg, ouDone), m0, ops0);
            if !ok {
              return;
            }
            db := t;
            ok := RunJumpAfter(ouDone);
          }
        } else if pv == t {
          db := t;
          ok := RunCatchUp();
        }
      }
    }

    method RunJumpEnter(entDone: bool) returns (ok: bool)
      modifies this, store
      ensures var e := PhasesEffect(w, cfg, JumpEnter(cfg, entDone), old(store.records), old(ops));
              store.records == e.progress && ops == e.ops && ok == e.ok
      ensures Progressed(Phases(old(ops)), Phases(ops), JumpEnter(cfg, entDone), ok)
      ensures ok ==> UpgradedSet(store.records) == UpgradedSet(old(store.records))
      ensures ok ==> EnterpriseSet(store.records) == if !entDone then EnterpriseSet(old(store.records)) + {cfg.minTarget} else EnterpriseSet(old(store.records))
      ensures db == old(db)
    {
      JumpEnterFlags(cfg, entDone);
      ok := RunPhases(JumpEnter(cfg, entDone));
    }

    method RunJumpAfter(ouDone: bool) returns (ok: bool)
      modifies this, store
      ensures var e := PhasesEffect(w, cfg, JumpAfter(cfg, ouDone), old(store.records), old(ops));
              store.records == e.progress && ops == e.ops && ok == e.ok
      ensures Progressed(Phases(old(ops)), Phases(ops), JumpAfter(cfg, ouDone), ok)
      ensures ok ==> UpgradedSet(store.records) == UpgradedSet(old(store.records))
      ensures ok ==> EnterpriseSet(store.records) == EnterpriseSet(old(store.records))
      ensures db == old(db)
    {
      JumpAfterFlags(cfg, ouDone);
      ok := RunPhases(JumpAfter(cfg, ouDone));
    }

    method RunCatchUp() returns (ok: bool)
      modifies this, store
      ensures var e := PhasesEffect(w, cfg, CatchUp(cfg), old(store.records), old(ops));
              store.records == e.progress && ops == e.ops && ok == e.ok
      ensures Progressed(Phases(old(ops)), Phases(ops), CatchUp(cfg), ok)
      ensures ok ==> UpgradedSet(store.records) == UpgradedSet(old(store.records))
      ensures ok ==> EnterpriseSet(store.records) == EnterpriseSet(old(store.records))
      ensures db == old(db)
    {
      CatchUpFlags(cfg);
      ok := RunPhases(CatchUp(cfg));
    }
  }
}
