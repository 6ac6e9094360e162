/** The order in which `run_migration` enters its phases, as a function of
    the configuration and of the flags the progress holds when it starts.
    The jump to the enterprise minimum target, the per-version loop and its
    resume rules are all decided here; the session carries them out. */
module MigrationPlan {
  import opened Wrappers
  import opened Versions
  import opened Stage

  /** The parameters `run_migration` reads. */
  datatype Config = Config(
    start: nat,                  // start-version
    minTarget: nat,              // enterprise-jump-to, or the minimum target
    final: nat,                  // ODOO_VERSION
    enterprise: bool,            // enterprise-enabled
    openUpgradeDisabled: bool,   // open-upgrade-disabled
    skipInitialUpgrade: bool,    // SKIP_INITIAL_UPGRADE is "1"
    envStart: Option<nat>,       // MIGRATION_START_VERSION, read by run_upgrade
    noBackups: bool,             // MIGRATION_NO_BACKUPS is "true"
    dontResume: bool)            // the enterprise run does not resume

  /** An enterprise migration whose start is more than one version below the
      minimum target jumps straight to the target. */
  predicate WillJump(cfg: Config) {
    cfg.enterprise && cfg.start + 1 < cfg.minTarget
  }

  /** The migration starts from scratch when the database is still at the
      start version and the minimum target carries neither flag. */
  predicate FromStart(cfg: Config, up: set<nat>, ent: set<nat>, pv: nat) {
    pv == cfg.start && cfg.minTarget !in up && cfg.minTarget !in ent
  }

  /** What the plan tracks between phases: the version of the database, the
      last version visited by the loop, and the two flag sets. */
  datatype PlanState = PlanState(db: nat, last: nat, up: set<nat>, ent: set<nat>)

  /** The pre-migration scripts of the start version. */
  function PreMigration(cfg: Config, up: set<nat>, ent: set<nat>, pv: nat): seq<Phase> {
    var s := cfg.start;
    if !FromStart(cfg, up, ent, pv) then []
    else (if s !in up then [Scripts(s, "pre-migration", s)] else [])
         + (if cfg.enterprise && s !in ent then [Scripts(s, "enterprise/pre-migration", s)] else [])
  }

  predicate InitialUpgrade(cfg: Config, up: set<nat>, ent: set<nat>, pv: nat) {
    FromStart(cfg, up, ent, pv) && !cfg.skipInitialUpgrade && cfg.start !in up
  }

  /** The jump itself: the enterprise upgrade to the minimum target, run at
      the start version, unless it is recorded as done. */
  function JumpEnter(cfg: Config, entDone: bool): seq<Phase> {
    var t := cfg.minTarget;
    if !entDone then [Scripts(t, "enterprise/pre-jump", cfg.start), EnterpriseUpgrade(t)] else []
  }

  /** The scripts that follow the jump, unless the minimum target is
      recorded as upgraded. */
  function JumpAfter(cfg: Config, ouDone: bool): seq<Phase> {
    var t := cfg.minTarget;
    if !ouDone then [Scripts(t, "enterprise/post-jump", t), Scripts(t, "enterprise/post-upgrade", t), Scripts(t, "post-upgrade", t)] else []
  }

  /** The scripts of the minimum target when the database already reached
      it: a resumed migration catches up on them. */
  function CatchUp(cfg: Config): seq<Phase> {
    var t := cfg.minTarget;
    (if WillJump(cfg) then [Scripts(t, "enterprise/post-jump", t)] else [])
    + [Scripts(t, "enterprise/post-upgrade", t), Scripts(t, "post-upgrade", t)]
  }

  /** The enterprise jump, or the catching up on the minimum target when the
      database already reached it. */
  function Jump(cfg: Config, st: PlanState, pv: nat, fromStart: bool): (seq<Phase>, PlanState) {
    var t := cfg.minTarget;
    if !cfg.enterprise then ([], st)
    else if fromStart && cfg.start !in st.ent then
      if WillJump(cfg) then
        var entDone := t in st.ent;
        (JumpEnter(cfg, entDone) + JumpAfter(cfg, t in st.up),
         st.(db := t, ent := if !entDone then st.ent + {t} else st.ent))
      else ([], st)
    else if pv == t then (CatchUp(cfg), st.(db := t))
    else ([], st)
  }

  /** The pre-migration scripts and the initial upgrade. */
  function Opening(cfg: Config, up: set<nat>, ent: set<nat>, pv: nat): seq<Phase> {
    PreMigration(cfg, up, ent, pv) + (if InitialUpgrade(cfg, up, ent, pv) then [Upgrade(cfg.start)] else [])
  }

  /** Everything before the loop over the build versions. */
  function Prelude(cfg: Config, up: set<nat>, ent: set<nat>, pv: nat): (seq<Phase>, PlanState) {
    var fromStart := FromStart(cfg, up, ent, pv);
    var init := InitialUpgrade(cfg, up, ent, pv);
    var st := PlanState(if fromStart then cfg.start else pv, cfg.start, if init then up + {cfg.start} else up, ent);
    var j := Jump(cfg, st, pv, fromStart);
    (Opening(cfg, up, ent, pv) + j.0, j.1)
  }

  /** The loop passes over `v` without entering any phase. */
  predicate Skipped(cfg: Config, st: PlanState, v: nat) {
    || v == cfg.start
    || st.db > v
    || (cfg.enterprise && v !in AvailableEnterpriseBuildVersions(cfg.start, cfg.minTarget, cfg.final))
  }

  /** The enterprise part of a loop pass, given whether the enterprise and
      the OpenUpgrade upgrade of `v` are recorded as done. */
  function EnterprisePhases(cfg: Config, v: nat, last: nat, entDone: bool, ouDone: bool): seq<Phase> {
    (if cfg.enterprise && !entDone && v > cfg.minTarget then [Scripts(v, "enterprise/pre-upgrade", last), EnterpriseUpgrade(v)] else [])
    + (if cfg.enterprise && !ouDone then [Scripts(v, "enterprise/post-upgrade", v)] else [])
  }

  /** The phases of a loop pass up to the enterprise part. */
  function LeadPhases(cfg: Config, v: nat, last: nat, entDone: bool, ouDone: bool): seq<Phase> {
    (if (!cfg.openUpgradeDisabled && !ouDone) || !entDone then [Scripts(v, "pre-upgrade", last)] else [])
    + EnterprisePhases(cfg, v, last, entDone, ouDone)
  }

  /** The rest of a loop pass: OpenUpgrade, then the post-upgrade scripts. */
  function TailPhases(cfg: Config, v: nat, ouDone: bool): seq<Phase> {
    (if !cfg.openUpgradeDisabled && !ouDone then [Scripts(v, "pre-openupgrade", v), Upgrade(v)] else [])
    + [Scripts(v, "post-upgrade", v)]
  }

  /** The body of the loop for version `v`. */
  function VersionStep(cfg: Config, st: PlanState, v: nat): (seq<Phase>, PlanState) {
    if Skipped(cfg, st, v) then ([], st.(last := v))
    else
      var entDone := v in st.ent;
      var ouDone := v in st.up;
      var entUp := cfg.enterprise && !entDone && v > cfg.minTarget;
      var ou := !cfg.openUpgradeDisabled && !ouDone;
      (LeadPhases(cfg, v, st.last, entDone, ouDone) + TailPhases(cfg, v, ouDone),
       PlanState(v, v, if ou then st.up + {v} else st.up, if entUp then st.ent + {v} else st.ent))
  }

  /** The loop over `vs`, folded from the left. */
  function Loop(cfg: Config, st: PlanState, vs: seq<nat>): (seq<Phase>, PlanState)
    decreases |vs|
  {
    if vs == [] then ([], st)
    else
      var a := Loop(cfg, st, vs[..|vs| - 1]);
      var b := VersionStep(cfg, a.1, vs[|vs| - 1]);
      (a.0 + b.0, b.1)
  }

  /** The closing post-migration scripts, run at the final database version. */
  function PostMigration(cfg: Config, db: nat): seq<Phase> {
    (if cfg.enterprise then [Scripts(db, "enterprise/post-migration", db)] else [])
    + [Scripts(db, "post-migration", db)]
  }

  /** The database version and the upgraded and enterprise sets a whole
      migration leaves. */
  function FinalState(cfg: Config, up: set<nat>, ent: set<nat>, pv: nat): PlanState {
    Loop(cfg, Prelude(cfg, up, ent, pv).1, AvailableBuildVersions(cfg.start, cfg.final)).1
  }

  /** Every phase of a whole migration, in order. */
  function Plan(cfg: Config, up: set<nat>, ent: set<nat>, pv: nat): seq<Phase> {
    var p := Prelude(cfg, up, ent, pv);
    var l := Loop(cfg, p.1, AvailableBuildVersions(cfg.start, cfg.final));
    p.0 + l.0 + PostMigration(cfg, l.1.db)
  }

  predicate IsPrefix<T(==)>(a: seq<T>, b: seq<T>) {
    |a| <= |b| && b[..|a|] == a
  }

  lemma IsPrefixExtend<T>(a: seq<T>, x: seq<T>, y: seq<T>, z: seq<T>)
    requires IsPrefix(x, y)
    ensures IsPrefix(a + x, a + y + z)
  {
    assert (a + y + z)[..|a + x|] == a + y[..|x|];
  }

  /** One more version extends the loop by that version's step. */
  lemma LoopSnoc(cfg: Config, st: PlanState, vs: seq<nat>, i: nat)
    requires i < |vs|
    ensures var done := Loop(cfg, st, vs[..i]);
            var step := VersionStep(cfg, done.1, vs[i]);
            Loop(cfg, st, vs[..i + 1]) == (done.0 + step.0, step.1)
  {
    assert vs[..i + 1][..i] == vs[..i];
  }

  /** The phases of the loop over a prefix of the versions begin the phases
      of the whole loop. */
  lemma {:induction false} LoopPrefix(cfg: Config, st: PlanState, vs: seq<nat>, i: nat)
    requires i <= |vs|
    ensures IsPrefix(Loop(cfg, st, vs[..i]).0, Loop(cfg, st, vs).0)
    decreases |vs|
  {
    if i < |vs| {
      var n := |vs| - 1;
      assert vs[..n][..i] == vs[..i];
      LoopPrefix(cfg, st, vs[..n], i);
      var a := Loop(cfg, st, vs[..n]).0;
      var x := Loop(cfg, st, vs[..i]).0;
      assert (a + VersionStep(cfg, Loop(cfg, st, vs[..n]).1, vs[n]).0)[..|x|] == a[..|x|];
    } else {
      assert vs[..i] == vs;
    }
  }

  // ---------------------------------------------------------------------
  // Properties of the plan

  /** A version the loop does not skip ends with its post-upgrade scripts,
      and the database is then at that version. */
  lemma VersionStepShape(cfg: Config, st: PlanState, v: nat)
    ensures var r := VersionStep(cfg, st, v);
            && (r.0 == [] <==> Skipped(cfg, st, v))
            && (!Skipped(cfg, st, v) ==> r.0[|r.0| - 1] == Scripts(v, "post-upgrade", v) && r.1.db == v)
            && (Skipped(cfg, st, v) ==> r.1 == st.(last := v))
            && r.1.last == v
            && (forall p :: p in r.0 ==> p.version == v)
  {
  }

  /** OpenUpgrade runs for `v` exactly when the loop reaches `v`,
      OpenUpgrade is enabled and `v` is not recorded as upgraded. */
  lemma VersionStepOpenUpgrade(cfg: Config, st: PlanState, v: nat)
    ensures Upgrade(v) in VersionStep(cfg, st, v).0
            <==> !Skipped(cfg, st, v) && !cfg.openUpgradeDisabled && v !in st.up
  {
  }

  /** The enterprise upgrade runs for `v` exactly when the loop reaches an
      enterprise version above the minimum target not recorded as done. */
  lemma VersionStepEnterprise(cfg: Config, st: PlanState, v: nat)
    ensures EnterpriseUpgrade(v) in VersionStep(cfg, st, v).0
            <==> !Skipped(cfg, st, v) && cfg.enterprise && v !in st.ent && v > cfg.minTarget
  {
  }

  /** The pre-upgrade scripts of a version run at the version visited
      before it, and only when some upgrade of that version is still to
      be done. */
  lemma VersionStepPreUpgrade(cfg: Config, st: PlanState, v: nat, at: nat)
    ensures Scripts(v, "pre-upgrade", at) in VersionStep(cfg, st, v).0
            <==> && !Skipped(cfg, st, v) && at == st.last
                 && ((!cfg.openUpgradeDisabled && v !in st.up) || v !in st.ent)
  {
  }

  /** In an enterprise migration, the loop skips every version between the
      start and the minimum target: those are reached by the jump. */
  lemma JumpSkipsBelowTarget(cfg: Config, st: PlanState, v: nat)
    requires cfg.enterprise && cfg.start < v < cfg.minTarget
    ensures Skipped(cfg, st, v)
  {
    InEnterpriseBuildVersions(cfg.start, cfg.minTarget, cfg.final, v);
  }

  /** The loop never moves the database back and never forgets a flag. */
  lemma {:induction false} LoopMonotone(cfg: Config, st: PlanState, vs: seq<nat>)
    ensures var r := Loop(cfg, st, vs).1;
            r.db >= st.db && st.up <= r.up && st.ent <= r.ent
    decreases |vs|
  {
    if vs != [] {
      LoopMonotone(cfg, st, vs[..|vs| - 1]);
    }
  }

  /** Every version the loop marks as upgraded was one of its versions. */
  lemma {:induction false} LoopUpgradesOnlyItsVersions(cfg: Config, st: PlanState, vs: seq<nat>)
    ensures var r := Loop(cfg, st, vs).1;
            (forall v :: v in r.up ==> v in st.up || v in vs) && (forall v :: v in r.ent ==> v in st.ent || v in vs)
    decreases |vs|
  {
    if vs != [] {
      LoopUpgradesOnlyItsVersions(cfg, st, vs[..|vs| - 1]);
      assert forall v :: v in vs[..|vs| - 1] ==> v in vs;
    }
  }

  /** Once the loop has reached a version with OpenUpgrade enabled, that
      version is recorded as upgraded, so a resumed migration does not run
      its OpenUpgrade again. */
  lemma {:induction false} LoopUpgradesReached(cfg: Config, st: PlanState, vs: seq<nat>, i: nat)
    requires i < |vs| && !cfg.openUpgradeDisabled
    requires !Skipped(cfg, Loop(cfg, st, vs[..i]).1, vs[i])
    ensures vs[i] in Loop(cfg, st, vs).1.up
    decreases |vs|
  {
    var n := |vs| - 1;
    if i == n {
      assert vs[..n] == vs[..i];
    } else {
      assert vs[..n][..i] == vs[..i];
      LoopUpgradesReached(cfg, st, vs[..n], i);
    }
  }

  /** The migration always ends with the post-migration scripts at the
      final database version, and that version is at least the start. */
  lemma PlanEndsWithPostMigration(cfg: Config, up: set<nat>, ent: set<nat>, pv: nat)
    requires pv >= cfg.start
    ensures var p := Prelude(cfg, up, ent, pv);
            var l := Loop(cfg, p.1, AvailableBuildVersions(cfg.start, cfg.final));
            var plan := Plan(cfg, up, ent, pv);
            && plan[|plan| - 1] == Scripts(l.1.db, "post-migration", l.1.db)
            && l.1.db >= cfg.start
  {
    var p := Prelude(cfg, up, ent, pv);
    LoopMonotone(cfg, p.1, AvailableBuildVersions(cfg.start, cfg.final));
  }

  /** A migration that starts from scratch runs the initial upgrade of the
      start version unless it is skipped or already recorded; a resumed one
      never does. */
  lemma InitialUpgradeRule(cfg: Config, up: set<nat>, ent: set<nat>, pv: nat)
    ensures Upgrade(cfg.start) in Prelude(cfg, up, ent, pv).0
            <==> InitialUpgrade(cfg, up, ent, pv)
  {
  }
}
