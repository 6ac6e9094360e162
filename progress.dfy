/** The resumable progress of a migration (the contents of progress.json):
    for each major version, the scripts already run per stage and whether the
    OpenUpgrade upgrade and the enterprise upgrade towards that version are
    done.  Records written by the migration always carry a `hooks` map, and
    so does every record here. */
module Progress {
  import opened Wrappers

  datatype Record = Record(hooks: map<string, seq<string>>, upgrade: Option<bool>, enterprise: Option<bool>)

  type ProgressMap = map<nat, Record>

  /** The record `{"hooks": {}}` created for a version seen for the first time. */
  const EmptyRecord: Record := Record(map[], None, None)

  /** Python truthiness of a flag that may be absent. */
  predicate Truthy(f: Option<bool>) {
    f == Some(true)
  }

  predicate Upgraded(m: ProgressMap, v: nat) {
    v in m && Truthy(m[v].upgrade)
  }

  predicate EnterpriseDone(m: ProgressMap, v: nat) {
    v in m && Truthy(m[v].enterprise)
  }

  /** The versions whose OpenUpgrade upgrade is recorded as done. */
  function UpgradedSet(m: ProgressMap): set<nat> {
    set v | v in m && Truthy(m[v].upgrade)
  }

  /** The versions whose enterprise upgrade is recorded as done. */
  function EnterpriseSet(m: ProgressMap): set<nat> {
    set v | v in m && Truthy(m[v].enterprise)
  }

  /** `script` is recorded as run for `stage` of version `v`. */
  predicate Recorded(m: ProgressMap, v: nat, stage: string, script: string) {
    v in m && stage in m[v].hooks && script in m[v].hooks[stage]
  }

  /** The scripts recorded for `stage` of version `v`, in the order they ran. */
  function StageScripts(m: ProgressMap, v: nat, stage: string): seq<string> {
    if v in m && stage in m[v].hooks then m[v].hooks[stage] else []
  }

  /** The progress after `init_progress(v)`. */
  function InitVersion(m: ProgressMap, v: nat): (r: ProgressMap)
    ensures v in r && r.Keys == m.Keys + {v}
    ensures v in m ==> r == m
    ensures v !in m ==> r[v] == EmptyRecord
    ensures forall k :: k in m ==> r[k] == m[k]
    ensures UpgradedSet(r) == UpgradedSet(m) && EnterpriseSet(r) == EnterpriseSet(m)
    ensures forall start, d :: IsDbVersion(r, start, d) <==> IsDbVersion(m, start, d)
  {
    if v in m then m else m[v := EmptyRecord]
  }

  /** The progress after recording a script that was not yet recorded: the
      script is appended once to its stage, the record or the stage being
      created when absent; nothing else changes. */
  function MarkScript(m: ProgressMap, v: nat, stage: string, script: string): (r: ProgressMap)
    ensures Recorded(r, v, stage, script)
    ensures StageScripts(r, v, stage) == StageScripts(m, v, stage) + [script]
    ensures forall v': nat, s': string :: (v', s') != (v, stage) ==> StageScripts(r, v', s') == StageScripts(m, v', s')
    ensures r.Keys == m.Keys + {v}
    ensures forall k :: k in m && k != v ==> r[k] == m[k]
    ensures v in m ==> r[v].hooks.Keys == m[v].hooks.Keys + {stage}
    ensures v !in m ==> r[v].hooks.Keys == {stage}
    ensures UpgradedSet(r) == UpgradedSet(m) && EnterpriseSet(r) == EnterpriseSet(m)
  {
    var rec := if v in m then m[v] else EmptyRecord;
    m[v := rec.(hooks := rec.hooks[stage := StageScripts(m, v, stage) + [script]])]
  }

  /** The progress after `mark_upgrade_done(v)`. */
  function MarkUpgrade(m: ProgressMap, v: nat): (r: ProgressMap)
    ensures UpgradedSet(r) == UpgradedSet(m) + {v}
    ensures EnterpriseSet(r) == EnterpriseSet(m)
    ensures r.Keys == m.Keys + {v}
    ensures forall k :: k in m && k != v ==> r[k] == m[k]
    ensures forall v': nat, s': string :: StageScripts(r, v', s') == StageScripts(m, v', s')
  {
    var rec := if v in m then m[v] else EmptyRecord;
    m[v := rec.(upgrade := Some(true))]
  }

  /** The progress after `mark_enterprise_done(v)`. */
  function MarkEnterprise(m: ProgressMap, v: nat): (r: ProgressMap)
    ensures EnterpriseSet(r) == EnterpriseSet(m) + {v}
    ensures UpgradedSet(r) == UpgradedSet(m)
    ensures r.Keys == m.Keys + {v}
    ensures forall k :: k in m && k != v ==> r[k] == m[k]
    ensures forall v': nat, s': string :: StageScripts(r, v', s') == StageScripts(m, v', s')
  {
    var rec := if v in m then m[v] else EmptyRecord;
    m[v := rec.(enterprise := Some(true))]
  }

  /** A record whose upgrade or enterprise flag is set. */
  predicate Flagged(r: Record) {
    Truthy(r.upgrade) || Truthy(r.enterprise)
  }

  /** `r` is the version the database is at according to the progress: the
      highest of `start` and every flagged version above `start`. */
  predicate IsDbVersion(m: ProgressMap, start: nat, r: nat) {
    && r >= start
    && (r == start || (r in m && Flagged(m[r])))
    && forall v :: v in m && v > start && Flagged(m[v]) ==> v <= r
  }

  lemma DbVersionUnique(m: ProgressMap, start: nat, r1: nat, r2: nat)
    requires IsDbVersion(m, start, r1) && IsDbVersion(m, start, r2)
    ensures r1 == r2
  {
  }

  // ---------------------------------------------------------------------
  // Resetting the progress (`--reset-progress VERSION[:STAGE]`)

  /** An entry of the stage table that drives the reset: the stage name and
      whether the enterprise and OpenUpgrade flags survive its deletion. */
  datatype StageEntry = StageEntry(name: string, enterpriseKept: bool, upgradeKept: bool)

  /** The stage table, in migration order.  Its third entry is spelt
      "enterprise/pre-uprade", while the stage the migration records is
      "enterprise/pre-upgrade". */
  const HookOrder: seq<StageEntry> := [
    StageEntry("pre-migration", false, false),
    StageEntry("pre-upgrade", false, false),
    StageEntry("enterprise/pre-uprade", false, false),
    StageEntry("enterprise/post-upgrade", true, false),
    StageEntry("pre-openupgrade", true, false),
    StageEntry("post-upgrade", true, true),
    StageEntry("post-migration", true, true)
  ]

  /** The reset stage used when none is given. */
  const DefaultResetStage: string := "post-upgrade"

  /** The first position at or after `j` of `name` in the stage table. */
  function StageIndexFrom(name: string, j: nat): (r: Option<nat>)
    requires j <= |HookOrder|
    ensures r.Some? ==> j <= r.value < |HookOrder| && HookOrder[r.value].name == name
    ensures r.Some? ==> forall k :: j <= k < r.value ==> HookOrder[k].name != name
    ensures r.None? ==> forall k :: j <= k < |HookOrder| ==> HookOrder[k].name != name
    decreases |HookOrder| - j
  {
    if j == |HookOrder| then None
    else if HookOrder[j].name == name then Some(j)
    else StageIndexFrom(name, j + 1)
  }

  /** `[x[0] for x in HOOK_ORDER].index(name)`: the first position of `name`
      in the stage table, or None where Python raises ValueError. */
  function StageIndex(name: string): (r: Option<nat>)
    ensures r.Some? <==> exists j :: 0 <= j < |HookOrder| && HookOrder[j].name == name
    ensures r.Some? ==> r.value < |HookOrder| && HookOrder[r.value].name == name
  {
    StageIndexFrom(name, 0)
  }

  /** The default cutoff is the sixth stage of the table. */
  lemma DefaultResetStageIndex()
    ensures StageIndex(DefaultResetStage) == Some(5)
  {
    assert |HookOrder[0].name| == 13 && |HookOrder[1].name| == 11 && |HookOrder[2].name| == 21;
    assert |HookOrder[3].name| == 23 && |HookOrder[4].name| == 15;
  }

  /** The stage names of the table are pairwise distinct. */
  lemma HookOrderDistinct()
    ensures forall a, b :: 0 <= a < b < |HookOrder| ==> HookOrder[a].name != HookOrder[b].name
  {
    assert |HookOrder[0].name| == 13 && |HookOrder[1].name| == 11 && |HookOrder[2].name| == 21;
    assert |HookOrder[3].name| == 23 && |HookOrder[4].name| == 15 && |HookOrder[5].name| == 12;
    assert |HookOrder[6].name| == 14;
  }

  /** Stage `s` is named by a table entry at a position in [lo, hi). */
  predicate StageIn(s: string, lo: nat, hi: nat)
    requires hi <= |HookOrder|
  {
    exists j :: lo <= j < hi && HookOrder[j].name == s
  }

  /** Some stage named in [lo, hi) is present in `hooks` and does not keep
      the enterprise flag. */
  predicate ClearsEnterprise(hooks: map<string, seq<string>>, lo: nat, hi: nat)
    requires hi <= |HookOrder|
  {
    exists j :: lo <= j < hi && HookOrder[j].name in hooks && !HookOrder[j].enterpriseKept
  }

  predicate ClearsUpgrade(hooks: map<string, seq<string>>, lo: nat, hi: nat)
    requires hi <= |HookOrder|
  {
    exists j :: lo <= j < hi && HookOrder[j].name in hooks && !HookOrder[j].upgradeKept
  }

  /** A record after the stages at table positions [lo, hi) are deleted. */
  function ResetRecord(r: Record, lo: nat, hi: nat): Record
    requires hi <= |HookOrder|
  {
    Record(
      map s | s in r.hooks && !StageIn(s, lo, hi) :: r.hooks[s],
      if ClearsUpgrade(r.hooks, lo, hi) then None else r.upgrade,
      if ClearsEnterprise(r.hooks, lo, hi) then None else r.enterprise)
  }

  lemma ResetRecordNothing(r: Record, lo: nat)
    requires lo <= |HookOrder|
    ensures ResetRecord(r, lo, lo) == r
  {
    assert ResetRecord(r, lo, lo).hooks == r.hooks;
  }

  /** Widening [lo, hi) by one position adds exactly the stage there. */
  lemma StageInStep(s: string, lo: nat, hi: nat)
    requires lo <= hi < |HookOrder|
    ensures StageIn(s, lo, hi + 1) <==> StageIn(s, lo, hi) || s == HookOrder[hi].name
  {
    if StageIn(s, lo, hi + 1) && s != HookOrder[hi].name {
      var j :| lo <= j < hi + 1 && HookOrder[j].name == s;
      assert j < hi;
    }
  }

  lemma ClearsStep(hooks: map<string, seq<string>>, lo: nat, hi: nat)
    requires lo <= hi < |HookOrder|
    ensures var e := HookOrder[hi];
            && (ClearsUpgrade(hooks, lo, hi + 1) <==> ClearsUpgrade(hooks, lo, hi) || (e.name in hooks && !e.upgradeKept))
            && (ClearsEnterprise(hooks, lo, hi + 1) <==> ClearsEnterprise(hooks, lo, hi) || (e.name in hooks && !e.enterpriseKept))
  {
    var e := HookOrder[hi];
    if ClearsUpgrade(hooks, lo, hi + 1) && !(e.name in hooks && !e.upgradeKept) {
      var j :| lo <= j < hi + 1 && HookOrder[j].name in hooks && !HookOrder[j].upgradeKept;
      assert j < hi;
    }
    if ClearsEnterprise(hooks, lo, hi + 1) && !(e.name in hooks && !e.enterpriseKept) {
      var j :| lo <= j < hi + 1 && HookOrder[j].name in hooks && !HookOrder[j].enterpriseKept;
      assert j < hi;
    }
  }

  /** The stages deleted from [lo, hi) do not include the one at `hi`. */
  lemma ResetHooksStep(r: Record, lo: nat, hi: nat)
    requires lo <= hi < |HookOrder|
    ensures var b := ResetRecord(r, lo, hi);
            var e := HookOrder[hi];
            && (e.name in b.hooks <==> e.name in r.hooks)
            && ResetRecord(r, lo, hi + 1).hooks == b.hooks - {e.name}
  {
    HookOrderDistinct();
    var e := HookOrder[hi];
    assert !StageIn(e.name, lo, hi);
    forall s ensures StageIn(s, lo, hi + 1) <==> StageIn(s, lo, hi) || s == e.name {
      StageInStep(s, lo, hi);
    }
    assert ResetRecord(r, lo, hi + 1).hooks == ResetRecord(r, lo, hi).hooks - {e.name};
  }

  /** Deleting one more stage of the table. */
  lemma ResetRecordStep(r: Record, lo: nat, hi: nat)
    requires lo <= hi < |HookOrder|
    ensures var b := ResetRecord(r, lo, hi);
            var e := HookOrder[hi];
            ResetRecord(r, lo, hi + 1)
            == if e.name in b.hooks then
                 Record(b.hooks - {e.name},
                        if e.upgradeKept then b.upgrade else None,
                        if e.enterpriseKept then b.enterprise else None)
               else b
  {
    ResetHooksStep(r, lo, hi);
    ClearsStep(r.hooks, lo, hi);
    var b := ResetRecord(r, lo, hi);
    var e := HookOrder[hi];
    if e.name !in b.hooks {
      assert b.hooks - {e.name} == b.hooks;
    }
  }

  /** The progress after a reset to version `v` with the cutoff at table
      position `i`. */
  function ResetSpec(m: ProgressMap, v: nat, i: nat): (r: ProgressMap)
    requires i < |HookOrder|
    ensures forall k :: k in r ==> k <= v
    ensures forall k :: k in m && k < v ==> k in r && r[k] == m[k]
    ensures v in r <==> v in m
    ensures v in m ==> forall s :: s in r[v].hooks <==> s in m[v].hooks && !StageIn(s, i, |HookOrder|)
    ensures v in m ==> forall s :: s in r[v].hooks ==> r[v].hooks[s] == m[v].hooks[s]
  {
    var m1 := if v in m then m[v := ResetRecord(m[v], i, |HookOrder|)] else m;
    map k | k in m1 && k <= v :: m1[k]
  }

  /** The flags of the reset version are cleared exactly when a deleted
      stage that does not keep them was present. */
  lemma ResetFlags(m: ProgressMap, v: nat, i: nat)
    requires i < |HookOrder| && v in m
    ensures var r := ResetSpec(m, v, i)[v];
            && (r.upgrade == if ClearsUpgrade(m[v].hooks, i, |HookOrder|) then None else m[v].upgrade)
            && (r.enterprise == if ClearsEnterprise(m[v].hooks, i, |HookOrder|) then None else m[v].enterprise)
  {
  }

  /** Because of the table's spelling, a recorded "enterprise/pre-upgrade"
      stage survives every reset. */
  lemma ResetKeepsEnterprisePreUpgrade(m: ProgressMap, v: nat, i: nat)
    requires i < |HookOrder| && v in m && "enterprise/pre-upgrade" in m[v].hooks
    ensures var r := ResetSpec(m, v, i)[v];
            "enterprise/pre-upgrade" in r.hooks && r.hooks["enterprise/pre-upgrade"] == m[v].hooks["enterprise/pre-upgrade"]
  {
    assert |HookOrder[0].name| == 13 && |HookOrder[1].name| == 11 && |HookOrder[2].name| == 21;
    assert |HookOrder[3].name| == 23 && |HookOrder[4].name| == 15 && |HookOrder[5].name| == 12;
    assert |HookOrder[6].name| == 14;
    assert !StageIn("enterprise/pre-upgrade", i, |HookOrder|);
  }

  /** After a reset to `v`, every version the progress puts the database at,
      starting at or below `v`, is at most `v`. */
  lemma ResetBoundsDbVersion(m: ProgressMap, v: nat, i: nat, start: nat, pv: nat)
    requires i < |HookOrder| && start <= v
    requires IsDbVersion(ResetSpec(m, v, i), start, pv)
    ensures pv <= v
  {
  }

  // ---------------------------------------------------------------------
  // The progress store

  /** The global progress dictionary, with the contents last written to
      progress.json. */
  class ProgressStore {
    var records: ProgressMap
    ghost var saved: ProgressMap

    /** The progress as loaded from progress.json (empty when there is no
        such file). */
    constructor(loaded: ProgressMap)
      ensures records == loaded && saved == loaded
    {
      records := loaded;
      saved := loaded;
    }

    /** `init_progress`: makes sure `v` has a record; does not save. */
    method InitProgress(v: nat)
      modifies this
      ensures records == InitVersion(old(records), v)
      ensures saved == old(saved)
    {
      if v !in records {
        records := records[v := EmptyRecord];
      }
    }

    /** `mark_script_executed`: False, and nothing changes, when the script
        is already recorded; otherwise records it, saves, and gives True. */
    method MarkScriptExecuted(v: nat, stage: string, script: string) returns (added: bool)
      modifies this
      ensures added <==> !Recorded(old(records), v, stage, script)
      ensures records == if added then MarkScript(old(records), v, stage, script) else old(records)
      ensures saved == if added then records else old(saved)
    {
      if v in records && stage in records[v].hooks {
        if script in records[v].hooks[stage] {
          return false;
        }
        var rec := records[v];
        records := records[v := rec.(hooks := rec.hooks[stage := rec.hooks[stage] + [script]])];
        assert records == MarkScript(old(records), v, stage, script);
      } else if v in records {
        var rec := records[v];
        records := records[v := rec.(hooks := rec.hooks[stage := [script]])];
        assert StageScripts(old(records), v, stage) + [script] == [script];
      } else {
        records := records[v := Record(map[stage := [script]], None, None)];
        assert StageScripts(old(records), v, stage) + [script] == [script];
        assert EmptyRecord.hooks[stage := [script]] == map[stage := [script]];
      }
      saved := records;
      added := true;
    }

    /** `mark_upgrade_done`. */
    method MarkUpgradeDone(v: nat)
      modifies this
      ensures records == MarkUpgrade(old(records), v)
      ensures saved == records
    {
      if v !in records {
        records := records[v := EmptyRecord];
      }
      records := records[v := records[v].(upgrade := Some(true))];
      saved := records;
    }

    /** `mark_enterprise_done`. */
    method MarkEnterpriseDone(v: nat)
      modifies this
      ensures records == MarkEnterprise(old(records), v)
      ensures saved == records
    {
      if v !in records {
        records := records[v := EmptyRecord];
      }
      records := records[v := records[v].(enterprise := Some(true))];
      saved := records;
    }

    /** `find_db_version_from_progress`: scans the records in any order,
        keeping the highest flagged version above the one found so far. */
    method FindDbVersion(start: nat) returns (r: nat)
      ensures IsDbVersion(records, start, r)
    {
      r := start;
      var todo := records.Keys;
      while todo != {}
        invariant todo <= records.Keys
        invariant r >= start && (r == start || (r in records && Flagged(records[r])))
        invariant forall v :: v in records && v !in todo && v > start && Flagged(records[v]) ==> v <= r
        decreases |todo|
      {
        var v :| v in todo;
        if v > r && Flagged(records[v]) {
          r := v;
        }
        todo := todo - {v};
      }
    }

    /** The reset done by `load_progress`: removes, for version `v`, the
        stages from the cutoff `stage` (post-upgrade when absent) onwards,
        clearing flags as the stage table says, then removes every higher
        version.  Fails, changing nothing, when the cutoff is not a stage of
        the table.  The reset is not saved. */
    method ApplyReset(v: nat, stage: Option<string>) returns (ok: bool)
      modifies this
      ensures ok <==> StageIndex(stage.GetOr(DefaultResetStage)).Some?
      ensures ok ==> records == ResetSpec(old(records), v, StageIndex(stage.GetOr(DefaultResetStage)).value)
      ensures !ok ==> records == old(records)
      ensures saved == old(saved)
    {
      var idx := StageIndex(stage.GetOr(DefaultResetStage));
      if idx.None? {
        return false;
      }
      DeleteStages(v, idx.value);
      DeleteAbove(v);
      ok := true;
    }

    /** The loop over the stage table from position `i`. */
    method DeleteStages(v: nat, i: nat)
      requires i < |HookOrder|
      modifies this
      ensures records == if v in old(records) then old(records)[v := ResetRecord(old(records)[v], i, |HookOrder|)] else old(records)
      ensures saved == old(saved)
    {
      ghost var m0 := records;
      var j := i;
      ResetRecordNothing(if v in m0 then m0[v] else EmptyRecord, i);
      while j < |HookOrder|
        invariant saved == old(saved)
        invariant i <= j <= |HookOrder|
        invariant v !in m0 ==> records == m0
        invariant v in m0 ==> records == m0[v := ResetRecord(m0[v], i, j)]
      {
        var entry := HookOrder[j];
        if v in records && entry.name in records[v].hooks {
          var rec := records[v];
          rec := rec.(hooks := rec.hooks - {entry.name});
          if !entry.enterpriseKept && rec.enterprise.Some? {
            rec := rec.(enterprise := None);
          }
          if !entry.upgradeKept && rec.upgrade.Some? {
            rec := rec.(upgrade := None);
          }
          records := records[v := rec];
        }
        if v in m0 {
          ResetRecordStep(m0[v], i, j);
        }
        j := j + 1;
      }
    }

    /** The loop deleting every version above `v`. */
    method DeleteAbove(v: nat)
      modifies this
      ensures records == map k | k in old(records) && k <= v :: old(records)[k]
      ensures saved == old(saved)
    {
      ghost var m1 := records;
      var todo := records.Keys;
      while todo != {}
        invariant saved == old(saved)
        invariant todo <= m1.Keys
        invariant records == map k | k in m1 && (k <= v || k in todo) :: m1[k]
        decreases |todo|
      {
        var k :| k in todo;
        if k > v {
          records := records - {k};
        }
        todo := todo - {k};
      }
    }
  }
}
