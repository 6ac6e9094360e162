/** The normaliser of the code configuration (`odoo-code.yaml`): every
    repository entry of the file becomes a record of remotes, target,
    merges and addon globs, keyed by the repository's directory under the
    code directory.  Malformed parts are dropped or replaced by defaults;
    some malformed inputs make the import raise, and the model says where. */
module CodeConfig {

  import opened Wrappers
  import opened PyStr

  /** A value loaded from YAML.  A mapping keeps its entries in file order,
      with distinct string keys as the loader builds them; `YFloat` stands
      for any other scalar (floats, dates). */
  datatype Yaml =
    | YNull
    | YBool(b: bool)
    | YInt(i: int)
    | YFloat
    | YStr(s: string)
    | YList(items: seq<Yaml>)
    | YMap(entries: seq<(string, Yaml)>)

  /** `d.get(key)`. */
  function Get(entries: seq<(string, Yaml)>, key: string): (r: Option<Yaml>)
    ensures r.Some? <==> exists i :: 0 <= i < |entries| && entries[i].0 == key
  {
    if entries == [] then None
    else if entries[0].0 == key then Some(entries[0].1)
    else Get(entries[1..], key)
  }

  /** `key in y`; None where Python raises `TypeError` (the value is not a
      container).  On a string it is a substring test, on a list a test
      for an equal element. */
  function Has(key: string, y: Yaml): Option<bool> {
    match y
    case YMap(es) => Some(Get(es, key).Some?)
    case YStr(s) => Some(Contains(s, key))
    case YList(items) => Some(YStr(key) in items)
    case _ => None
  }

  predicate Unhashable(y: Yaml) {
    y.YList? || y.YMap?
  }

  /** A generated merge's depth: a count from the file, or the text of
      WAFT_DEPTH_MERGE that replaces a depth of 1. */
  datatype Depth = Count(n: int) | Setting(s: string)

  datatype Merge = Merge(remote: string, ref: string, depth: Depth)

  /** The normalised record of one repository. */
  datatype Repo = Repo(remotes: seq<(string, Yaml)>, target: string, merges: seq<Merge>,
                       addons: seq<string>, addonsExcept: seq<string>)

  /** The result of a step that may drop its entry or raise. */
  datatype Step<T> = Drop | Raise | Go(value: T)

  // ---------------------------------------------------------------------
  // Remotes named by the merges (lines 265-270)

  /** Whether merge item `m` names remote `key`; None where the test raises
      (a string containing "remote", a list holding it, a scalar). */
  function NamesRemote(m: Yaml, key: string): Option<bool> {
    match m
    case YMap(es) => Some(Get(es, "remote") == Some(YStr(key)))
    case YStr(s) => if Contains(s, "remote") then None else Some(false)
    case YList(items) => if YStr("remote") in items then None else Some(false)
    case _ => None
  }

  function OrElse(b: bool, o: Option<bool>): Option<bool> {
    match o
    case None => None
    case Some(c) => Some(b || c)
  }

  function NamedByAny(merges: seq<Yaml>, key: string): Option<bool>
    decreases |merges|
  {
    if merges == [] then Some(false)
    else
      match NamesRemote(merges[0], key)
      case None => None
      case Some(b) => OrElse(b, NamedByAny(merges[1..], key))
  }

  function Prepend<T>(front: seq<T>, o: Option<seq<T>>): Option<seq<T>> {
    match o
    case None => None
    case Some(rest) => Some(front + rest)
  }

  lemma PrependPrepend<T>(a: seq<T>, b: seq<T>, o: Option<seq<T>>)
    ensures Prepend(a, Prepend(b, o)) == Prepend(a + b, o)
    ensures Prepend([], o) == o
  {
    if o.Some? {
      assert a + (b + o.value) == (a + b) + o.value;
      assert [] + o.value == o.value;
    }
  }

  /** The remotes some merge item names, in the order of the remotes. */
  function Referenced(remotes: seq<(string, Yaml)>, merges: seq<Yaml>): Option<seq<(string, Yaml)>>
    decreases |remotes|
  {
    if remotes == [] then Some([])
    else
      match NamedByAny(merges, remotes[0].0)
      case None => None
      case Some(b) => Prepend(if b then [remotes[0]] else [], Referenced(remotes[1..], merges))
  }

  /** Merge items whose `'remote' in m and m['remote'] == key` test
      raises, whatever the key. */
  predicate Raises(m: Yaml) {
    match m
    case YMap(_) => false
    case YStr(s) => Contains(s, "remote")
    case YList(items) => YStr("remote") in items
    case _ => true
  }

  /** Some merge item is a mapping whose `remote` is the string `key`. */
  predicate Mentions(merges: seq<Yaml>, key: string) {
    exists j :: 0 <= j < |merges| && merges[j].YMap? && Get(merges[j].entries, "remote") == Some(YStr(key))
  }

  lemma {:induction false} NamedByAnySpec(merges: seq<Yaml>, key: string)
    ensures NamedByAny(merges, key) ==
            if exists j :: 0 <= j < |merges| && Raises(merges[j]) then None else Some(Mentions(merges, key))
    decreases |merges|
  {
    if merges != [] {
      NamedByAnySpec(merges[1..], key);
      var tail := merges[1..];
      assert forall j :: 0 <= j < |tail| ==> tail[j] == merges[j + 1];
      if exists j :: 0 <= j < |merges| && Raises(merges[j]) {
        var j :| 0 <= j < |merges| && Raises(merges[j]);
        if j > 0 {
          assert Raises(tail[j - 1]);
        }
      }
      if Mentions(merges, key) {
        var j :| 0 <= j < |merges| && merges[j].YMap? && Get(merges[j].entries, "remote") == Some(YStr(key));
        if j > 0 {
          assert tail[j - 1] == merges[j];
        }
      }
    }
  }

  /** The remotes are read only when some remote is declared, and then
      raise exactly when some merge item is a non-mapping that the test
      cannot handle; otherwise the referenced remotes are those some merge
      item names, in the remotes' order. */
  lemma {:induction false} ReferencedSpec(remotes: seq<(string, Yaml)>, merges: seq<Yaml>)
    ensures var r := Referenced(remotes, merges);
            && (r.None? <==> remotes != [] && exists j :: 0 <= j < |merges| && Raises(merges[j]))
            && (r.Some? ==> forall e :: e in r.value <==> e in remotes && Mentions(merges, e.0))
            && (r.Some? ==> |r.value| <= |remotes|)
    decreases |remotes|
  {
    if remotes != [] {
      NamedByAnySpec(merges, remotes[0].0);
      ReferencedSpec(remotes[1..], merges);
      var r := Referenced(remotes, merges);
      if r.Some? {
        forall e ensures e in r.value <==> e in remotes && Mentions(merges, e.0) {
          if e in remotes && e != remotes[0] {
            var k :| 0 <= k < |remotes| && remotes[k] == e;
            assert remotes[1..][k - 1] == e;
          }
        }
      }
    }
  }

  method ReferencedRemotes(remotes: seq<(string, Yaml)>, merges: seq<Yaml>) returns (r: Option<seq<(string, Yaml)>>)
    ensures r == Referenced(remotes, merges)
  {
    var tmp: seq<(string, Yaml)> := [];
    var i := 0;
    PrependPrepend(tmp, tmp, Referenced(remotes, merges));
    while i < |remotes|
      invariant 0 <= i <= |remotes|
      invariant Referenced(remotes, merges) == Prepend(tmp, Referenced(remotes[i..], merges))
    {
      assert remotes[i..][1..] == remotes[i + 1..];
      var key := remotes[i].0;
      var found := false;
      var j := 0;
      while j < |merges|
        invariant 0 <= j <= |merges|
        invariant NamedByAny(merges, key) == OrElse(found, NamedByAny(merges[j..], key))
      {
        assert merges[j..][1..] == merges[j + 1..];
        var named := NamesRemote(merges[j], key);
        if named.None? {
          return None;
        }
        found := found || named.value;
        j := j + 1;
      }
      PrependPrepend(tmp, if found then [remotes[i]] else [], Referenced(remotes[i + 1..], merges));
      if found {
        tmp := tmp + [remotes[i]];
      } else {
        assert tmp + [] == tmp;
      }
      i := i + 1;
    }
    assert remotes[i..] == [];
    assert Referenced(remotes[i..], merges) == Some([]);
    assert tmp + [] == tmp;
    r := Some(tmp);
  }

  // ---------------------------------------------------------------------
  // Merge items (lines 277-345)

  /** The spellings of "the Odoo version" that a `ref` may use. */
  function Placeholders(): set<string> {
    {"", "ODOO_VERSION", "$ODOO_VERSION", "\"$ODOO_VERSION\"", "${ODOO_VERSION}", "\"${ODOO_VERSION}\""}
  }

  /** One merge item: Go(merge) when it is kept, Drop when it is ignored,
      Raise where a list or mapping meets a hash-based membership test. */
  function MergeItem(m: Yaml, referenced: seq<(string, Yaml)>, version: string): Step<Merge> {
    if !m.YMap? then Drop
    else
      var remote := Get(m.entries, "remote");
      if remote.None? || remote.value == YStr("") then Drop
      else if Unhashable(remote.value) then Raise
      else if !remote.value.YStr? || Get(referenced, remote.value.s).None? then Drop
      else
        var ref := Get(m.entries, "ref");
        if ref.Some? && Unhashable(ref.value) then Raise
        else if ref.Some? && !ref.value.YStr? then Drop
        else
          var r := if ref.None? || ref.value.s in Placeholders() then version else ref.value.s;
          var depth := Get(m.entries, "depth");
          if depth.Some? && !depth.value.YInt? then Drop
          else Go(Merge(remote.value.s, r, Count(if depth.None? then 1 else depth.value.i)))
  }

  /** The kept merge items, in order; None where one raises. */
  function Surviving(items: seq<Yaml>, referenced: seq<(string, Yaml)>, version: string): Option<seq<Merge>>
    decreases |items|
  {
    if items == [] then Some([])
    else
      match MergeItem(items[0], referenced, version)
      case Raise => None
      case Drop => Surviving(items[1..], referenced, version)
      case Go(mg) => Prepend([mg], Surviving(items[1..], referenced, version))
  }

  method FilterMerges(items: seq<Yaml>, referenced: seq<(string, Yaml)>, version: string) returns (r: Option<seq<Merge>>)
    ensures r == Surviving(items, referenced, version)
  {
    var kept: seq<Merge> := [];
    var i := 0;
    PrependPrepend(kept, kept, Surviving(items, referenced, version));
    while i < |items|
      invariant 0 <= i <= |items|
      invariant Surviving(items, referenced, version) == Prepend(kept, Surviving(items[i..], referenced, version))
    {
      assert items[i..][1..] == items[i + 1..] && items[i..][0] == items[i];
      var item := MergeItem(items[i], referenced, version);
      if item.Raise? {
        return None;
      }
      if item.Go? {
        PrependPrepend(kept, [item.value], Surviving(items[i + 1..], referenced, version));
        kept := kept + [item.value];
      }
      i := i + 1;
    }
    assert items[i..] == [] && kept + [] == kept;
    r := Some(kept);
  }

  /** With more than one merge, a depth of 1 becomes WAFT_DEPTH_MERGE. */
  function DeepenEach(ms: seq<Merge>, depthMerge: string): (r: seq<Merge>)
    ensures |r| == |ms|
  {
    if ms == [] then []
    else
      var m := ms[0];
      [if m.depth == Count(1) then m.(depth := Setting(depthMerge)) else m] + DeepenEach(ms[1..], depthMerge)
  }

  method Deepen(ms: seq<Merge>, depthMerge: string) returns (r: seq<Merge>)
    ensures r == DeepenEach(ms, depthMerge)
  {
    r := [];
    var i := 0;
    while i < |ms|
      invariant 0 <= i <= |ms|
      invariant r + DeepenEach(ms[i..], depthMerge) == DeepenEach(ms, depthMerge)
    {
      assert ms[i..][1..] == ms[i + 1..] && ms[i..][0] == ms[i];
      var m := ms[i];
      if m.depth == Count(1) {
        m := m.(depth := Setting(depthMerge));
      }
      assert DeepenEach(ms[i..], depthMerge) == [m] + DeepenEach(ms[i + 1..], depthMerge);
      assert r + DeepenEach(ms[i..], depthMerge) == (r + [m]) + DeepenEach(ms[i + 1..], depthMerge);
      r := r + [m];
      i := i + 1;
    }
    assert ms[i..] == [];
  }

  // ---------------------------------------------------------------------
  // Remotes of the record (lines 367-377)

  predicate UsesRemote(ms: seq<Merge>, key: string) {
    exists j :: 0 <= j < |ms| && ms[j].remote == key
  }

  /** The referenced remotes some kept merge uses. */
  function UsedBy(tmp: seq<(string, Yaml)>, ms: seq<Merge>): seq<(string, Yaml)>
    decreases |tmp|
  {
    if tmp == [] then []
    else (if UsesRemote(ms, tmp[0].0) then [tmp[0]] else []) + UsedBy(tmp[1..], ms)
  }

  method UsedRemotes(tmp: seq<(string, Yaml)>, ms: seq<Merge>) returns (r: seq<(string, Yaml)>)
    ensures r == UsedBy(tmp, ms)
  {
    r := [];
    var i := 0;
    while i < |tmp|
      invariant 0 <= i <= |tmp|
      invariant r + UsedBy(tmp[i..], ms) == UsedBy(tmp, ms)
    {
      assert tmp[i..][1..] == tmp[i + 1..];
      var used := false;
      var j := 0;
      while j < |ms|
        invariant 0 <= j <= |ms|
        invariant used <==> exists k :: 0 <= k < j && ms[k].remote == tmp[i].0
      {
        if ms[j].remote == tmp[i].0 {
          used := true;
        }
        j := j + 1;
      }
      if used {
        r := r + [tmp[i]];
      }
      i := i + 1;
    }
    assert tmp[i..] == [];
  }

  // ---------------------------------------------------------------------
  // Target (lines 378-417)

  /** "remote ref" of the first merge. */
  function DefaultTarget(ms: seq<Merge>): string {
    if ms == [] then "" else ms[0].remote + " " + ms[0].ref
  }

  /** The record's target: empty for a well-formed target (it is not
      copied), the default otherwise; None where the first token of a
      non-string or blank target is read (`IndexError`). */
  function TargetOf(d: seq<(string, Yaml)>, referenced: seq<(string, Yaml)>, ms: seq<Merge>): Option<string> {
    match Get(d, "target")
    case None => Some(DefaultTarget(ms))
    case Some(t) =>
      var tokens := if t.YStr? then Words(t.s) else [];
      if tokens == [] then None
      else if |tokens| != 2 || Get(referenced, tokens[0]).None? then Some(DefaultTarget(ms))
      else Some("")
  }

  // ---------------------------------------------------------------------
  // Addons (lines 422-464)

  /** Each item joined onto the repository path; None where an item is not
      a string (`os.path.join` raises). */
  function Paths(full: string, items: seq<Yaml>): Option<seq<string>>
    decreases |items|
  {
    if items == [] then Some([])
    else if !items[0].YStr? then None
    else Prepend([PathJoin(full, items[0].s)], Paths(full, items[1..]))
  }

  method JoinPaths(full: string, items: seq<Yaml>) returns (r: Option<seq<string>>)
    ensures r == Paths(full, items)
  {
    var paths: seq<string> := [];
    var i := 0;
    PrependPrepend(paths, paths, Paths(full, items));
    while i < |items|
      invariant 0 <= i <= |items|
      invariant Paths(full, items) == Prepend(paths, Paths(full, items[i..]))
    {
      assert items[i..][1..] == items[i + 1..] && items[i..][0] == items[i];
      if !items[i].YStr? {
        return None;
      }
      PrependPrepend(paths, [PathJoin(full, items[i].s)], Paths(full, items[i + 1..]));
      paths := paths + [PathJoin(full, items[i].s)];
      i := i + 1;
    }
    assert items[i..] == [] && paths + [] == paths;
    r := Some(paths);
  }

  /** `addons` or `addons_except` of entry `d`: the joined list when it is
      a list, `fallback` when it is missing or not a list; None where the
      entry is not a mapping and the test or the lookup raises. */
  function AddonList(d: Yaml, key: string, full: string, fallback: seq<string>): Option<seq<string>> {
    match Has(key, d)
    case None => None
    case Some(false) => Some(fallback)
    case Some(true) =>
      if !d.YMap? then None
      else
        match Get(d.entries, key)
        case Some(YList(items)) => Paths(full, items)
        case _ => Some(fallback)
  }

  method Addons(d: Yaml, key: string, full: string, fallback: seq<string>) returns (r: Option<seq<string>>)
    ensures r == AddonList(d, key, full, fallback)
  {
    var has := Has(key, d);
    if has.None? || (has.value && !d.YMap?) {
      return None;
    }
    if !has.value {
      return Some(fallback);
    }
    var v := Get(d.entries, key);
    if v.Some? && v.value.YList? {
      r := JoinPaths(full, v.value.items);
    } else {
      r := Some(fallback);
    }
  }

  // ---------------------------------------------------------------------
  // One entry (lines 223-465)

  /** The merges of an entry, the remotes they named, and whether the
      single default merge was generated. */
  datatype MergePlan = MergePlan(referenced: seq<(string, Yaml)>, merges: seq<Merge>, generated: bool)

  function DefaultMerge(remotes: seq<(string, Yaml)>, version: string): seq<Merge>
    requires remotes != []
  {
    [Merge(remotes[0].0, version, Count(1))]
  }

  /** Lines 241-366. */
  function PlanOf(d: seq<(string, Yaml)>, remotes: seq<(string, Yaml)>, version: string, depthMerge: string): Step<MergePlan> {
    var listed := Get(d, "merges");
    if listed.None? && remotes != [] then Go(MergePlan([], DefaultMerge(remotes, version), true))
    else if listed.None? || !listed.value.YList? then Drop
    else
      match Referenced(remotes, listed.value.items)
      case None => Raise
      case Some(tmp) =>
        if tmp == [] || remotes == [] then Drop
        else
          match Surviving(listed.value.items, tmp, version)
          case None => Raise
          case Some(ms) =>
            if ms == [] then Go(MergePlan(tmp, DefaultMerge(remotes, version), true))
            else Go(MergePlan(tmp, if |ms| > 1 then DeepenEach(ms, depthMerge) else ms, false))
  }

  /** Lines 367-377. */
  function RemotesOf(remotes: seq<(string, Yaml)>, plan: MergePlan): seq<(string, Yaml)> {
    if plan.generated then (if remotes == [] then [] else [remotes[0]])
    else if |plan.referenced| > 1 then UsedBy(plan.referenced, plan.merges)
    else []
  }

  /** What the first pass does with entry `sub: d`. */
  datatype Entry = Skipped | Stored(path: string, repo: Repo) | Raised

  /** Lines 224-240: the remotes mapping of an entry worth reading. */
  function RemotesStep(sub: string, d: Yaml): (r: Step<seq<(string, Yaml)>>)
    ensures r.Go? ==> d.YMap?
  {
    if sub == "enterprise" || sub == "private" then Drop
    else
      match Has("remotes", d)
      case None => Raise
      case Some(false) => Drop
      case Some(true) =>
        if !d.YMap? then Raise
        else
          match Get(d.entries, "remotes")
          case Some(YMap(remotes)) => Go(remotes)
          case _ => Drop
  }

  function Normalised(codeDir: string, version: string, depthMerge: string, sub: string, d: Yaml): Entry {
    match RemotesStep(sub, d)
    case Drop => Skipped
    case Raise => Raised
    case Go(remotes) =>
      match PlanOf(d.entries, remotes, version, depthMerge)
      case Drop => Skipped
      case Raise => Raised
      case Go(plan) =>
        var full := PathJoin(codeDir, sub);
        match TargetOf(d.entries, plan.referenced, plan.merges)
        case None => Raised
        case Some(target) =>
          match AddonList(d, "addons", full, [PathJoin(full, "*")])
          case None => Raised
          case Some(addons) =>
            match AddonList(d, "addons_except", full, [])
            case None => Raised
            case Some(except) =>
              Stored(full, Repo(RemotesOf(remotes, plan), target, plan.merges, addons, except))
  }

  /** Lines 241-366, with the loops of the source. */
  method PlanMerges(d: seq<(string, Yaml)>, remotes: seq<(string, Yaml)>, version: string, depthMerge: string)
    returns (plan: Step<MergePlan>)
    ensures plan == PlanOf(d, remotes, version, depthMerge)
  {
    var listed := Get(d, "merges");
    if listed.None? && remotes != [] {
      return Go(MergePlan([], DefaultMerge(remotes, version), true));
    }
    if listed.None? || !listed.value.YList? {
      return Drop;
    }
    var tmp := ReferencedRemotes(remotes, listed.value.items);
    if tmp.None? {
      return Raise;
    }
    if tmp.value == [] || remotes == [] {
      return Drop;
    }
    var ms := FilterMerges(listed.value.items, tmp.value, version);
    if ms.None? {
      return Raise;
    }
    if ms.value == [] {
      return Go(MergePlan(tmp.value, DefaultMerge(remotes, version), true));
    }
    var merges := ms.value;
    if |merges| > 1 {
      merges := Deepen(merges, depthMerge);
    }
    plan := Go(MergePlan(tmp.value, merges, false));
  }

  /** One pass of the loop over the file's entries (lines 224-465). */
  method NormaliseEntry(codeDir: string, version: string, depthMerge: string, sub: string, d: Yaml) returns (e: Entry)
    ensures e == Normalised(codeDir, version, depthMerge, sub, d)
  {
    var step := RemotesStep(sub, d);
    if step.Drop? {
      return Skipped;
    }
    if step.Raise? {
      return Raised;
    }
    var remotes := step.value;
    var plan := PlanMerges(d.entries, remotes, version, depthMerge);
    if plan.Drop? {
      return Skipped;
    }
    if plan.Raise? {
      return Raised;
    }
    var outRemotes: seq<(string, Yaml)> := [];
    if plan.value.generated {
      if remotes != [] {
        outRemotes := [remotes[0]];
      }
    } else if |plan.value.referenced| > 1 {
      outRemotes := UsedRemotes(plan.value.referenced, plan.value.merges);
    }
    var target := TargetOf(d.entries, plan.value.referenced, plan.value.merges);
    if target.None? {
      return Raised;
    }
    var full := PathJoin(codeDir, sub);
    var addons := Addons(d, "addons", full, [PathJoin(full, "*")]);
    if addons.None? {
      return Raised;
    }
    var except := Addons(d, "addons_except", full, []);
    if except.None? {
      return Raised;
    }
    e := Stored(full, Repo(outRemotes, target.value, plan.value.merges, addons.value, except.value));
  }

  // ---------------------------------------------------------------------
  // The whole file (lines 222-535, without 468-481)

  /** The first pass: every entry in file order, a later record for the
      same directory replacing an earlier one. */
  function FirstPass(codeDir: string, version: string, depthMerge: string, es: seq<(string, Yaml)>, acc: map<string, Repo>)
    : Option<map<string, Repo>>
    decreases |es|
  {
    if es == [] then Some(acc)
    else
      match Normalised(codeDir, version, depthMerge, es[0].0, es[0].1)
      case Raised => None
      case Skipped => FirstPass(codeDir, version, depthMerge, es[1..], acc)
      case Stored(path, repo) => FirstPass(codeDir, version, depthMerge, es[1..], acc[path := repo])
  }

  /** The record of `enterprise` or `private`: no remotes, target or
      merges, only addon globs (lines 483-532). */
  function Extra(codeDir: string, es: seq<(string, Yaml)>, name: string): Step<Repo> {
    match Get(es, name)
    case None => Drop
    case Some(d) =>
      var full := PathJoin(codeDir, name);
      match AddonList(d, "addons", full, [PathJoin(full, "*")])
      case None => Raise
      case Some(addons) =>
        match AddonList(d, "addons_except", full, [])
        case None => Raise
        case Some(except) => Go(Repo([], "", [], addons, except))
  }

  function AddExtra(codeDir: string, m: Option<map<string, Repo>>, name: string, x: Step<Repo>): Option<map<string, Repo>> {
    match m
    case None => None
    case Some(acc) =>
      match x
      case Drop => m
      case Raise => None
      case Go(repo) => Some(acc[PathJoin(codeDir, name) := repo])
  }

  /** Both extra records, taking `enterprise` first or `private` first. */
  function Extras(codeDir: string, es: seq<(string, Yaml)>, enterpriseFirst: bool): Option<map<string, Repo>> {
    var first := if enterpriseFirst then "enterprise" else "private";
    var second := if enterpriseFirst then "private" else "enterprise";
    AddExtra(codeDir, AddExtra(codeDir, Some(map[]), first, Extra(codeDir, es, first)), second, Extra(codeDir, es, second))
  }

  /** The normalised configuration, keyed by repository directory; None
      where the repository loop raises.  The default main-odoo entry of
      lines 468-481 is not modelled.  The two extra records are taken in
      the order `enterpriseFirst` says (the source iterates over a set). */
  function CodeConfig(codeDir: string, version: string, depthMerge: string, file: Yaml, enterpriseFirst: bool)
    : Option<map<string, Repo>>
  {
    match file
    case YMap(es) => MappingConfig(codeDir, version, depthMerge, es, enterpriseFirst)
    case YList(items) => if items == [] then Some(map[]) else None
    case YStr(s) => if s == "" then Some(map[]) else None
    case _ => None
  }

  /** A file holding a mapping: the extra records, overridden by the
      records of the first pass (lines 534-535). */
  function MappingConfig(codeDir: string, version: string, depthMerge: string, es: seq<(string, Yaml)>, enterpriseFirst: bool)
    : Option<map<string, Repo>>
  {
    match FirstPass(codeDir, version, depthMerge, es, map[])
    case None => None
    case Some(tmp) =>
      match Extras(codeDir, es, enterpriseFirst)
      case None => None
      case Some(extras) => Some(extras + tmp)
  }

  method LoadCodeConfig(codeDir: string, version: string, depthMerge: string, file: Yaml, enterpriseFirst: bool)
    returns (r: Option<map<string, Repo>>)
    ensures r == CodeConfig(codeDir, version, depthMerge, file, enterpriseFirst)
  {
    if !file.YMap? {
      if file == YList([]) || file == YStr("") {
        return Some(map[]);
      }
      return None;
    }
    var es := file.entries;
    var tmp: map<string, Repo> := map[];
    var i := 0;
    while i < |es|
      invariant 0 <= i <= |es|
      invariant FirstPass(codeDir, version, depthMerge, es, map[]) == FirstPass(codeDir, version, depthMerge, es[i..], tmp)
    {
      assert es[i..][1..] == es[i + 1..] && es[i..][0] == es[i];
      var e := NormaliseEntry(codeDir, version, depthMerge, es[i].0, es[i].1);
      if e.Raised? {
        return None;
      }
      if e.Stored? {
        tmp := tmp[e.path := e.repo];
      }
      i := i + 1;
    }
    assert es[i..] == [];
    var extras: map<string, Repo> := map[];
    var names := if enterpriseFirst then ["enterprise", "private"] else ["private", "enterprise"];
    var x := Extra(codeDir, es, names[0]);
    if x.Raise? {
      return None;
    }
    if x.Go? {
      extras := extras[PathJoin(codeDir, names[0]) := x.value];
    }
    x := Extra(codeDir, es, names[1]);
    if x.Raise? {
      return None;
    }
    if x.Go? {
      extras := extras[PathJoin(codeDir, names[1]) := x.value];
    }
    r := Some(extras + tmp);
  }

  // ---------------------------------------------------------------------
  // Properties of the pieces

  /** A merge item is kept exactly when it is a mapping whose `remote` is
      a non-empty string naming a referenced remote, whose `ref` is absent
      or a string and whose `depth` is absent or an integer.  A kept merge
      never carries a spelling of the version in place of the version, and
      its depth defaults to 1. */
  lemma MergeItemKept(m: Yaml, tmp: seq<(string, Yaml)>, version: string)
    ensures MergeItem(m, tmp, version).Go? <==>
            && m.YMap?
            && Get(m.entries, "remote").Some? && Get(m.entries, "remote").value.YStr?
            && Get(m.entries, "remote").value.s != ""
            && Get(tmp, Get(m.entries, "remote").value.s).Some?
            && (Get(m.entries, "ref").None? || Get(m.entries, "ref").value.YStr?)
            && (Get(m.entries, "depth").None? || Get(m.entries, "depth").value.YInt?)
    ensures MergeItem(m, tmp, version).Go? ==>
            var mg := MergeItem(m, tmp, version).value;
            && Get(m.entries, "remote") == Some(YStr(mg.remote))
            && (mg.ref in Placeholders() ==> mg.ref == version)
            && (Get(m.entries, "ref").None? ==> mg.ref == version)
            && (Get(m.entries, "depth").None? ==> mg.depth == Count(1))
            && mg.depth.Count?
  {
  }

  /** The list of kept items is there unless some item raises. */
  lemma {:induction false} SurvivingRaises(items: seq<Yaml>, tmp: seq<(string, Yaml)>, version: string)
    ensures Surviving(items, tmp, version).None? <==> exists j :: 0 <= j < |items| && MergeItem(items[j], tmp, version).Raise?
    decreases |items|
  {
    if items != [] {
      var tail := items[1..];
      SurvivingRaises(tail, tmp, version);
      if exists j :: 0 <= j < |items| && MergeItem(items[j], tmp, version).Raise? {
        var j :| 0 <= j < |items| && MergeItem(items[j], tmp, version).Raise?;
        if j > 0 {
          assert tail[j - 1] == items[j];
        }
      }
      if exists j :: 0 <= j < |tail| && MergeItem(tail[j], tmp, version).Raise? {
        var j :| 0 <= j < |tail| && MergeItem(tail[j], tmp, version).Raise?;
        assert tail[j] == items[j + 1];
      }
    }
  }

  /** Every kept merge is the kept form of some item. */
  lemma {:induction false} SurvivingFrom(items: seq<Yaml>, tmp: seq<(string, Yaml)>, version: string)
    requires Surviving(items, tmp, version).Some?
    ensures var ms := Surviving(items, tmp, version).value;
            && |ms| <= |items|
            && forall k :: 0 <= k < |ms| ==> exists j :: 0 <= j < |items| && MergeItem(items[j], tmp, version) == Go(ms[k])
    decreases |items|
  {
    if items != [] {
      var tail := items[1..];
      var head := MergeItem(items[0], tmp, version);
      SurvivingFrom(tail, tmp, version);
      var ms := Surviving(items, tmp, version).value;
      var rest := Surviving(tail, tmp, version).value;
      assert ms == (if head.Go? then [head.value] else []) + rest;
      forall k | 0 <= k < |ms| ensures exists j :: 0 <= j < |items| && MergeItem(items[j], tmp, version) == Go(ms[k]) {
        if head.Go? && k == 0 {
          assert MergeItem(items[0], tmp, version) == Go(ms[0]);
        } else {
          var k' := if head.Go? then k - 1 else k;
          assert ms[k] == rest[k'];
          var j :| 0 <= j < |tail| && MergeItem(tail[j], tmp, version) == Go(rest[k']);
          assert tail[j] == items[j + 1];
        }
      }
    }
  }

  /** Every kept item's merge is in the list. */
  lemma {:induction false} SurvivingKeeps(items: seq<Yaml>, tmp: seq<(string, Yaml)>, version: string)
    requires Surviving(items, tmp, version).Some?
    ensures forall j :: 0 <= j < |items| && MergeItem(items[j], tmp, version).Go? ==>
              MergeItem(items[j], tmp, version).value in Surviving(items, tmp, version).value
    decreases |items|
  {
    if items != [] {
      var tail := items[1..];
      var head := MergeItem(items[0], tmp, version);
      SurvivingKeeps(tail, tmp, version);
      var ms := Surviving(items, tmp, version).value;
      var rest := Surviving(tail, tmp, version).value;
      assert ms == (if head.Go? then [head.value] else []) + rest;
      forall j | 0 <= j < |items| && MergeItem(items[j], tmp, version).Go?
        ensures MergeItem(items[j], tmp, version).value in ms
      {
        if j > 0 {
          assert tail[j - 1] == items[j];
        }
      }
    }
  }

  /** Deepening keeps remotes and refs, replaces every depth of 1 by the
      WAFT_DEPTH_MERGE setting and changes no other depth. */
  lemma {:induction false} DeepenEachSpec(ms: seq<Merge>, depthMerge: string)
    ensures var r := DeepenEach(ms, depthMerge);
            forall k :: 0 <= k < |ms| ==>
              && r[k].remote == ms[k].remote && r[k].ref == ms[k].ref
              && r[k].depth != Count(1)
              && (ms[k].depth == Count(1) ==> r[k].depth == Setting(depthMerge))
              && (ms[k].depth != Count(1) ==> r[k].depth == ms[k].depth)
    decreases |ms|
  {
    if ms != [] {
      DeepenEachSpec(ms[1..], depthMerge);
      var r := DeepenEach(ms, depthMerge);
      assert forall k :: 1 <= k < |ms| ==> r[k] == DeepenEach(ms[1..], depthMerge)[k - 1] && ms[k] == ms[1..][k - 1];
    }
  }

  /** The record's remotes out of `tmp` are exactly those a merge uses. */
  lemma {:induction false} UsedBySpec(tmp: seq<(string, Yaml)>, ms: seq<Merge>)
    ensures forall e :: e in UsedBy(tmp, ms) <==> e in tmp && UsesRemote(ms, e.0)
    decreases |tmp|
  {
    if tmp != [] {
      UsedBySpec(tmp[1..], ms);
      forall e | e in tmp && e != tmp[0] ensures e in tmp[1..] {
        var k :| 0 <= k < |tmp| && tmp[k] == e;
        assert tmp[1..][k - 1] == e;
      }
    }
  }

  /** A list of strings is joined item by item onto the repository path;
      any other item makes the join raise. */
  lemma {:induction false} PathsSpec(full: string, items: seq<Yaml>)
    ensures Paths(full, items).Some? <==> forall k :: 0 <= k < |items| ==> items[k].YStr?
    ensures Paths(full, items).Some? ==>
            var r := Paths(full, items).value;
            |r| == |items| && forall k :: 0 <= k < |items| ==> r[k] == PathJoin(full, items[k].s)
    decreases |items|
  {
    if items != [] {
      PathsSpec(full, items[1..]);
      assert forall k :: 1 <= k < |items| ==> items[k] == items[1..][k - 1];
    }
  }

  predicate WellFormedTarget(d: seq<(string, Yaml)>, tmp: seq<(string, Yaml)>) {
    && Get(d, "target").Some? && Get(d, "target").value.YStr?
    && |Words(Get(d, "target").value.s)| == 2
    && Get(tmp, Words(Get(d, "target").value.s)[0]).Some?
  }

  /** A well-formed target (two words, the first a referenced remote)
      leaves the record's target empty; a missing or malformed one gives
      "remote ref" of the first merge; a non-string or blank one raises. */
  lemma TargetSpec(d: seq<(string, Yaml)>, tmp: seq<(string, Yaml)>, ms: seq<Merge>)
    requires ms != []
    ensures TargetOf(d, tmp, ms).None? <==>
            Get(d, "target").Some? && (Get(d, "target").value.YStr? ==> Words(Get(d, "target").value.s) == [])
    ensures TargetOf(d, tmp, ms) == Some("") <==> WellFormedTarget(d, tmp)
    ensures TargetOf(d, tmp, ms).Some? && !WellFormedTarget(d, tmp) ==>
            TargetOf(d, tmp, ms) == Some(ms[0].remote + " " + ms[0].ref)
  {
    assert |DefaultTarget(ms)| > 0;
  }

  // ---------------------------------------------------------------------
  // Properties of an entry

  /** The merges of an entry: never empty, no depth of 1 among several,
      and the single default merge on the first remote exactly when the
      entry has no `merges` or none of its items is kept. */
  lemma PlanShape(d: seq<(string, Yaml)>, remotes: seq<(string, Yaml)>, version: string, depthMerge: string)
    requires PlanOf(d, remotes, version, depthMerge).Go?
    ensures var plan := PlanOf(d, remotes, version, depthMerge).value;
            && plan.merges != []
            && (|plan.merges| > 1 ==> forall k :: 0 <= k < |plan.merges| ==> plan.merges[k].depth != Count(1))
            && (plan.generated ==> remotes != [] && plan.merges == [Merge(remotes[0].0, version, Count(1))])
            && (Get(d, "merges").None? ==> plan.generated && plan.referenced == [])
            && (Get(d, "merges").Some? ==>
                  Get(d, "merges").value.YList? &&
                  (plan.generated <==> Surviving(Get(d, "merges").value.items, plan.referenced, version) == Some([])))
            && (Get(d, "merges").Some? && !plan.generated ==>
                  Surviving(Get(d, "merges").value.items, plan.referenced, version).Some? &&
                  var ms := Surviving(Get(d, "merges").value.items, plan.referenced, version).value;
                  |plan.merges| == |ms| &&
                  forall k :: 0 <= k < |ms| ==>
                    && plan.merges[k].remote == ms[k].remote && plan.merges[k].ref == ms[k].ref
                    && (|ms| > 1 && ms[k].depth == Count(1) ==> plan.merges[k].depth == Setting(depthMerge))
                    && (|ms| == 1 || ms[k].depth != Count(1) ==> plan.merges[k].depth == ms[k].depth))
  {
    var plan := PlanOf(d, remotes, version, depthMerge).value;
    var listed := Get(d, "merges");
    if listed.Some? && !plan.generated {
      var ms := Surviving(listed.value.items, plan.referenced, version).value;
      if |ms| > 1 {
        DeepenEachSpec(ms, depthMerge);
      }
    }
  }

  /** Every kept merge is on a referenced remote. */
  lemma SurvivorsReferenced(items: seq<Yaml>, tmp: seq<(string, Yaml)>, version: string)
    requires Surviving(items, tmp, version).Some?
    ensures var ms := Surviving(items, tmp, version).value;
            forall k :: 0 <= k < |ms| ==> Get(tmp, ms[k].remote).Some?
  {
    var ms := Surviving(items, tmp, version).value;
    SurvivingFrom(items, tmp, version);
    forall k | 0 <= k < |ms| ensures Get(tmp, ms[k].remote).Some? {
      var j :| 0 <= j < |items| && MergeItem(items[j], tmp, version) == Go(ms[k]);
      MergeItemKept(items[j], tmp, version);
    }
  }

  lemma GetSubset(tmp: seq<(string, Yaml)>, remotes: seq<(string, Yaml)>, key: string)
    requires forall e :: e in tmp ==> e in remotes
    requires Get(tmp, key).Some?
    ensures Get(remotes, key).Some?
  {
    var t :| 0 <= t < |tmp| && tmp[t].0 == key;
    assert tmp[t] in remotes;
  }

  /** Every merge of an entry is on a declared remote, and the referenced
      remotes are declared ones. */
  lemma PlanRemotes(d: seq<(string, Yaml)>, remotes: seq<(string, Yaml)>, version: string, depthMerge: string)
    requires PlanOf(d, remotes, version, depthMerge).Go?
    ensures var plan := PlanOf(d, remotes, version, depthMerge).value;
            && (forall e :: e in plan.referenced ==> e in remotes)
            && (forall k :: 0 <= k < |plan.merges| ==> Get(remotes, plan.merges[k].remote).Some?)
  {
    var plan := PlanOf(d, remotes, version, depthMerge).value;
    var listed := Get(d, "merges");
    if listed.Some? {
      ReferencedSpec(remotes, listed.value.items);
    }
    if !plan.generated {
      var items := listed.value.items;
      var tmp := plan.referenced;
      var ms := Surviving(items, tmp, version).value;
      SurvivorsReferenced(items, tmp, version);
      if |ms| > 1 {
        DeepenEachSpec(ms, depthMerge);
      }
      forall k | 0 <= k < |plan.merges| ensures Get(remotes, plan.merges[k].remote).Some? {
        assert plan.merges[k].remote == ms[k].remote;
        GetSubset(tmp, remotes, ms[k].remote);
      }
    } else {
      assert plan.merges[0].remote == remotes[0].0;
    }
  }

  /** What the first pass reads of a stored entry, and where it stores it. */
  lemma StoredEntry(codeDir: string, version: string, depthMerge: string, sub: string, d: Yaml)
    requires Normalised(codeDir, version, depthMerge, sub, d).Stored?
    ensures sub != "enterprise" && sub != "private"
    ensures d.YMap? && Get(d.entries, "remotes").Some? && Get(d.entries, "remotes").value.YMap?
    ensures Normalised(codeDir, version, depthMerge, sub, d).path == PathJoin(codeDir, sub)
    ensures PlanOf(d.entries, Get(d.entries, "remotes").value.entries, version, depthMerge).Go?
  {
  }

  /** The merges of a stored record (see `PlanShape`), and the default
      merge and single remote of an entry without `merges`. */
  lemma StoredMerges(codeDir: string, version: string, depthMerge: string, sub: string, d: Yaml)
    requires Normalised(codeDir, version, depthMerge, sub, d).Stored?
    ensures d.YMap? && Get(d.entries, "remotes").Some? && Get(d.entries, "remotes").value.YMap?
    ensures var repo := Normalised(codeDir, version, depthMerge, sub, d).repo;
            var remotes := Get(d.entries, "remotes").value.entries;
            && repo.merges != []
            && (|repo.merges| > 1 ==> forall k :: 0 <= k < |repo.merges| ==> repo.merges[k].depth != Count(1))
            && (forall k :: 0 <= k < |repo.merges| ==> Get(remotes, repo.merges[k].remote).Some?)
            && (Get(d.entries, "merges").None? ==>
                  remotes != [] && repo.merges == [Merge(remotes[0].0, version, Count(1))] && repo.remotes == [remotes[0]])
            && (|repo.merges| > 1 ==>
                  Get(d.entries, "merges").Some? && Get(d.entries, "merges").value.YList? &&
                  var items := Get(d.entries, "merges").value.items;
                  Referenced(remotes, items).Some? &&
                  Surviving(items, Referenced(remotes, items).value, version).Some? &&
                  var ms := Surviving(items, Referenced(remotes, items).value, version).value;
                  |repo.merges| == |ms| &&
                  forall k :: 0 <= k < |ms| ==>
                    && repo.merges[k].remote == ms[k].remote && repo.merges[k].ref == ms[k].ref
                    && (ms[k].depth == Count(1) ==> repo.merges[k].depth == Setting(depthMerge))
                    && (ms[k].depth != Count(1) ==> repo.merges[k].depth == ms[k].depth))
  {
    StoredEntry(codeDir, version, depthMerge, sub, d);
    var remotes := Get(d.entries, "remotes").value.entries;
    PlanShape(d.entries, remotes, version, depthMerge);
    PlanRemotes(d.entries, remotes, version, depthMerge);
  }

  /** The remotes of a stored record are declared remotes used by one of
      its merges: the first remote when the merge was generated, those used
      among the referenced ones when more than one is referenced, and none
      when exactly one is. */
  lemma StoredRemotes(codeDir: string, version: string, depthMerge: string, sub: string, d: Yaml)
    requires Normalised(codeDir, version, depthMerge, sub, d).Stored?
    ensures d.YMap? && Get(d.entries, "remotes").Some? && Get(d.entries, "remotes").value.YMap?
    ensures var repo := Normalised(codeDir, version, depthMerge, sub, d).repo;
            var remotes := Get(d.entries, "remotes").value.entries;
            var plan := PlanOf(d.entries, remotes, version, depthMerge);
            && plan.Go?
            && (forall e :: e in repo.remotes ==> e in remotes && UsesRemote(repo.merges, e.0))
            && (plan.value.generated ==> repo.remotes == [remotes[0]])
            && (!plan.value.generated && |plan.value.referenced| > 1 ==>
                  forall e :: e in repo.remotes <==> e in plan.value.referenced && UsesRemote(repo.merges, e.0))
            && (!plan.value.generated && |plan.value.referenced| <= 1 ==> repo.remotes == [])
  {
    StoredEntry(codeDir, version, depthMerge, sub, d);
    var remotes := Get(d.entries, "remotes").value.entries;
    var plan := PlanOf(d.entries, remotes, version, depthMerge).value;
    PlanShape(d.entries, remotes, version, depthMerge);
    PlanRemotes(d.entries, remotes, version, depthMerge);
    if plan.generated {
      assert plan.merges[0].remote == remotes[0].0;
    } else if |plan.referenced| > 1 {
      UsedBySpec(plan.referenced, plan.merges);
    }
  }

  /** The target of a stored record: empty for a well-formed target,
      "remote ref" of its first merge otherwise. */
  lemma StoredTarget(codeDir: string, version: string, depthMerge: string, sub: string, d: Yaml)
    requires Normalised(codeDir, version, depthMerge, sub, d).Stored?
    ensures d.YMap? && Get(d.entries, "remotes").Some? && Get(d.entries, "remotes").value.YMap?
    ensures var repo := Normalised(codeDir, version, depthMerge, sub, d).repo;
            var plan := PlanOf(d.entries, Get(d.entries, "remotes").value.entries, version, depthMerge);
            && plan.Go?
            && (repo.target == "" <==> WellFormedTarget(d.entries, plan.value.referenced))
            && (repo.target != "" ==> repo.target == repo.merges[0].remote + " " + repo.merges[0].ref)
  {
    StoredEntry(codeDir, version, depthMerge, sub, d);
    var remotes := Get(d.entries, "remotes").value.entries;
    var plan := PlanOf(d.entries, remotes, version, depthMerge).value;
    PlanShape(d.entries, remotes, version, depthMerge);
    TargetSpec(d.entries, plan.referenced, plan.merges);
  }

  /** `addons` and `addons_except` of a stored record: the repository glob
      and nothing when missing or not a list; the items joined onto the
      repository path, in order, when a list. */
  lemma StoredAddons(codeDir: string, version: string, depthMerge: string, sub: string, d: Yaml)
    requires Normalised(codeDir, version, depthMerge, sub, d).Stored?
    ensures d.YMap?
    ensures var repo := Normalised(codeDir, version, depthMerge, sub, d).repo;
            var full := PathJoin(codeDir, sub);
            var a := Get(d.entries, "addons");
            var x := Get(d.entries, "addons_except");
            && ((a.None? || !a.value.YList?) ==> repo.addons == [PathJoin(full, "*")])
            && (a.Some? && a.value.YList? ==>
                  |repo.addons| == |a.value.items| &&
                  forall k :: 0 <= k < |a.value.items| ==> a.value.items[k].YStr? && repo.addons[k] == PathJoin(full, a.value.items[k].s))
            && ((x.None? || !x.value.YList?) ==> repo.addonsExcept == [])
            && (x.Some? && x.value.YList? ==>
                  |repo.addonsExcept| == |x.value.items| &&
                  forall k :: 0 <= k < |x.value.items| ==> x.value.items[k].YStr? && repo.addonsExcept[k] == PathJoin(full, x.value.items[k].s))
  {
    StoredEntry(codeDir, version, depthMerge, sub, d);
    var full := PathJoin(codeDir, sub);
    var a := Get(d.entries, "addons");
    var x := Get(d.entries, "addons_except");
    if a.Some? && a.value.YList? {
      PathsSpec(full, a.value.items);
    }
    if x.Some? && x.value.YList? {
      PathsSpec(full, x.value.items);
    }
  }

  /** The first pass ignores `enterprise` and `private`, entries without
      `remotes`, and entries whose `remotes` is not a mapping. */
  lemma EntryIgnored(codeDir: string, version: string, depthMerge: string, sub: string, d: Yaml)
    ensures (|| sub == "enterprise" || sub == "private"
             || Has("remotes", d) == Some(false)
             || (d.YMap? && Get(d.entries, "remotes").Some? && !Get(d.entries, "remotes").value.YMap?))
            ==> Normalised(codeDir, version, depthMerge, sub, d) == Skipped
    ensures sub != "enterprise" && sub != "private" && !d.YMap? ==>
            (Normalised(codeDir, version, depthMerge, sub, d) == Raised <==> Has("remotes", d) != Some(false))
  {
  }

  /** An entry with remotes is still ignored when it has no `merges` and
      no remote, when `merges` is not a list, or when no merge item names
      a declared remote. */
  lemma PlanDropped(d: seq<(string, Yaml)>, remotes: seq<(string, Yaml)>, version: string, depthMerge: string)
    ensures PlanOf(d, remotes, version, depthMerge) == Drop <==>
            || (Get(d, "merges").None? && remotes == [])
            || (Get(d, "merges").Some? && !Get(d, "merges").value.YList?)
            || (Get(d, "merges").Some? && Get(d, "merges").value.YList? &&
                Referenced(remotes, Get(d, "merges").value.items) == Some([]))
  {
    var listed := Get(d, "merges");
    if listed.Some? && listed.value.YList? {
      ReferencedSpec(remotes, listed.value.items);
      var tmp := Referenced(remotes, listed.value.items);
      if tmp.Some? && tmp.value != [] {
        assert tmp.value[0] in remotes;
      }
    }
  }

  // ---------------------------------------------------------------------
  // Properties of the whole file

  predicate StoresAt(codeDir: string, version: string, depthMerge: string, e: (string, Yaml), path: string) {
    var n := Normalised(codeDir, version, depthMerge, e.0, e.1);
    n.Stored? && n.path == path
  }

  /** The first pass raises exactly when some entry does. */
  lemma {:induction false} FirstPassRaises(codeDir: string, version: string, depthMerge: string, es: seq<(string, Yaml)>, acc: map<string, Repo>)
    ensures FirstPass(codeDir, version, depthMerge, es, acc).None? <==>
            exists j :: 0 <= j < |es| && Normalised(codeDir, version, depthMerge, es[j].0, es[j].1).Raised?
    decreases |es|
  {
    if es != [] {
      var tail := es[1..];
      var n := Normalised(codeDir, version, depthMerge, es[0].0, es[0].1);
      var acc' := if n.Stored? then acc[n.path := n.repo] else acc;
      FirstPassRaises(codeDir, version, depthMerge, tail, acc');
      if exists j :: 0 <= j < |es| && Normalised(codeDir, version, depthMerge, es[j].0, es[j].1).Raised? {
        var j :| 0 <= j < |es| && Normalised(codeDir, version, depthMerge, es[j].0, es[j].1).Raised?;
        if j > 0 {
          assert tail[j - 1] == es[j];
        }
      }
      if exists j :: 0 <= j < |tail| && Normalised(codeDir, version, depthMerge, tail[j].0, tail[j].1).Raised? {
        var j :| 0 <= j < |tail| && Normalised(codeDir, version, depthMerge, tail[j].0, tail[j].1).Raised?;
        assert tail[j] == es[j + 1];
      }
    }
  }

  /** After the first pass a directory holds the record of the last entry
      stored there; directories no entry stores at keep what they had. */
  lemma {:induction false} FirstPassLast(codeDir: string, version: string, depthMerge: string, es: seq<(string, Yaml)>,
                                         acc: map<string, Repo>, path: string)
    requires FirstPass(codeDir, version, depthMerge, es, acc).Some?
    ensures var out := FirstPass(codeDir, version, depthMerge, es, acc).value;
            && (path in out <==> path in acc || exists j :: 0 <= j < |es| && StoresAt(codeDir, version, depthMerge, es[j], path))
            && (forall j :: (0 <= j < |es| && StoresAt(codeDir, version, depthMerge, es[j], path) &&
                             (forall j' :: j < j' < |es| ==> !StoresAt(codeDir, version, depthMerge, es[j'], path))) ==>
                  out[path] == Normalised(codeDir, version, depthMerge, es[j].0, es[j].1).repo)
            && ((forall j :: 0 <= j < |es| ==> !StoresAt(codeDir, version, depthMerge, es[j], path)) ==>
                  path in out && path in acc ==> out[path] == acc[path])
    decreases |es|
  {
    if es != [] {
      var tail := es[1..];
      var n := Normalised(codeDir, version, depthMerge, es[0].0, es[0].1);
      var acc' := if n.Stored? then acc[n.path := n.repo] else acc;
      FirstPassLast(codeDir, version, depthMerge, tail, acc', path);
      var out := FirstPass(codeDir, version, depthMerge, es, acc).value;
      assert forall j :: 0 <= j < |tail| ==> tail[j] == es[j + 1];
      if exists j :: 0 <= j < |es| && StoresAt(codeDir, version, depthMerge, es[j], path) {
        var j :| 0 <= j < |es| && StoresAt(codeDir, version, depthMerge, es[j], path);
        if j > 0 {
          assert StoresAt(codeDir, version, depthMerge, tail[j - 1], path);
        }
      }
      forall j | 0 <= j < |es| && StoresAt(codeDir, version, depthMerge, es[j], path) &&
                 (forall j' :: j < j' < |es| ==> !StoresAt(codeDir, version, depthMerge, es[j'], path))
        ensures out[path] == Normalised(codeDir, version, depthMerge, es[j].0, es[j].1).repo
      {
        if j == 0 {
          forall j' | 0 <= j' < |tail| ensures !StoresAt(codeDir, version, depthMerge, tail[j'], path) {
            assert tail[j'] == es[j' + 1];
          }
        } else {
          assert tail[j - 1] == es[j];
        }
      }
    }
  }

  lemma AddExtraSwap(codeDir: string, a: string, b: string, xa: Step<Repo>, xb: Step<Repo>)
    requires PathJoin(codeDir, a) != PathJoin(codeDir, b)
    ensures AddExtra(codeDir, AddExtra(codeDir, Some(map[]), a, xa), b, xb)
         == AddExtra(codeDir, AddExtra(codeDir, Some(map[]), b, xb), a, xa)
  {
    if xa.Go? && xb.Go? {
      var pa, pb := PathJoin(codeDir, a), PathJoin(codeDir, b);
      assert map[][pa := xa.value][pb := xb.value] == map[][pb := xb.value][pa := xa.value];
    }
  }

  lemma ExtraPathsDiffer(codeDir: string)
    ensures PathJoin(codeDir, "enterprise") != PathJoin(codeDir, "private")
  {
    var e := PathJoin(codeDir, "enterprise");
    assert EndsWith(e, "enterprise");
    assert e[|e| - 7..] == "enterprise"[3..];
  }

  /** The order in which `enterprise` and `private` are taken (a set's
      iteration order in the source) does not change the result. */
  lemma ExtrasOrder(codeDir: string, es: seq<(string, Yaml)>)
    ensures Extras(codeDir, es, true) == Extras(codeDir, es, false)
  {
    ExtraPathsDiffer(codeDir);
    AddExtraSwap(codeDir, "enterprise", "private", Extra(codeDir, es, "enterprise"), Extra(codeDir, es, "private"));
  }

  /** In the normalised configuration a repository directory holds the
      record of the last entry of the file stored there; the `enterprise`
      and `private` records only fill directories no entry stores at. */
  lemma ConfigRecords(codeDir: string, version: string, depthMerge: string, es: seq<(string, Yaml)>, enterpriseFirst: bool, j: nat)
    requires MappingConfig(codeDir, version, depthMerge, es, enterpriseFirst).Some?
    requires j < |es| && Normalised(codeDir, version, depthMerge, es[j].0, es[j].1).Stored?
    requires var path := Normalised(codeDir, version, depthMerge, es[j].0, es[j].1).path;
             forall j' :: j < j' < |es| ==> !StoresAt(codeDir, version, depthMerge, es[j'], path)
    ensures var n := Normalised(codeDir, version, depthMerge, es[j].0, es[j].1);
            var out := MappingConfig(codeDir, version, depthMerge, es, enterpriseFirst).value;
            n.path in out && out[n.path] == n.repo
  {
    var n := Normalised(codeDir, version, depthMerge, es[j].0, es[j].1);
    assert StoresAt(codeDir, version, depthMerge, es[j], n.path);
    FirstPassLast(codeDir, version, depthMerge, es, map[], n.path);
  }
}
