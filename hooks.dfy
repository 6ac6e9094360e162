/** Finding and classifying the scripts of a migration stage.  A stage's
    scripts come from four directories: the shared and the project hook
    directories, and the version-specific ones of waftlib and of the
    project.  They run in the order of their file names, and a `.link`
    script names a script of the common hook directories to run instead. */
module Hooks {
  import opened Wrappers
  import opened PyStr
  import opened Versions

  /** The part of the filesystem the stage executor reads: directories with
      their entries in `os.listdir` order, and files with their lines. */
  datatype Fs = Fs(dirs: map<string, seq<string>>, files: map<string, seq<string>>)

  /** `os.path.exists`. */
  predicate Exists(fs: Fs, p: string) {
    p in fs.dirs || p in fs.files
  }

  /** A listed script: its file name and its full path. */
  datatype Candidate = Candidate(name: string, path: string)

  /** `listdir_full_paths`: nothing for a missing path, the entries joined
      onto a directory, and None where `os.listdir` raises on a file. */
  function ListDirFull(fs: Fs, dir: string): (r: Option<seq<Candidate>>)
    ensures dir in fs.dirs ==> r.Some? && |r.value| == |fs.dirs[dir]|
    ensures dir in fs.dirs ==> forall i :: 0 <= i < |r.value| ==>
              r.value[i].name == fs.dirs[dir][i] && r.value[i].path == PathJoin(dir, fs.dirs[dir][i])
    ensures !Exists(fs, dir) ==> r == Some([])
    ensures dir !in fs.dirs && dir in fs.files ==> r.None?
  {
    if dir in fs.dirs then
      var names := fs.dirs[dir];
      Some(seq(|names|, i requires 0 <= i < |names| => Candidate(names[i], PathJoin(dir, names[i]))))
    else if dir in fs.files then None
    else Some([])
  }

  /** MIGRATION_PATH for a build directory. */
  function MigrationPath(waftDir: string): string {
    waftDir + "/migration"
  }

  /** The four directories holding the scripts of `stage` for `version`. */
  function StageRoots(waftDir: string, version: nat, stage: string): (r: seq<string>)
    ensures |r| == 4
  {
    var build := "build-" + VersionName(version);
    [ PathJoin(PathJoin(waftDir, "waftlib/migration/hook"), stage),
      PathJoin(PathJoin(MigrationPath(waftDir), "hook"), stage),
      PathJoin(PathJoin(PathJoin(waftDir, "waftlib/migration/" + build), "hook"), stage),
      PathJoin(PathJoin(PathJoin(MigrationPath(waftDir), build), "hook"), stage) ]
  }

  /** The listings of `roots` concatenated in order; None when one of them
      raises. */
  function ListRoots(fs: Fs, roots: seq<string>): (r: Option<seq<Candidate>>)
    ensures r.Some? <==> forall i :: 0 <= i < |roots| ==> ListDirFull(fs, roots[i]).Some?
  {
    if roots == [] then Some([])
    else
      var first := ListDirFull(fs, roots[0]);
      var rest := ListRoots(fs, roots[1..]);
      if first.None? then None
      else if rest.None? then None
      else Some(first.value + rest.value)
  }

  /** The candidates of a stage, listed root by root. */
  function StageCandidates(fs: Fs, waftDir: string, version: nat, stage: string): Option<seq<Candidate>> {
    ListRoots(fs, StageRoots(waftDir, version, stage))
  }

  // ---------------------------------------------------------------------
  // `sorted(scripts, key=lambda x: x[0])`: a stable sort on the file name

  /** Inserts `c` before the first element whose name is not smaller. */
  function Insert(c: Candidate, s: seq<Candidate>): (r: seq<Candidate>)
    ensures multiset(r) == multiset(s) + multiset{c}
  {
    if s == [] then [c]
    else if StrLe(c.name, s[0].name) then [c] + s
    else
      assert s == [s[0]] + s[1..];
      [s[0]] + Insert(c, s[1..])
  }

  function SortByName(cs: seq<Candidate>): (r: seq<Candidate>)
    ensures multiset(r) == multiset(cs)
  {
    if cs == [] then []
    else
      assert cs == [cs[0]] + cs[1..];
      Insert(cs[0], SortByName(cs[1..]))
  }

  predicate SortedByName(s: seq<Candidate>) {
    forall i, j :: 0 <= i < j < |s| ==> StrLe(s[i].name, s[j].name)
  }

  lemma StrLeRefl(a: string)
    ensures StrLe(a, a)
  {
  }

  lemma {:induction false} InsertSorted(c: Candidate, s: seq<Candidate>)
    requires SortedByName(s)
    ensures SortedByName(Insert(c, s))
  {
    if s != [] {
      if StrLe(c.name, s[0].name) {
        var r := [c] + s;
        forall i, j | 0 <= i < j < |r| ensures StrLe(r[i].name, r[j].name) {
          if i == 0 {
            if j > 1 { StrLeTrans(c.name, s[0].name, s[j - 1].name); }
          }
        }
      } else {
        StrLeTotal(c.name, s[0].name);
        assert SortedByName(s[1..]);
        InsertSorted(c, s[1..]);
        var t := Insert(c, s[1..]);
        assert multiset(t) == multiset(s[1..]) + multiset{c};
        var r := [s[0]] + t;
        forall i, j | 0 <= i < j < |r| ensures StrLe(r[i].name, r[j].name) {
          if i == 0 {
            var x := r[j];
            assert x == t[j - 1] && x in multiset(t);
            if x != c {
              assert x in multiset(s[1..]);
              var k :| 0 <= k < |s[1..]| && s[1..][k] == x;
              assert s[k + 1] == x;
            }
          } else {
            assert r[i] == t[i - 1] && r[j] == t[j - 1];
          }
        }
      }
    }
  }

  lemma {:induction false} SortSorted(cs: seq<Candidate>)
    ensures SortedByName(SortByName(cs))
  {
    if cs != [] {
      SortSorted(cs[1..]);
      InsertSorted(cs[0], SortByName(cs[1..]));
    }
  }

  /** The candidates named `n`, in order. */
  function WithName(s: seq<Candidate>, n: string): seq<Candidate> {
    if s == [] then []
    else if s[0].name == n then [s[0]] + WithName(s[1..], n)
    else WithName(s[1..], n)
  }

  lemma WithNameCons(x: Candidate, t: seq<Candidate>, n: string)
    ensures WithName([x] + t, n) == (if x.name == n then [x] else []) + WithName(t, n)
  {
    assert ([x] + t)[0] == x && ([x] + t)[1..] == t;
  }

  /** The step of `InsertWithName` where `c` goes past the head of `s`. */
  lemma InsertWithNameStep(c: Candidate, s: seq<Candidate>, n: string, t: seq<Candidate>)
    requires s != [] && !StrLe(c.name, s[0].name)
    requires t == Insert(c, s[1..])
    requires WithName(t, n) == (if c.name == n then [c] else []) + WithName(s[1..], n)
    ensures WithName(Insert(c, s), n) == (if c.name == n then [c] else []) + WithName(s, n)
  {
    StrLeRefl(c.name);
    var x := s[0];
    assert Insert(c, s) == [x] + t;
    var a := WithName(s[1..], n);
    WithNameCons(x, t, n);
    WithNameCons(x, s[1..], n);
    assert [x] + s[1..] == s;
    if c.name == n {
      assert x.name != n;
      assert WithName(t, n) == [c] + a;
      assert WithName(s, n) == a;
    } else {
      assert WithName(t, n) == a;
    }
  }

  lemma {:induction false} InsertWithName(c: Candidate, s: seq<Candidate>, n: string)
    ensures WithName(Insert(c, s), n) == (if c.name == n then [c] else []) + WithName(s, n)
  {
    if s == [] {
      WithNameCons(c, [], n);
    } else if StrLe(c.name, s[0].name) {
      WithNameCons(c, s, n);
    } else {
      InsertWithName(c, s[1..], n);
      InsertWithNameStep(c, s, n, Insert(c, s[1..]));
    }
  }

  /** The sort is stable: the candidates of one name keep their listing
      order, so equal names from different roots stay in root order. */
  lemma {:induction false} SortStable(cs: seq<Candidate>, n: string)
    ensures WithName(SortByName(cs), n) == WithName(cs, n)
  {
    if cs != [] {
      SortStable(cs[1..], n);
      InsertWithName(cs[0], SortByName(cs[1..]), n);
    }
  }

  // ---------------------------------------------------------------------
  // `run_script`: what a script path comes down to

  datatype ScriptKind = PythonScript | ShellScript | SqlScript

  datatype Resolution =
    | Runs(kind: ScriptKind, script: string)   // run this script
    | UnknownExtension                         // run_script returns False
    | NotFound(subpath: string)                // a link whose target is in neither common directory
    | Unreadable(file: string)                 // opening the file raises
    | TooDeep                                  // the chain of links exceeds the recursion bound

  /** The kind a path's extension selects, if any. */
  function KindOf(p: string): Option<ScriptKind> {
    if EndsWith(p, ".py") then Some(PythonScript)
    else if EndsWith(p, ".sh") then Some(ShellScript)
    else if EndsWith(p, ".sql") then Some(SqlScript)
    else None
  }

  /** The first line of a file (`readline()`), empty for an empty file. */
  function FirstLine(lines: seq<string>): string {
    if lines == [] then "" else lines[0]
  }

  /** The two places a link target may be, in the order they are tried. */
  function LinkTargets(waftDir: string, sub: string): (string, string) {
    (MigrationPath(waftDir) + "/hook/common/" + sub, waftDir + "/waftlib/migration/hook/common/" + sub)
  }

  /** Follows `.link` files, at most `fuel` of them, to the script that runs. */
  function Resolve(fs: Fs, waftDir: string, path: string, fuel: nat): (r: Resolution)
    ensures r.Runs? ==> KindOf(r.script) == Some(r.kind)
    decreases fuel
  {
    if EndsWith(path, ".py") then Runs(PythonScript, path)
    else if EndsWith(path, ".sh") then Runs(ShellScript, path)
    else if EndsWith(path, ".sql") then
      if path in fs.files then Runs(SqlScript, path) else Unreadable(path)
    else if EndsWith(path, ".link") then
      if path !in fs.files then Unreadable(path)
      else if fuel == 0 then TooDeep
      else
        var sub := Strip(FirstLine(fs.files[path]));
        var p1 := LinkTargets(waftDir, sub).0;
        var p2 := LinkTargets(waftDir, sub).1;
        if Exists(fs, p1) then Resolve(fs, waftDir, p1, fuel - 1)
        else if Exists(fs, p2) then Resolve(fs, waftDir, p2, fuel - 1)
        else NotFound(sub)
    else UnknownExtension
  }

  /** A path with a script extension runs itself (a SQL script must be
      readable); any other path that is not a link is skipped. */
  lemma ResolveDirect(fs: Fs, waftDir: string, path: string, fuel: nat)
    ensures (KindOf(path).Some? && (KindOf(path) != Some(SqlScript) || path in fs.files))
            ==> Resolve(fs, waftDir, path, fuel) == Runs(KindOf(path).value, path)
    ensures KindOf(path).None? && !EndsWith(path, ".link") ==> Resolve(fs, waftDir, path, fuel) == UnknownExtension
  {
  }

  /** A link runs what its target runs; the project's common directory is
      tried before waftlib's. */
  lemma ResolveLink(fs: Fs, waftDir: string, path: string, fuel: nat)
    requires EndsWith(path, ".link") && KindOf(path).None? && path in fs.files && fuel > 0
    ensures var sub := Strip(FirstLine(fs.files[path]));
            var p1 := LinkTargets(waftDir, sub).0;
            var p2 := LinkTargets(waftDir, sub).1;
            && (Exists(fs, p1) ==> Resolve(fs, waftDir, path, fuel) == Resolve(fs, waftDir, p1, fuel - 1))
            && (!Exists(fs, p1) && Exists(fs, p2) ==> Resolve(fs, waftDir, path, fuel) == Resolve(fs, waftDir, p2, fuel - 1))
            && (!Exists(fs, p1) && !Exists(fs, p2) ==> Resolve(fs, waftDir, path, fuel) == NotFound(sub))
  {
  }
}
