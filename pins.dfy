/** Pinning the merges of `repos.yaml` to the commits currently checked out
    (`bin/get_pins.py`).  A merge line is `<remote> <branch>`,
    `<remote> <pin>` or `<remote> <branch> <pin>`; the script rewrites each
    line so that it names the commit the build used, and raises a
    repository's `depth` default when a merge needs more history than it
    declares.  The git queries are an oracle. */
module Pins {
  import opened Wrappers
  import opened PyStr

  // ---------------------------------------------------------------------
  // Tokens of a merge line

  /** The tokens `preprocess_merge` reads: the pieces between single
      spaces, with the empty ones dropped. */
  function Fields(line: string): seq<string> {
    NonEmpty(Split(line, ' '))
  }

  /** `list.index(x)`: the first position holding `x`. */
  function FirstIndex(s: seq<string>, x: string): (k: nat)
    requires x in s
    ensures k < |s| && s[k] == x && x !in s[..k]
  {
    if s[0] == x then 0
    else
      var k := FirstIndex(s[1..], x);
      assert s[..k + 1] == [s[0]] + s[1..][..k];
      k + 1
  }

  lemma {:induction false} NonEmptyConcat(a: seq<string>, b: seq<string>)
    ensures NonEmpty(a + b) == NonEmpty(a) + NonEmpty(b)
  {
    if a == [] {
      assert a + b == b;
    } else {
      assert (a + b)[0] == a[0];
      assert (a + b)[1..] == a[1..] + b;
      NonEmptyConcat(a[1..], b);
      if a[0] != [] {
        assert NonEmpty(a + b) == [a[0]] + NonEmpty(a[1..] + b);
        assert NonEmpty(a) == [a[0]] + NonEmpty(a[1..]);
      }
    }
  }

  /** Removing one empty piece keeps the non-empty ones and adds nothing. */
  lemma RemoveEmpty(r: seq<string>, k: nat)
    requires k < |r| && r[k] == ""
    ensures NonEmpty(r[..k] + r[k + 1..]) == NonEmpty(r)
    ensures multiset(r[..k] + r[k + 1..]) <= multiset(r)
  {
    SplitAt(r, k);
    RemoveEmptyPieces(r[..k], r[k], r[k + 1..]);
    RemoveOne(r, k);
  }

  lemma SplitAt(r: seq<string>, k: nat)
    requires k < |r|
    ensures r == r[..k] + ([r[k]] + r[k + 1..])
  {
  }

  lemma RemoveEmptyPieces(a: seq<string>, x: string, b: seq<string>)
    requires x == ""
    ensures NonEmpty(a + b) == NonEmpty(a + ([x] + b))
  {
    NonEmptyConcat(a, [x] + b);
    NonEmptySkip(x, b);
    NonEmptyConcat(a, b);
  }

  lemma NonEmptySkip(x: string, b: seq<string>)
    requires x == ""
    ensures NonEmpty([x] + b) == NonEmpty(b)
  {
    assert ([x] + b)[1..] == b;
  }

  lemma RemoveOne(r: seq<string>, k: nat)
    requires k < |r|
    ensures multiset(r[..k] + r[k + 1..]) <= multiset(r)
  {
    assert r == r[..k] + [r[k]] + r[k + 1..];
  }

  lemma NonEmptyAll(s: seq<string>)
    requires forall i :: 0 <= i < |s| ==> s[i] != ""
    ensures NonEmpty(s) == s
  {
    if s != [] {
      NonEmptyAll(s[1..]);
    }
  }

  /** The walk of `split_line` from position `i` of the list `r`: Python's
      `for` reads `r[i]` while `i < len(r)`, and an empty piece makes it pop
      the first empty piece of the list, so the element that moves into the
      popped place is never read. */
  function PopEmpties(r: seq<string>, i: nat): seq<string>
    decreases |r| - i
  {
    if i >= |r| then r
    else if r[i] == "" then
      var k := FirstIndex(r, "");
      PopEmpties(r[..k] + r[k + 1..], i + 1)
    else PopEmpties(r, i + 1)
  }

  /** What `split_line` returns for a line. */
  function SplitTokens(line: string): seq<string> {
    PopEmpties(Split(line, ' '), 0)
  }

  /** The walk keeps the non-empty pieces in order, adds nothing, and
      leaves a list without empty pieces as it is. */
  lemma {:induction false} PopEmptiesSpec(r: seq<string>, i: nat)
    ensures NonEmpty(PopEmpties(r, i)) == NonEmpty(r)
    ensures multiset(PopEmpties(r, i)) <= multiset(r)
    ensures (forall j :: 0 <= j < |r| ==> r[j] != "") ==> PopEmpties(r, i) == r
    decreases |r| - i
  {
    if i < |r| {
      if r[i] == "" {
        var k := FirstIndex(r, "");
        RemoveEmpty(r, k);
        PopEmptiesSpec(r[..k] + r[k + 1..], i + 1);
      } else {
        PopEmptiesSpec(r, i + 1);
      }
    }
  }

  /** `split_line` on a line with one space, with two and with three:
      the empty piece between two spaces is popped, but of two empty pieces
      in a row only the first goes. */
  lemma SplitTokensOneSpace()
    ensures SplitTokens("origin 14.0") == ["origin", "14.0"]
  {
    SplitNoSep("14.0");
    SplitAppend("origin", "14.0");
    assert "origin" + " " + "14.0" == "origin 14.0";
    NonEmptyAll(["origin", "14.0"]);
    PopEmptiesSpec(["origin", "14.0"], 0);
  }

  lemma SplitTokensTwoSpaces()
    ensures SplitTokens("origin  14.0") == ["origin", "14.0"]
  {
    SplitTwoSpaces();
    PopTwoSpaces();
  }

  lemma SplitTwoSpaces()
    ensures Split("origin  14.0", ' ') == ["origin", "", "14.0"]
  {
    SplitOneLeading();
    SplitAppend("origin", " 14.0");
    assert "origin" + " " + " 14.0" == "origin  14.0";
  }

  lemma SplitOneLeading()
    ensures Split(" 14.0", ' ') == ["", "14.0"]
  {
    SplitNoSep("14.0");
    SplitAppend("", "14.0");
    assert "" + " " + "14.0" == " 14.0";
  }

  lemma SplitTwoLeading()
    ensures Split("  14.0", ' ') == ["", "", "14.0"]
  {
    SplitOneLeading();
    SplitAppend("", " 14.0");
    assert "" + " " + " 14.0" == "  14.0";
  }

  lemma PopTwoSpaces()
    ensures PopEmpties(["origin", "", "14.0"], 0) == ["origin", "14.0"]
  {
    var r := ["origin", "", "14.0"];
    assert FirstIndex(r, "") == 1;
    assert r[..1] + r[2..] == ["origin", "14.0"];
  }

  lemma SplitTokensThreeSpaces()
    ensures SplitTokens("origin" + "   " + "14.0") == ["origin", "", "14.0"]
  {
    SplitThreeSpaces();
    PopThreeSpaces();
  }

  lemma SplitThreeSpaces()
    ensures Split("origin" + "   " + "14.0", ' ') == ["origin", "", "", "14.0"]
  {
    SplitTwoLeading();
    SplitAppend("origin", "  14.0");
    assert "origin" + " " + "  14.0" == "origin" + "   " + "14.0";
  }

  lemma PopThreeSpaces()
    ensures PopEmpties(["origin", "", "", "14.0"], 0) == ["origin", "", "14.0"]
  {
    var r := ["origin", "", "", "14.0"];
    var r' := ["origin", "", "14.0"];
    assert FirstIndex(r, "") == 1;
    assert r[..1] + r[2..] == r';
    assert PopEmpties(r', 2) == PopEmpties(r', 3);
  }

  /** `split_line`: walks over `line.split(" ")` while popping from it. */
  method SplitLine(line: string) returns (r: seq<string>)
    ensures r == SplitTokens(line)
    ensures NonEmpty(r) == Fields(line)
    ensures multiset(r) <= multiset(Split(line, ' '))
    ensures (forall i :: 0 <= i < |Split(line, ' ')| ==> Split(line, ' ')[i] != "") ==> r == Split(line, ' ')
  {
    r := Split(line, ' ');
    var i := 0;
    while i < |r|
      invariant PopEmpties(r, i) == SplitTokens(line)
    {
      if r[i] == "" {
        var k := FirstIndex(r, "");
        r := r[..k] + r[k + 1..];
      }
      i := i + 1;
    }
    PopEmptiesSpec(Split(line, ' '), 0);
  }

  // ---------------------------------------------------------------------
  // Classification

  /** `is_in_history`: some commit agrees with the value on the first eight
      characters. */
  function IsInHistory(value: string, history: seq<string>): (r: bool)
    ensures r <==> exists i :: 0 <= i < |history| && Take(history[i], 8) == Take(value, 8)
  {
    if history == [] then false
    else if Take(history[0], 8) == Take(value, 8) then true
    else
      var rest := IsInHistory(value, history[1..]);
      assert forall i :: 0 <= i < |history[1..]| ==> history[1..][i] == history[i + 1];
      rest
  }

  /** The three forms of a merge line, numbered 1, 2 and 3 as in the
      source; `merge_type = 0` ("invalid") has no constructor because it is
      never produced. */
  datatype MergeType = Branch | Pin | BranchPin {
    function Code(): int {
      match this
      case Branch => 1
      case Pin => 2
      case BranchPin => 3
    }
  }

  /** `get_merge_type`: None where the second token is missing (an
      IndexError). */
  function GetMergeType(tokens: seq<string>, history: seq<string>): Option<MergeType> {
    if |tokens| == 3 then Some(BranchPin)
    else if |tokens| < 2 then None
    else if IsInHistory(tokens[1], history) then Some(Pin)
    else Some(Branch)
  }

  /** Three tokens are a branch and a pin; otherwise a second token found in
      the history is a pin and any other a branch.  The "invalid" type is
      never the answer, so the ValueError at the end of `process_merge` is
      unreachable. */
  lemma MergeTypeSpec(tokens: seq<string>, history: seq<string>)
    ensures GetMergeType(tokens, history).None? <==> |tokens| < 2
    ensures GetMergeType(tokens, history) == Some(BranchPin) <==> |tokens| == 3
    ensures GetMergeType(tokens, history) == Some(Pin) <==>
            |tokens| >= 2 && |tokens| != 3 &&
            exists i :: 0 <= i < |history| && Take(history[i], 8) == Take(tokens[1], 8)
    ensures GetMergeType(tokens, history).Some? ==> GetMergeType(tokens, history).value.Code() in {1, 2, 3}
  {
  }

  const VersionPlaceholder := "${ODOO_VERSION}"

  /** `get_branchname`: the second token with the version placeholder
      filled in, or None (`False`) for a pinned line. */
  function GetBranchname(tokens: seq<string>, t: MergeType, odooVersion: string): Option<string>
    requires |tokens| >= 2
  {
    if t == Pin then None
    else Some(ReplaceAll(tokens[1], VersionPlaceholder, odooVersion))
  }

  /** A pinned line has no branch name; for the other two the name is the
      second token, which a token without the placeholder keeps as it is. */
  lemma BranchnameSpec(tokens: seq<string>, t: MergeType, odooVersion: string)
    requires |tokens| >= 2
    ensures GetBranchname(tokens, t, odooVersion).None? <==> t == Pin
    ensures t != Pin && (forall k :: !OccursAt(tokens[1], VersionPlaceholder, k)) ==>
            GetBranchname(tokens, t, odooVersion) == Some(tokens[1])
    ensures t != Pin ==> GetBranchname(tokens, t, odooVersion) == Some(ReplaceAll(tokens[1], VersionPlaceholder, odooVersion))
  {
    if t != Pin && forall k :: !OccursAt(tokens[1], VersionPlaceholder, k) {
      ReplaceAllAbsent(tokens[1], VersionPlaceholder, odooVersion);
    }
  }

  /** The version placeholder is filled in. */
  lemma BranchnameVersion(remote: string, odooVersion: string)
    ensures GetBranchname([remote, VersionPlaceholder], Branch, odooVersion) == Some(odooVersion)
  {
    ReplaceAllPrefix([], VersionPlaceholder, VersionPlaceholder + [], odooVersion);
    assert ReplaceAll([], VersionPlaceholder, odooVersion) == [];
    assert odooVersion + [] == odooVersion;
  }

  /** What `preprocess_merge` makes of a line. */
  datatype Prepared =
    | Prepared(tokens: seq<string>)
    | NoTokens        // a blank line: IndexError on the first token
    | InvalidRemote   // ValueError: the first token is no declared remote
    | Incomplete      // the repository directory is missing: the script exits

  function PreprocessMerge(remotes: set<string>, built: bool, merge: string): Prepared {
    var tokens := Fields(merge);
    if tokens == [] then NoTokens
    else if tokens[0] !in remotes then InvalidRemote
    else if !built then Incomplete
    else Prepared(tokens)
  }

  /** A line is accepted iff it has a first token naming a declared remote
      and the repository has been built; ValueError is raised exactly when
      the first token is not a declared remote. */
  lemma PreprocessSpec(remotes: set<string>, built: bool, merge: string)
    ensures PreprocessMerge(remotes, built, merge).Prepared? <==>
            Fields(merge) != [] && Fields(merge)[0] in remotes && built
    ensures PreprocessMerge(remotes, built, merge) == InvalidRemote <==>
            Fields(merge) != [] && Fields(merge)[0] !in remotes
    ensures PreprocessMerge(remotes, built, merge).Prepared? ==>
            var ts := PreprocessMerge(remotes, built, merge).tokens;
            |ts| >= 1 && forall i :: 0 <= i < |ts| ==> ts[i] != "" && ' ' !in ts[i]
  {
    var r := PreprocessMerge(remotes, built, merge);
    if r.Prepared? {
      forall i | 0 <= i < |r.tokens| ensures r.tokens[i] != "" && ' ' !in r.tokens[i] {
        assert r.tokens[i] in Split(merge, ' ');
      }
    }
  }

  // ---------------------------------------------------------------------
  // Rewriting a line

  /** The git queries of the script, as an oracle. */
  datatype Git = Git(
    /** `git rev-list HEAD` of a repository, split into commits */
    history: string -> seq<string>,
    /** `git rev-parse HEAD` of a repository */
    head: string -> string,
    /** `git merge-base HEAD <ref>` in a repository */
    mergeBase: (string, string) -> string,
    /** `process_depth`: commits on the main branch since its merge base with a
        merge (5000 when that cannot be computed) */
    depth: (string, string, string) -> nat,
    /** whether the repository has been checked out under the source directory */
    built: string -> bool)

  function Ref(remote: string, branch: string): string {
    remote + "/" + branch
  }

  /** The tokens after `process_merge`'s rewrite: a branch-and-pin line gets
      its pin replaced by the merge base when they differ, a pinned line
      gets the current head, a branch line with a non-empty branch name
      gets the merge base appended. */
  function Rewrite(g: Git, odooVersion: string, repo: string, tokens: seq<string>, t: MergeType): seq<string>
    requires |tokens| >= 2 && (t == BranchPin <==> |tokens| == 3)
  {
    var name := GetBranchname(tokens, t, odooVersion);
    match t
    case BranchPin =>
      var pin := g.mergeBase(repo, Ref(tokens[0], name.value));
      if tokens[2] != pin then tokens[2 := pin] else tokens
    case Pin => tokens[1 := g.head(repo)]
    case Branch =>
      if name.value != "" then tokens + [g.mergeBase(repo, Ref(tokens[0], name.value))] else tokens
  }

  /** `process_merge` on one line, None where it raises or exits. */
  function MergeLine(g: Git, odooVersion: string, remotes: set<string>, repo: string, merge: string): Option<string> {
    match PreprocessMerge(remotes, g.built(repo), merge)
    case Prepared(tokens) =>
      (match GetMergeType(tokens, g.history(repo))
       case None => None
       case Some(t) => Some(Join(" ", Rewrite(g, odooVersion, repo, tokens, t))))
    case _ => None
  }

  /** What each form of line becomes: the remote stays first; a branch and
      pin line ends with the merge base of its branch (left alone when it
      already does); a pinned line names the current head; a branch line
      with a non-empty name gains the merge base as a third token. */
  lemma RewriteSpec(g: Git, odooVersion: string, repo: string, tokens: seq<string>, t: MergeType)
    requires |tokens| >= 2 && (t == BranchPin <==> |tokens| == 3)
    ensures var r := Rewrite(g, odooVersion, repo, tokens, t);
            var name := ReplaceAll(tokens[1], VersionPlaceholder, odooVersion);
            var base := g.mergeBase(repo, Ref(tokens[0], name));
            && r[0] == tokens[0]
            && (t == BranchPin ==> r == [tokens[0], tokens[1], base] && (r == tokens <==> tokens[2] == base))
            && (t == Pin ==> r == tokens[1 := g.head(repo)])
            && (t == Branch && name != "" ==> r == tokens + [base])
            && (t == Branch && name == "" ==> r == tokens)
  {
  }

  /** Re-splitting a line joined from space-free, non-empty tokens gives
      the tokens back. */
  lemma {:induction false} FieldsJoin(ts: seq<string>)
    requires ts != []
    requires forall i :: 0 <= i < |ts| ==> ts[i] != "" && ' ' !in ts[i]
    ensures Fields(Join(" ", ts)) == ts
  {
    SplitJoin(ts);
    NonEmptyAll(ts);
  }

  lemma {:induction false} SplitJoin(ts: seq<string>)
    requires ts != []
    requires forall i :: 0 <= i < |ts| ==> ' ' !in ts[i]
    ensures Split(Join(" ", ts), ' ') == ts
  {
    if |ts| == 1 {
      SplitNoSep(ts[0]);
    } else {
      SplitJoin(ts[1..]);
      SplitAppend(ts[0], Join(" ", ts[1..]));
      assert ts == [ts[0]] + ts[1..];
    }
  }

  lemma {:induction false} SplitNoSep(s: string)
    requires ' ' !in s
    ensures Split(s, ' ') == [s]
  {
    if s != [] {
      SplitNoSep(s[1..]);
      assert [s[0]] + s[1..] == s;
    }
  }

  lemma {:induction false} SplitAppend(a: string, b: string)
    requires ' ' !in a
    ensures Split(a + " " + b, ' ') == [a] + Split(b, ' ')
  {
    if a == [] {
      assert a + " " + b == [' '] + b;
      assert (a + " " + b)[1..] == b;
    } else {
      assert (a + " " + b)[1..] == a[1..] + " " + b;
      SplitAppend(a[1..], b);
      assert [a[0]] + a[1..] == a;
    }
  }

  /** A git answer that can stand as a token. */
  predicate IsToken(s: string) {
    s != "" && ' ' !in s
  }

  predicate AllTokens(ts: seq<string>) {
    forall i :: 0 <= i < |ts| ==> IsToken(ts[i])
  }

  /** A rewrite of a line of at most three tokens is a fixpoint of the
      rewrite, when git answers single tokens and the head is in its own
      history. */
  lemma RewriteStable(g: Git, odooVersion: string, repo: string, tokens: seq<string>)
    requires 2 <= |tokens| <= 3 && AllTokens(tokens)
    requires IsToken(g.head(repo)) && IsInHistory(g.head(repo), g.history(repo))
    requires forall ref :: IsToken(g.mergeBase(repo, ref))
    ensures var t := GetMergeType(tokens, g.history(repo)).value;
            var r := Rewrite(g, odooVersion, repo, tokens, t);
            && 2 <= |r| <= 3 && AllTokens(r)
            && GetMergeType(r, g.history(repo)).Some?
            && Rewrite(g, odooVersion, repo, r, GetMergeType(r, g.history(repo)).value) == r
  {
    var t := GetMergeType(tokens, g.history(repo)).value;
    RewriteSpec(g, odooVersion, repo, tokens, t);
    var r := Rewrite(g, odooVersion, repo, tokens, t);
    var t' := GetMergeType(r, g.history(repo)).value;
    RewriteSpec(g, odooVersion, repo, r, t');
    if t == Pin {
      assert r[1] == g.head(repo);
      assert t' == Pin;
    }
  }

  /** Pinning is idempotent: running the script again over its own output,
      with the same checkouts, changes nothing.  This needs a line of at
      most three tokens, git answers that are single tokens, and a head
      that its own history contains. */
  lemma MergeLineIdempotent(g: Git, odooVersion: string, remotes: set<string>, repo: string, merge: string)
    requires MergeLine(g, odooVersion, remotes, repo, merge).Some?
    requires |Fields(merge)| <= 3
    requires IsToken(g.head(repo)) && IsInHistory(g.head(repo), g.history(repo))
    requires forall ref :: IsToken(g.mergeBase(repo, ref))
    ensures var once := MergeLine(g, odooVersion, remotes, repo, merge).value;
            MergeLine(g, odooVersion, remotes, repo, once) == Some(once)
  {
    var tokens := Fields(merge);
    PreprocessSpec(remotes, g.built(repo), merge);
    var t := GetMergeType(tokens, g.history(repo)).value;
    var r := Rewrite(g, odooVersion, repo, tokens, t);
    RewriteStable(g, odooVersion, repo, tokens);
    RewriteSpec(g, odooVersion, repo, tokens, t);
    FieldsJoin(r);
    var once := Join(" ", r);
    assert PreprocessMerge(remotes, g.built(repo), once) == Prepared(r);
  }

  /** A line of four or more tokens never becomes a pinned three-token
      line: a branch line of that shape gains another token on every run. */
  lemma LongLineGrows(g: Git, odooVersion: string, repo: string, tokens: seq<string>)
    requires |tokens| >= 4 && !IsInHistory(tokens[1], g.history(repo))
    requires ReplaceAll(tokens[1], VersionPlaceholder, odooVersion) != ""
    ensures GetMergeType(tokens, g.history(repo)) == Some(Branch)
    ensures |Rewrite(g, odooVersion, repo, tokens, Branch)| == |tokens| + 1
  {
  }

  // ---------------------------------------------------------------------
  // Depths

  /** The `depth` default of a repository entry as YAML gives it. */
  datatype Depth = DInt(n: int) | DStr(s: string) | DNone

  /** An environment value or the fallback when unset or empty
      (`os.environ.get(name) or fallback`). */
  function EnvOr(env: map<string, string>, name: string, fallback: int): Depth {
    if name in env && env[name] != "" then DStr(env[name]) else DInt(fallback)
  }

  /** The declared depth as an integer (lines 271-277): the two placeholders
      are resolved from the environment, defaulting to 100 and 1; None where
      `int()` raises. */
  function DeclaredDepth(depth: Depth, env: map<string, string>): Option<int> {
    var d1 := if depth == DStr("${WAFT_DEPTH_MERGE}") then EnvOr(env, "WAFT_DEPTH_MERGE", 100) else depth;
    var d2 := if d1 == DStr("${WAFT_DEPTH_DEFAULT}") then EnvOr(env, "WAFT_DEPTH_DEFAULT", 1) else d1;
    match d2
    case DInt(n) => Some(n)
    case DStr(s) => if s != "" && IsDigits(s) then Some(DigitsValue(s)) else None
    case DNone => None
  }

  /** Unset placeholders fall back to 100 for merges and 1 otherwise. */
  lemma PlaceholderDefaults(env: map<string, string>)
    requires "WAFT_DEPTH_MERGE" !in env && "WAFT_DEPTH_DEFAULT" !in env
    ensures DeclaredDepth(DStr("${WAFT_DEPTH_MERGE}"), env) == Some(100)
    ensures DeclaredDepth(DStr("${WAFT_DEPTH_DEFAULT}"), env) == Some(1)
  {
  }

  /** The `depth` default after a merge raised the needed depth to
      `minDepth` (lines 270-283); None where the declared depth cannot be
      read. */
  function NewDepth(depth: Depth, minDepth: nat, env: map<string, string>): Option<Depth> {
    if minDepth > 0 then
      match DeclaredDepth(depth, env)
      case None => None
      case Some(v) => if minDepth > v then Some(DStr(NatToString(minDepth))) else Some(depth)
    else Some(depth)
  }

  /** The declared depth is overwritten, with the needed depth written out,
      exactly when the needed depth is positive and exceeds it; it is only
      read when the needed depth is positive. */
  lemma DepthRule(depth: Depth, minDepth: nat, env: map<string, string>)
    ensures NewDepth(depth, minDepth, env).None? <==> minDepth > 0 && DeclaredDepth(depth, env).None?
    ensures NewDepth(depth, minDepth, env).Some? && NewDepth(depth, minDepth, env).value != depth ==>
            NewDepth(depth, minDepth, env).value == DStr(NatToString(minDepth))
    ensures NewDepth(depth, minDepth, env).Some? ==>
            (NewDepth(depth, minDepth, env).value == depth <==>
             minDepth == 0 || DeclaredDepth(depth, env).value >= minDepth || depth == DStr(NatToString(minDepth)))
    ensures minDepth > 0 && DeclaredDepth(depth, env).Some? && DeclaredDepth(depth, env).value < minDepth ==>
            NewDepth(depth, minDepth, env).Some? &&
            DeclaredDepth(NewDepth(depth, minDepth, env).value, env) == Some(minDepth)
  {
    if minDepth > 0 && DeclaredDepth(depth, env).Some? && DeclaredDepth(depth, env).value < minDepth {
      var s := NatToString(minDepth);
      NatToStringValue(minDepth);
      assert s != "";
      assert s[0] != '$';
      assert DStr(s) != DStr("${WAFT_DEPTH_MERGE}") && DStr(s) != DStr("${WAFT_DEPTH_DEFAULT}");
    }
  }

  /** A depth the script wrote reads back as itself. */
  lemma DeclaredWritten(n: nat, env: map<string, string>)
    ensures DeclaredDepth(DStr(NatToString(n)), env) == Some(n)
  {
    var s := NatToString(n);
    NatToStringValue(n);
    assert s[0] != '$';
    assert DStr(s) != DStr("${WAFT_DEPTH_MERGE}") && DStr(s) != DStr("${WAFT_DEPTH_DEFAULT}");
  }

  /** Line 265: `min_depth > cur and min_depth or cur`. */
  function RaiseDepth(cur: int, d: nat): int {
    if d > cur && d != 0 then d else cur
  }

  /** With a non-negative running value the update is the maximum. */
  lemma RaiseDepthMax(cur: int, d: nat)
    requires cur >= 0
    ensures RaiseDepth(cur, d) == if d > cur then d else cur
    ensures RaiseDepth(cur, d) >= 0
  {
  }

  /** The largest of some depths, 0 for none. */
  function MaxOf(s: seq<nat>): (m: nat)
    ensures forall i :: 0 <= i < |s| ==> s[i] <= m
    ensures s == [] ==> m == 0
    ensures s != [] ==> m in s
  {
    if s == [] then 0
    else
      var m := MaxOf(s[..|s| - 1]);
      assert forall i :: 0 <= i < |s| - 1 ==> s[..|s| - 1][i] == s[i];
      if s[|s| - 1] > m then s[|s| - 1] else m
  }

  /** Whether `main` skips a merge under `--only-base` (lines 247-250). */
  predicate OnlyBaseSkips(onlyBase: bool, hasTarget: bool, index: nat) {
    ((index > 0 || (hasTarget && index >= 0)) && onlyBase) == true
  }

  /** Under `--only-base` exactly the merges after the first, and all of them
      when there is a target, are skipped. */
  lemma OnlyBaseSpec(onlyBase: bool, hasTarget: bool, index: nat)
    ensures OnlyBaseSkips(onlyBase, hasTarget, index) <==> onlyBase && (index > 0 || hasTarget)
    ensures !onlyBase ==> !OnlyBaseSkips(onlyBase, hasTarget, index)
  {
  }

  // ---------------------------------------------------------------------
  // The script's state and its main loop

  /** One repository entry of `repos.yaml`. */
  datatype RepoDoc = RepoDoc(remotes: set<string>, target: Option<string>, merges: seq<string>, depth: Depth)

  /** `get("target") or False`: a present, non-empty target. */
  predicate HasTarget(e: RepoDoc) {
    e.target.Some? && e.target.value != ""
  }

  /** Entries that are not repositories: the private addons and the `ONLY`
      and `ENV` sections. */
  predicate IgnoredRepo(privateName: string, name: string) {
    name in {privateName, "ONLY", "ENV"}
  }


  /** Raising the `depth` default to `m1` and then to `m2 >= m1` is raising
      it to `m2` at once, so a run of raises ends at its maximum. */
  lemma NewDepthTwice(depth: Depth, m1: nat, m2: nat, env: map<string, string>)
    requires m1 <= m2 && NewDepth(depth, m1, env).Some?
    ensures NewDepth(NewDepth(depth, m1, env).value, m2, env) == NewDepth(depth, m2, env)
  {
    if m1 > 0 && m1 > DeclaredDepth(depth, env).value {
      DeclaredWritten(m1, env);
    }
  }

  /** `.index(x)` of a line found at `i` and at no earlier position is `i`. */
  lemma FirstIndexAt(s: seq<string>, i: nat)
    requires i < |s| && forall j :: 0 <= j < i ==> s[j] != s[i]
    ensures FirstIndex(s, s[i]) == i
  {
  }

  /** The branch a merge line names, as `remote/branch`, for a line that
      `process_merge` accepts; None for a pinned line, an empty branch name
      (falsy at line 263) or a rejected line. */
  function NamedBranch(g: Git, odooVersion: string, remotes: set<string>, repo: string, merge: string): Option<string> {
    match PreprocessMerge(remotes, g.built(repo), merge)
    case Prepared(tokens) =>
      (match GetMergeType(tokens, g.history(repo))
       case None => None
       case Some(t) =>
         var name := GetBranchname(tokens, t, odooVersion);
         if name.Some? && name.value != "" then Some(Ref(tokens[0], name.value)) else None)
    case _ => None
  }

  /** The depths `process_depth` computes against the main branch `main`
      for the merges at positions `done` that name a branch, in order. */
  function IndexDepths(g: Git, odooVersion: string, remotes: set<string>, repo: string, main: string,
                       merges: seq<string>, done: seq<nat>): seq<nat>
    requires forall k :: 0 <= k < |done| ==> done[k] < |merges|
  {
    if done == [] then []
    else
      var rest := IndexDepths(g, odooVersion, remotes, repo, main, merges, done[..|done| - 1]);
      match NamedBranch(g, odooVersion, remotes, repo, merges[done[|done| - 1]])
      case None => rest
      case Some(b) => rest + [g.depth(repo, main, b)]
  }

  /** One more processed position adds its depth when its line names a
      branch. */
  lemma IndexDepthsSnoc(g: Git, odooVersion: string, remotes: set<string>, repo: string, main: string,
                        merges: seq<string>, done: seq<nat>, i: nat)
    requires forall k :: 0 <= k < |done| ==> done[k] < |merges|
    requires i < |merges|
    ensures IndexDepths(g, odooVersion, remotes, repo, main, merges, done + [i]) ==
            IndexDepths(g, odooVersion, remotes, repo, main, merges, done) +
            (if NamedBranch(g, odooVersion, remotes, repo, merges[i]).Some?
             then [g.depth(repo, main, NamedBranch(g, odooVersion, remotes, repo, merges[i]).value)] else [])
  {
    assert (done + [i])[..|done|] == done;
  }

  /** The main branch as `remote/branch` (lines 238-242), from the tokens of
      the main line and the history `all_commits` holds for the repository;
      None where `get_merge_type` raises, Some(None) for a pinned main line
      (its name is `False`). */
  function MainRefOf(tokens: seq<string>, history: seq<string>, odooVersion: string): Option<Option<string>> {
    match GetMergeType(tokens, history)
    case None => None
    case Some(t) =>
      var n := GetBranchname(tokens, t, odooVersion);
      Some(if n.Some? then Some(Ref(tokens[0], n.value)) else None)
  }

  /** No merge line equals an earlier one or the line an earlier one is
      pinned to, so `.index(merge)` finds every line at its own place. */
  predicate DistinctLines(g: Git, odooVersion: string, remotes: set<string>, repo: string, merges: seq<string>) {
    forall j, i :: 0 <= j < i < |merges| ==>
      merges[j] != merges[i] && MergeLine(g, odooVersion, remotes, repo, merges[j]) != Some(merges[i])
  }

  /** What the merge loop of one entry (lines 243-283) leaves: `done` are
      the positions processed, in order, and every processed line was
      pinned; `depths` are the depths computed for those naming a branch
      against the main branch `main`, and `minDepth`, the running depth, is
      their maximum; all merges are processed without `--only-base`, the
      first alone with it and none with a target; with distinct lines each
      merge ends pinned, or as it was when skipped; and the `depth` default
      ends as if raised once to `minDepth`. */
  predicate MergesPinned(g: Git, odooVersion: string, name: string, entry: RepoDoc, hasTarget: bool, onlyBase: bool,
                         main: Option<string>, env: map<string, string>,
                         out: RepoDoc, minDepth: nat, depths: seq<nat>, done: seq<nat>)
  {
    && minDepth == MaxOf(depths)
    && (forall k :: 0 <= k < |done| ==> done[k] < |entry.merges|)
    && (forall k, l :: 0 <= k < l < |done| ==> done[k] < done[l])
    && (forall k :: 0 <= k < |done| ==> MergeLine(g, odooVersion, entry.remotes, name, entry.merges[done[k]]).Some?)
    && (main.Some? ==> depths == IndexDepths(g, odooVersion, entry.remotes, name, main.value, entry.merges, done))
    && (main.None? ==>
          && depths == []
          && forall k :: 0 <= k < |done| ==> NamedBranch(g, odooVersion, entry.remotes, name, entry.merges[done[k]]).None?)
    && (!onlyBase ==> |done| == |entry.merges| && forall k :: 0 <= k < |done| ==> done[k] == k)
    && (onlyBase && hasTarget ==> done == [])
    && (onlyBase && !hasTarget && entry.merges != [] ==> done != [] && done[0] == 0)
    && out.remotes == entry.remotes
    && |out.merges| == |entry.merges|
    && (onlyBase ==> forall j :: 1 <= j < |entry.merges| ==> out.merges[j] == entry.merges[j])
    && (onlyBase && hasTarget ==> out.merges == entry.merges)
    && (DistinctLines(g, odooVersion, entry.remotes, name, entry.merges) ==>
          forall i :: 0 <= i < |entry.merges| ==>
            if OnlyBaseSkips(onlyBase, hasTarget, i) then out.merges[i] == entry.merges[i]
            else MergeLine(g, odooVersion, entry.remotes, name, entry.merges[i]) == Some(out.merges[i]))
    && NewDepth(entry.depth, minDepth, env) == Some(out.depth)
  }

  /** The merges after the first `i` of the loop: the later ones still as
      they were, and with distinct lines each earlier one pinned or, when
      skipped, as it was. */
  predicate MergesState(g: Git, odooVersion: string, name: string, entry: RepoDoc, hasTarget: bool, onlyBase: bool,
                        e: RepoDoc, i: nat)
  {
    && i <= |e.merges| == |entry.merges|
    && e.remotes == entry.remotes && e.target == entry.target
    && (forall j :: i <= j < |e.merges| ==> e.merges[j] == entry.merges[j])
    && (onlyBase ==> forall j :: 1 <= j < |entry.merges| ==> e.merges[j] == entry.merges[j])
    && (onlyBase && hasTarget ==> e.merges == entry.merges)
    && (DistinctLines(g, odooVersion, entry.remotes, name, entry.merges) ==>
          forall j :: 0 <= j < i ==>
            if OnlyBaseSkips(onlyBase, hasTarget, j) then e.merges[j] == entry.merges[j]
            else MergeLine(g, odooVersion, entry.remotes, name, entry.merges[j]) == Some(e.merges[j]))
  }

  /** The positions processed among the first `i`: in order, all of them
      without `--only-base`, none with it and a target, and the first with
      it and no target. */
  predicate DonePositions(n: nat, hasTarget: bool, onlyBase: bool, i: nat, done: seq<nat>) {
    && (forall k :: 0 <= k < |done| ==> done[k] < i && done[k] < n)
    && (forall k, l :: 0 <= k < l < |done| ==> done[k] < done[l])
    && (!onlyBase ==> |done| == i && forall k :: 0 <= k < |done| ==> done[k] == k)
    && (onlyBase && hasTarget ==> done == [])
    && (onlyBase && !hasTarget && i > 0 ==> done != [] && done[0] == 0)
  }

  /** The lines at the processed positions were pinned, and `depths` are the
      depths computed for those naming a branch. */
  predicate DoneLines(g: Git, odooVersion: string, name: string, entry: RepoDoc, main: Option<string>,
                      depths: seq<nat>, done: seq<nat>)
    requires forall k :: 0 <= k < |done| ==> done[k] < |entry.merges|
  {
    && (forall k :: 0 <= k < |done| ==> MergeLine(g, odooVersion, entry.remotes, name, entry.merges[done[k]]).Some?)
    && (main.Some? ==> depths == IndexDepths(g, odooVersion, entry.remotes, name, main.value, entry.merges, done))
    && (main.None? ==> depths == [])
    && (main.None? ==>
          forall k :: 0 <= k < |done| ==> NamedBranch(g, odooVersion, entry.remotes, name, entry.merges[done[k]]).None?)
  }

  predicate DoneState(g: Git, odooVersion: string, name: string, entry: RepoDoc, hasTarget: bool, onlyBase: bool,
                      main: Option<string>, i: nat, depths: seq<nat>, done: seq<nat>)
  {
    && DonePositions(|entry.merges|, hasTarget, onlyBase, i, done)
    && DoneLines(g, odooVersion, name, entry, main, depths, done)
  }

  /** The state of the merge loop after the first `i` merges. */
  predicate LoopState(g: Git, odooVersion: string, name: string, entry: RepoDoc, hasTarget: bool, onlyBase: bool,
                      main: Option<string>, env: map<string, string>,
                      e: RepoDoc, i: nat, minDepth: nat, depths: seq<nat>, done: seq<nat>)
  {
    && MergesState(g, odooVersion, name, entry, hasTarget, onlyBase, e, i)
    && DoneState(g, odooVersion, name, entry, hasTarget, onlyBase, main, i, depths, done)
    && minDepth == MaxOf(depths)
    && NewDepth(entry.depth, minDepth, env) == Some(e.depth)
  }

  /** With distinct lines the merge at `i` is looked up at `i`; the first
      merge always is. */
  lemma LookupAt(g: Git, odooVersion: string, name: string, entry: RepoDoc, hasTarget: bool, onlyBase: bool,
                 e: RepoDoc, i: nat)
    requires MergesState(g, odooVersion, name, entry, hasTarget, onlyBase, e, i)
    requires i < |e.merges|
    ensures i == 0 || DistinctLines(g, odooVersion, entry.remotes, name, entry.merges) ==> FirstIndex(e.merges, e.merges[i]) == i
    ensures FirstIndex(e.merges, e.merges[i]) <= i
  {
    if DistinctLines(g, odooVersion, entry.remotes, name, entry.merges) {
      forall j | 0 <= j < i ensures e.merges[j] != e.merges[i] {
        assert entry.merges[j] != entry.merges[i];
      }
      FirstIndexAt(e.merges, i);
    }
    if i == 0 {
      FirstIndexAt(e.merges, 0);
    }
  }

  /** A skipped merge leaves the state as it is. */
  lemma SkipStep(g: Git, odooVersion: string, name: string, entry: RepoDoc, hasTarget: bool, onlyBase: bool,
                 main: Option<string>, env: map<string, string>,
                 e: RepoDoc, i: nat, minDepth: nat, depths: seq<nat>, done: seq<nat>)
    requires LoopState(g, odooVersion, name, entry, hasTarget, onlyBase, main, env, e, i, minDepth, depths, done)
    requires i < |e.merges| && OnlyBaseSkips(onlyBase, hasTarget, FirstIndex(e.merges, e.merges[i]))
    ensures LoopState(g, odooVersion, name, entry, hasTarget, onlyBase, main, env, e, i + 1, minDepth, depths, done)
  {
    LookupAt(g, odooVersion, name, entry, hasTarget, onlyBase, e, i);
  }

  /** A processed merge is pinned at the place `.index` found. */
  lemma PinStepMerges(g: Git, odooVersion: string, name: string, entry: RepoDoc, hasTarget: bool, onlyBase: bool,
                      e: RepoDoc, i: nat, next: RepoDoc)
    requires MergesState(g, odooVersion, name, entry, hasTarget, onlyBase, e, i)
    requires i < |e.merges| && !OnlyBaseSkips(onlyBase, hasTarget, FirstIndex(e.merges, e.merges[i]))
    requires MergeLine(g, odooVersion, e.remotes, name, e.merges[i]).Some?
    requires next.remotes == e.remotes && next.target == e.target
    requires next.merges == e.merges[FirstIndex(e.merges, e.merges[i]) := MergeLine(g, odooVersion, e.remotes, name, e.merges[i]).value]
    ensures MergesState(g, odooVersion, name, entry, hasTarget, onlyBase, next, i + 1)
  {
    LookupAt(g, odooVersion, name, entry, hasTarget, onlyBase, e, i);
    var index := FirstIndex(e.merges, e.merges[i]);
    assert e.merges[i] == entry.merges[i];
    assert onlyBase ==> index == 0 && !hasTarget;
    assert forall j :: 0 <= j < |e.merges| && j != index ==> next.merges[j] == e.merges[j];
  }

  /** A processed merge joins `done`. */
  lemma DonePositionsStep(n: nat, hasTarget: bool, onlyBase: bool, i: nat, done: seq<nat>, index: nat)
    requires DonePositions(n, hasTarget, onlyBase, i, done)
    requires i < n && !OnlyBaseSkips(onlyBase, hasTarget, index)
    requires index <= i && (i == 0 ==> index == 0)
    ensures DonePositions(n, hasTarget, onlyBase, i + 1, done + [i])
  {
  }

  /** A processed merge's line was pinned, and its depth, if any, joins
      `depths`. */
  lemma DoneLinesStep(g: Git, odooVersion: string, name: string, entry: RepoDoc, main: Option<string>,
                      depths: seq<nat>, done: seq<nat>, i: nat, d: Option<nat>)
    requires forall k :: 0 <= k < |done| ==> done[k] < |entry.merges|
    requires DoneLines(g, odooVersion, name, entry, main, depths, done)
    requires i < |entry.merges|
    requires MergeLine(g, odooVersion, entry.remotes, name, entry.merges[i]).Some?
    requires d == (if NamedBranch(g, odooVersion, entry.remotes, name, entry.merges[i]).Some? && main.Some?
                   then Some(g.depth(name, main.value, NamedBranch(g, odooVersion, entry.remotes, name, entry.merges[i]).value))
                   else None)
    requires NamedBranch(g, odooVersion, entry.remotes, name, entry.merges[i]).Some? ==> main.Some?
    ensures forall k :: 0 <= k < |done + [i]| ==> (done + [i])[k] < |entry.merges|
    ensures DoneLines(g, odooVersion, name, entry, main, if d.Some? then depths + [d.value] else depths, done + [i])
  {
    if main.Some? {
      IndexDepthsSnoc(g, odooVersion, entry.remotes, name, main.value, entry.merges, done, i);
    }
  }

  /** A processed merge joins `done`, and its depth, if any, `depths`. */
  lemma PinStepDone(g: Git, odooVersion: string, name: string, entry: RepoDoc, hasTarget: bool, onlyBase: bool,
                    main: Option<string>, e: RepoDoc, i: nat, depths: seq<nat>, done: seq<nat>, d: Option<nat>)
    requires MergesState(g, odooVersion, name, entry, hasTarget, onlyBase, e, i)
    requires DoneState(g, odooVersion, name, entry, hasTarget, onlyBase, main, i, depths, done)
    requires i < |e.merges| && !OnlyBaseSkips(onlyBase, hasTarget, FirstIndex(e.merges, e.merges[i]))
    requires MergeLine(g, odooVersion, e.remotes, name, e.merges[i]).Some?
    requires d == (if NamedBranch(g, odooVersion, e.remotes, name, e.merges[i]).Some? && main.Some?
                   then Some(g.depth(name, main.value, NamedBranch(g, odooVersion, e.remotes, name, e.merges[i]).value))
                   else None)
    requires NamedBranch(g, odooVersion, e.remotes, name, e.merges[i]).Some? ==> main.Some?
    ensures DoneState(g, odooVersion, name, entry, hasTarget, onlyBase, main, i + 1,
                      if d.Some? then depths + [d.value] else depths, done + [i])
  {
    LookupAt(g, odooVersion, name, entry, hasTarget, onlyBase, e, i);
    assert e.merges[i] == entry.merges[i] && e.remotes == entry.remotes;
    DonePositionsStep(|entry.merges|, hasTarget, onlyBase, i, done, FirstIndex(e.merges, e.merges[i]));
    DoneLinesStep(g, odooVersion, name, entry, main, depths, done, i, d);
  }

  /** A processed merge: the line is pinned at the place `.index` found,
      its position joins `done`, its depth, if any, joins `depths`, and the
      `depth` default follows the running maximum. */
  lemma PinStep(g: Git, odooVersion: string, name: string, entry: RepoDoc, hasTarget: bool, onlyBase: bool,
                main: Option<string>, env: map<string, string>,
                e: RepoDoc, i: nat, minDepth: nat, depths: seq<nat>, done: seq<nat>,
                next: RepoDoc, d: Option<nat>, minDepth': nat)
    requires LoopState(g, odooVersion, name, entry, hasTarget, onlyBase, main, env, e, i, minDepth, depths, done)
    requires i < |e.merges| && !OnlyBaseSkips(onlyBase, hasTarget, FirstIndex(e.merges, e.merges[i]))
    requires var merge := e.merges[i];
             && MergeLine(g, odooVersion, e.remotes, name, merge).Some?
             && next.remotes == e.remotes && next.target == e.target
             && next.merges == e.merges[FirstIndex(e.merges, merge) := MergeLine(g, odooVersion, e.remotes, name, merge).value]
             && d == (if NamedBranch(g, odooVersion, e.remotes, name, merge).Some? && main.Some?
                      then Some(g.depth(name, main.value, NamedBranch(g, odooVersion, e.remotes, name, merge).value))
                      else None)
             && (NamedBranch(g, odooVersion, e.remotes, name, merge).Some? ==> main.Some?)
             && minDepth' == (if d.Some? && d.value > minDepth then d.value else minDepth)
             && (d.Some? ==> NewDepth(e.depth, minDepth', env) == Some(next.depth))
             && (d.None? ==> next.depth == e.depth)
    ensures LoopState(g, odooVersion, name, entry, hasTarget, onlyBase, main, env, next, i + 1, minDepth',
                      if d.Some? then depths + [d.value] else depths, done + [i])
  {
    PinStepMerges(g, odooVersion, name, entry, hasTarget, onlyBase, e, i, next);
    PinStepDone(g, odooVersion, name, entry, hasTarget, onlyBase, main, e, i, depths, done, d);
    if d.Some? {
      assert (depths + [d.value])[..|depths|] == depths;
      NewDepthTwice(entry.depth, minDepth, minDepth', env);
    }
  }

  /** After the last merge the state is what `MergesPinned` promises. */
  lemma LoopDone(g: Git, odooVersion: string, name: string, entry: RepoDoc, hasTarget: bool, onlyBase: bool,
                 main: Option<string>, env: map<string, string>,
                 e: RepoDoc, minDepth: nat, depths: seq<nat>, done: seq<nat>)
    requires LoopState(g, odooVersion, name, entry, hasTarget, onlyBase, main, env, e, |e.merges|, minDepth, depths, done)
    ensures MergesPinned(g, odooVersion, name, entry, hasTarget, onlyBase, main, env, e, minDepth, depths, done)
  {
  }

  /** The loop starts with nothing processed and the running depth 0. */
  lemma LoopStart(g: Git, odooVersion: string, name: string, entry: RepoDoc, hasTarget: bool, onlyBase: bool,
                  main: Option<string>, env: map<string, string>)
    ensures LoopState(g, odooVersion, name, entry, hasTarget, onlyBase, main, env, entry, 0, 0, [], [])
  {
  }

  /** After the merge loop the `depth` default covers every depth computed,
      and it changed only because one of them exceeded what was declared. */
  lemma PinnedDepthCovers(g: Git, odooVersion: string, name: string, entry: RepoDoc, hasTarget: bool, onlyBase: bool,
                          main: Option<string>, env: map<string, string>,
                          out: RepoDoc, minDepth: nat, depths: seq<nat>, done: seq<nat>)
    requires MergesPinned(g, odooVersion, name, entry, hasTarget, onlyBase, main, env, out, minDepth, depths, done)
    ensures minDepth > 0 ==>
            && DeclaredDepth(entry.depth, env).Some? && DeclaredDepth(out.depth, env).Some?
            && forall k :: 0 <= k < |depths| ==> depths[k] <= DeclaredDepth(out.depth, env).value
    ensures out.depth != entry.depth ==>
            minDepth > 0 && DeclaredDepth(entry.depth, env).Some? && minDepth > DeclaredDepth(entry.depth, env).value &&
            out.depth == DStr(NatToString(minDepth))
  {
    if minDepth > 0 && DeclaredDepth(entry.depth, env).Some? && minDepth > DeclaredDepth(entry.depth, env).value {
      DeclaredWritten(minDepth, env);
    }
  }

  /** `MergesPinned` does not read the targets. */
  lemma PinnedIgnoresTarget(g: Git, odooVersion: string, name: string, entry: RepoDoc, hasTarget: bool, onlyBase: bool,
                            main: Option<string>, env: map<string, string>,
                            out: RepoDoc, minDepth: nat, depths: seq<nat>, done: seq<nat>, t: Option<string>)
    requires MergesPinned(g, odooVersion, name, entry.(target := t), hasTarget, onlyBase, main, env, out, minDepth, depths, done)
    ensures MergesPinned(g, odooVersion, name, entry, hasTarget, onlyBase, main, env, out, minDepth, depths, done)
  {
  }

  /** Acceptance does not read the target. */
  lemma AcceptedIgnoresTarget(g: Git, odooVersion: string, name: string, entry: RepoDoc, main: Option<string>,
                              env: map<string, string>, t: Option<string>)
    ensures MergesAccepted(g, odooVersion, name, entry.(target := t), main) == MergesAccepted(g, odooVersion, name, entry, main)
    ensures DepthReadable(g, odooVersion, name, entry.(target := t), main, env) == DepthReadable(g, odooVersion, name, entry, main, env)
  {
  }

  /** Two updates of one key are the last. */
  lemma UpdateTwice(m: map<string, nat>, k: string, a: nat, b: nat)
    ensures m[k := a][k := b] == m[k := b]
  {
  }

  /** What `main` makes of the entry `d` of a document: `o` has its name;
      an ignored entry is left as it is; any other has its target pinned
      and its merges pinned and its depth raised as `MergesPinned` says,
      for the main branch `main`, the positions `done` and the depths
      `depths`. */
  predicate EntryPinned(g: Git, odooVersion: string, privateName: string, onlyBase: bool, env: map<string, string>,
                        d: (string, RepoDoc), o: (string, RepoDoc), main: Option<string>, done: seq<nat>, depths: seq<nat>)
  {
    && o.0 == d.0
    && (IgnoredRepo(privateName, d.0) ==> o == d && depths == [])
    && (!IgnoredRepo(privateName, d.0) ==>
          && (HasTarget(d.1) ==> o.1.target == MergeLine(g, odooVersion, d.1.remotes, d.0, d.1.target.value))
          && (!HasTarget(d.1) ==> o.1.target == d.1.target)
          && MergesPinned(g, odooVersion, d.0, d.1, HasTarget(d.1), onlyBase, main, env, o.1, MaxOf(depths), depths, done))
  }

  /** The commits `all_commits` holds for a repository, none when unset. */
  function Hist(commits: map<string, seq<string>>, name: string): seq<string> {
    if name in commits then commits[name] else []
  }

  /** `process_merge` only ever records a repository's own history, so each
      repository's commits in `now` are those of `before` or that history. */
  ghost predicate CommitsFrom(g: Git, before: map<string, seq<string>>, now: map<string, seq<string>>) {
    forall n :: Hist(now, n) == Hist(before, n) || Hist(now, n) == g.history(n)
  }

  lemma CommitsTrans(g: Git, a: map<string, seq<string>>, b: map<string, seq<string>>, c: map<string, seq<string>>)
    requires CommitsFrom(g, a, b) && CommitsFrom(g, b, c)
    ensures CommitsFrom(g, a, c)
  {
  }

  /** A merge line the loop of lines 243-283 gets past unless the `depth`
      default cannot be read: `process_merge` accepts it, and a line naming
      a branch meets a main branch that is not pinned. */
  predicate MergeAccepted(g: Git, odooVersion: string, name: string, remotes: set<string>, main: Option<string>, merge: string) {
    && MergeLine(g, odooVersion, remotes, name, merge).Some?
    && (NamedBranch(g, odooVersion, remotes, name, merge).Some? ==> main.Some?)
  }

  predicate MergesAccepted(g: Git, odooVersion: string, name: string, entry: RepoDoc, main: Option<string>) {
    forall i :: 0 <= i < |entry.merges| ==> MergeAccepted(g, odooVersion, name, entry.remotes, main, entry.merges[i])
  }

  /** `int()` never fails on the `depth` default: it can be read, or every
      branch a merge names is at depth 0 from the main branch, so it is
      never read. */
  predicate DepthReadable(g: Git, odooVersion: string, name: string, entry: RepoDoc, main: Option<string>, env: map<string, string>) {
    || DeclaredDepth(entry.depth, env).Some?
    || forall i :: 0 <= i < |entry.merges| && main.Some? && NamedBranch(g, odooVersion, entry.remotes, name, entry.merges[i]).Some? ==>
         g.depth(name, main.value, NamedBranch(g, odooVersion, entry.remotes, name, entry.merges[i]).value) == 0
  }

  /** The main branch of an entry (lines 238-242): read from the target
      against the repository's history, else from the first merge against
      `history`, the commits recorded before the entry; None where there is
      no main line or `get_merge_type` raises on it. */
  function MainOf(g: Git, odooVersion: string, name: string, entry: RepoDoc, history: seq<string>): Option<Option<string>> {
    if HasTarget(entry) then MainRefOf(SplitTokens(entry.target.value), g.history(name), odooVersion)
    else if entry.merges != [] then MainRefOf(SplitTokens(entry.merges[0]), history, odooVersion)
    else None
  }

  /** An entry gets to its merge loop (lines 232-242): its target, if any,
      is accepted by `process_merge`, and a main branch is found. */
  predicate RepoFound(g: Git, odooVersion: string, name: string, entry: RepoDoc, history: seq<string>) {
    && (HasTarget(entry) ==> MergeLine(g, odooVersion, entry.remotes, name, entry.target.value).Some?)
    && MainOf(g, odooVersion, name, entry, history).Some?
  }

  /** An entry gets through lines 232-283: it gets to its merge loop, and
      the loop cannot raise for the main branch found. */
  predicate RepoAccepted(g: Git, odooVersion: string, name: string, entry: RepoDoc, history: seq<string>, env: map<string, string>) {
    && RepoFound(g, odooVersion, name, entry, history)
    && MergesAccepted(g, odooVersion, name, entry, MainOf(g, odooVersion, name, entry, history).value)
    && DepthReadable(g, odooVersion, name, entry, MainOf(g, odooVersion, name, entry, history).value, env)
  }

  /** Every repository entry of a document is accepted, read against the
      commits recorded before the document as well as against its own
      history, the two values `all_commits` can hold for it. */
  predicate DocAccepted(g: Git, odooVersion: string, privateName: string, doc: seq<(string, RepoDoc)>,
                        commits: map<string, seq<string>>, env: map<string, string>)
  {
    forall k :: 0 <= k < |doc| && !IgnoredRepo(privateName, doc[k].0) ==>
      && RepoAccepted(g, odooVersion, doc[k].0, doc[k].1, Hist(commits, doc[k].0), env)
      && RepoAccepted(g, odooVersion, doc[k].0, doc[k].1, g.history(doc[k].0), env)
  }

  /** What a document that `main` got through says of its entry `name`:
      read against the commits recorded before the document or against its
      own history, the entry got to its merge loop and, without
      `--only-base`, through it. */
  predicate EntryReached(g: Git, odooVersion: string, privateName: string, onlyBase: bool, name: string, entry: RepoDoc,
                         commits: map<string, seq<string>>, env: map<string, string>)
  {
    !IgnoredRepo(privateName, name) ==>
      && (RepoFound(g, odooVersion, name, entry, Hist(commits, name)) || RepoFound(g, odooVersion, name, entry, g.history(name)))
      && (!onlyBase ==>
            RepoAccepted(g, odooVersion, name, entry, Hist(commits, name), env) ||
            RepoAccepted(g, odooVersion, name, entry, g.history(name), env))
  }

  /** The first `n` entries of a document are reached. */
  predicate DocReached(g: Git, odooVersion: string, privateName: string, onlyBase: bool, doc: seq<(string, RepoDoc)>, n: nat,
                       commits: map<string, seq<string>>, env: map<string, string>)
  {
    && n <= |doc|
    && forall k :: 0 <= k < n ==> EntryReached(g, odooVersion, privateName, onlyBase, doc[k].0, doc[k].1, commits, env)
  }

  lemma DocReachedNext(g: Git, odooVersion: string, privateName: string, onlyBase: bool, doc: seq<(string, RepoDoc)>, n: nat,
                       commits: map<string, seq<string>>, env: map<string, string>)
    requires DocReached(g, odooVersion, privateName, onlyBase, doc, n, commits, env)
    requires n < |doc| && EntryReached(g, odooVersion, privateName, onlyBase, doc[n].0, doc[n].1, commits, env)
    ensures DocReached(g, odooVersion, privateName, onlyBase, doc, n + 1, commits, env)
  {
  }

  /** An entry processed against commits recorded since the document began:
      where it went through it is reached, and where the document is
      accepted it is accepted against those commits. */
  lemma EntryReachedStep(g: Git, odooVersion: string, privateName: string, onlyBase: bool, name: string, entry: RepoDoc,
                         before: map<string, seq<string>>, commits: map<string, seq<string>>, env: map<string, string>, ok: bool)
    requires CommitsFrom(g, before, commits)
    requires !IgnoredRepo(privateName, name) && ok ==> RepoFound(g, odooVersion, name, entry, Hist(commits, name))
    requires !IgnoredRepo(privateName, name) && !onlyBase && ok ==> RepoAccepted(g, odooVersion, name, entry, Hist(commits, name), env)
    ensures ok ==> EntryReached(g, odooVersion, privateName, onlyBase, name, entry, before, env)
    ensures RepoAccepted(g, odooVersion, name, entry, Hist(before, name), env) &&
            RepoAccepted(g, odooVersion, name, entry, g.history(name), env) ==>
            RepoAccepted(g, odooVersion, name, entry, Hist(commits, name), env)
  {
    assert Hist(commits, name) == Hist(before, name) || Hist(commits, name) == g.history(name);
  }

  /** With every branch at depth 0 no depth is computed above 0. */
  lemma {:induction false} IndexDepthsZero(g: Git, odooVersion: string, remotes: set<string>, repo: string, main: string,
                                           merges: seq<string>, done: seq<nat>)
    requires forall k :: 0 <= k < |done| ==> done[k] < |merges|
    requires forall j :: 0 <= j < |merges| && NamedBranch(g, odooVersion, remotes, repo, merges[j]).Some? ==>
               g.depth(repo, main, NamedBranch(g, odooVersion, remotes, repo, merges[j]).value) == 0
    ensures MaxOf(IndexDepths(g, odooVersion, remotes, repo, main, merges, done)) == 0
  {
    if done != [] {
      var front := done[..|done| - 1];
      IndexDepthsZero(g, odooVersion, remotes, repo, main, merges, front);
      var rest := IndexDepths(g, odooVersion, remotes, repo, main, merges, front);
      var s := IndexDepths(g, odooVersion, remotes, repo, main, merges, done);
      if NamedBranch(g, odooVersion, remotes, repo, merges[done[|done| - 1]]).Some? {
        assert s == rest + [0];
        assert s[..|s| - 1] == rest;
      }
    }
  }

  /** The depth of a processed merge naming a branch is among the depths. */
  lemma {:induction false} IndexDepthsHas(g: Git, odooVersion: string, remotes: set<string>, repo: string, main: string,
                                          merges: seq<string>, done: seq<nat>, k: nat)
    requires forall l :: 0 <= l < |done| ==> done[l] < |merges|
    requires k < |done| && NamedBranch(g, odooVersion, remotes, repo, merges[done[k]]).Some?
    ensures g.depth(repo, main, NamedBranch(g, odooVersion, remotes, repo, merges[done[k]]).value)
            in IndexDepths(g, odooVersion, remotes, repo, main, merges, done)
  {
    var front := done[..|done| - 1];
    if k < |done| - 1 {
      assert front[k] == done[k];
      IndexDepthsHas(g, odooVersion, remotes, repo, main, merges, front, k);
    }
  }

  /** Where the depth default can be read when needed, the merge at `i`
      raising the running depth leaves a depth default that reads. */
  lemma ReadableStep(g: Git, odooVersion: string, name: string, entry: RepoDoc, hasTarget: bool, onlyBase: bool,
                     main: Option<string>, env: map<string, string>,
                     e: RepoDoc, i: nat, minDepth: nat, depths: seq<nat>, done: seq<nat>, b: string)
    requires LoopState(g, odooVersion, name, entry, hasTarget, onlyBase, main, env, e, i, minDepth, depths, done)
    requires DepthReadable(g, odooVersion, name, entry, main, env)
    requires i < |entry.merges| && main.Some? && NamedBranch(g, odooVersion, entry.remotes, name, entry.merges[i]) == Some(b)
    ensures var d := g.depth(name, main.value, b);
            NewDepth(e.depth, if d > minDepth then d else minDepth, env).Some?
  {
    if DeclaredDepth(entry.depth, env).Some? {
      DepthRule(entry.depth, minDepth, env);
      if e.depth != entry.depth {
        DeclaredWritten(minDepth, env);
      }
    } else {
      IndexDepthsZero(g, odooVersion, entry.remotes, name, main.value, entry.merges, done);
    }
  }

  /** Whether `PinMerge` gets past the merge at `i` is whether it is
      accepted, where the depth default can be read when needed. */
  lemma PinAccepted(g: Git, odooVersion: string, name: string, entry: RepoDoc, hasTarget: bool, onlyBase: bool,
                    main: Option<string>, env: map<string, string>,
                    e: RepoDoc, i: nat, minDepth: nat, depths: seq<nat>, done: seq<nat>, minDepth': nat, d: Option<nat>, ok: bool)
    requires LoopState(g, odooVersion, name, entry, hasTarget, onlyBase, main, env, e, i, minDepth, depths, done)
    requires i < |e.merges|
    requires var merge := e.merges[i];
             && d == (if MergeLine(g, odooVersion, e.remotes, name, merge).Some? &&
                         NamedBranch(g, odooVersion, e.remotes, name, merge).Some? && main.Some?
                      then Some(g.depth(name, main.value, NamedBranch(g, odooVersion, e.remotes, name, merge).value))
                      else None)
             && minDepth' == (if d.Some? && d.value > minDepth then d.value else minDepth)
             && (ok <==> MergeLine(g, odooVersion, e.remotes, name, merge).Some? &&
                         (NamedBranch(g, odooVersion, e.remotes, name, merge).Some? ==>
                            main.Some? && NewDepth(e.depth, minDepth', env).Some?))
    ensures !MergeAccepted(g, odooVersion, name, entry.remotes, main, entry.merges[i]) ==> !ok
    ensures MergeAccepted(g, odooVersion, name, entry.remotes, main, entry.merges[i]) ==>
            DepthReadable(g, odooVersion, name, entry, main, env) ==> ok
  {
    assert e.merges[i] == entry.merges[i] && e.remotes == entry.remotes;
    if DepthReadable(g, odooVersion, name, entry, main, env) && main.Some? &&
       NamedBranch(g, odooVersion, entry.remotes, name, entry.merges[i]).Some? {
      ReadableStep(g, odooVersion, name, entry, hasTarget, onlyBase, main, env, e, i, minDepth, depths, done,
                   NamedBranch(g, odooVersion, entry.remotes, name, entry.merges[i]).value);
    }
  }

  /** A merge loop that processed every merge met only accepted lines and a
      depth default read only where it could be. */
  lemma PinnedAccepted(g: Git, odooVersion: string, name: string, entry: RepoDoc, hasTarget: bool,
                       main: Option<string>, env: map<string, string>,
                       out: RepoDoc, minDepth: nat, depths: seq<nat>, done: seq<nat>)
    requires MergesPinned(g, odooVersion, name, entry, hasTarget, false, main, env, out, minDepth, depths, done)
    ensures MergesAccepted(g, odooVersion, name, entry, main)
    ensures DepthReadable(g, odooVersion, name, entry, main, env)
  {
    forall i | 0 <= i < |entry.merges|
      ensures MergeAccepted(g, odooVersion, name, entry.remotes, main, entry.merges[i])
    {
      assert done[i] == i;
    }
    if DeclaredDepth(entry.depth, env).None? {
      DepthRule(entry.depth, minDepth, env);
      forall i | 0 <= i < |entry.merges| && main.Some? && NamedBranch(g, odooVersion, entry.remotes, name, entry.merges[i]).Some?
        ensures g.depth(name, main.value, NamedBranch(g, odooVersion, entry.remotes, name, entry.merges[i]).value) == 0
      {
        assert done[i] == i;
        IndexDepthsHas(g, odooVersion, entry.remotes, name, main.value, entry.merges, done, i);
      }
    }
  }

  class PinRun {
    const git: Git
    const odooVersion: string
    /** `PRIVATE` of the shared settings: the private addons' directory name */
    const privateName: string
    /** `current_heads` */
    var currentHeads: map<string, string>
    /** `all_commits` */
    var allCommits: map<string, seq<string>>
    /** `repo_min_depth` */
    var repoMinDepth: map<string, nat>

    constructor(git: Git, odooVersion: string, privateName: string)
      ensures this.git == git && this.odooVersion == odooVersion && this.privateName == privateName
      ensures currentHeads == map[] && allCommits == map[] && repoMinDepth == map[]
    {
      this.git := git;
      this.odooVersion := odooVersion;
      this.privateName := privateName;
      currentHeads := map[];
      allCommits := map[];
      repoMinDepth := map[];
    }

    /** `process_merge`: records the repository's head and history, then
        rewrites the line. */
    method ProcessMerge(remotes: set<string>, repo: string, merge: string) returns (r: Option<string>)
      modifies this
      ensures r == MergeLine(git, odooVersion, remotes, repo, merge)
      ensures repoMinDepth == old(repoMinDepth)
      ensures PreprocessMerge(remotes, git.built(repo), merge).Prepared? ==>
              currentHeads == old(currentHeads)[repo := git.head(repo)] &&
              allCommits == old(allCommits)[repo := git.history(repo)]
      ensures !PreprocessMerge(remotes, git.built(repo), merge).Prepared? ==>
              currentHeads == old(currentHeads) && allCommits == old(allCommits)
      ensures CommitsFrom(git, old(allCommits), allCommits)
    {
      var p := PreprocessMerge(remotes, git.built(repo), merge);
      if !p.Prepared? {
        return None;
      }
      var tokens := p.tokens;
      currentHeads := currentHeads[repo := git.head(repo)];
      allCommits := allCommits[repo := git.history(repo)];
      var t := GetMergeType(tokens, allCommits[repo]);
      if t.None? {
        return None;
      }
      if t.value == BranchPin {
        var name := GetBranchname(tokens, t.value, odooVersion);
        var pin := git.mergeBase(repo, Ref(tokens[0], name.value));
        if tokens[2] != pin {
          tokens := tokens[2 := pin];
        }
      }
      if t.value == Pin {
        tokens := tokens[1 := currentHeads[repo]];
      }
      if t.value == Branch {
        var name := GetBranchname(tokens, t.value, odooVersion);
        if name.value != "" {
          tokens := tokens + [git.mergeBase(repo, Ref(tokens[0], name.value))];
        }
      }
      r := Some(Join(" ", tokens));
    }

    /** Lines 252-283 for the merge at `index`: pins the line, then, when it
        names a branch, computes its depth `d` against the main branch,
        raises the running depth to it and the `depth` default to that.  A
        branch merge with a pinned main line raises (`False` in a join), as
        does a `depth` default `int()` cannot read. */
    method PinMerge(name: string, e: RepoDoc, index: nat, merge: string, mainRef: Option<string>, env: map<string, string>)
      returns (out: Option<RepoDoc>, ghost d: Option<nat>)
      requires index < |e.merges|
      requires name in repoMinDepth
      modifies this
      ensures name in repoMinDepth
      ensures repoMinDepth == old(repoMinDepth)[name := if d.Some? && d.value > old(repoMinDepth[name]) then d.value else old(repoMinDepth[name])]
      ensures d == (if MergeLine(git, odooVersion, e.remotes, name, merge).Some? &&
                       NamedBranch(git, odooVersion, e.remotes, name, merge).Some? && mainRef.Some?
                    then Some(git.depth(name, mainRef.value, NamedBranch(git, odooVersion, e.remotes, name, merge).value))
                    else None)
      ensures out.Some? <==>
              MergeLine(git, odooVersion, e.remotes, name, merge).Some? &&
              (NamedBranch(git, odooVersion, e.remotes, name, merge).Some? ==>
                 mainRef.Some? && NewDepth(e.depth, repoMinDepth[name], env).Some?)
      ensures out.Some? ==> out.value.remotes == e.remotes && out.value.target == e.target
      ensures out.Some? ==> out.value.merges == e.merges[index := MergeLine(git, odooVersion, e.remotes, name, merge).value]
      ensures out.Some? && d.Some? ==> NewDepth(e.depth, repoMinDepth[name], env) == Some(out.value.depth)
      ensures out.Some? && d.None? ==> out.value.depth == e.depth
      ensures CommitsFrom(git, old(allCommits), allCommits)
    {
      d := None;
      var line := ProcessMerge(e.remotes, name, merge);
      if line.None? {
        return None, d;
      }
      var next := e.(merges := e.merges[index := line.value]);
      var tokens := PreprocessMerge(e.remotes, git.built(name), merge).tokens;
      var t := GetMergeType(tokens, allCommits[name]).value;
      var branchname := GetBranchname(tokens, t, odooVersion);
      if branchname.Some? && branchname.value != "" {
        if mainRef.None? {
          return None, d;
        }
        var depth := git.depth(name, mainRef.value, Ref(tokens[0], branchname.value));
        d := Some(depth);
        var before := repoMinDepth[name];
        RaiseDepthMax(before, depth);
        repoMinDepth := repoMinDepth[name := RaiseDepth(before, depth)];
        var raised := NewDepth(next.depth, repoMinDepth[name], env);
        if raised.None? {
          return None, d;
        }
        next := next.(depth := raised.value);
      }
      return Some(next), d;
    }

    /** One pass of the loop of lines 243-283: the merge at `i` is skipped,
        as `--only-base` says for the place `.index` finds it at, or pinned
        there by `PinMerge`. */
    method PinNext(name: string, entry: RepoDoc, hasTarget: bool, onlyBase: bool, mainRef: Option<string>, env: map<string, string>,
                   e: RepoDoc, i: nat, ghost depths: seq<nat>, ghost done: seq<nat>)
      returns (next: Option<RepoDoc>, ghost depths': seq<nat>, ghost done': seq<nat>)
      requires i < |e.merges| && name in repoMinDepth
      requires LoopState(git, odooVersion, name, entry, hasTarget, onlyBase, mainRef, env, e, i, repoMinDepth[name], depths, done)
      modifies this
      ensures name in repoMinDepth && repoMinDepth == old(repoMinDepth)[name := repoMinDepth[name]]
      ensures next.Some? ==>
              LoopState(git, odooVersion, name, entry, hasTarget, onlyBase, mainRef, env, next.value, i + 1, repoMinDepth[name], depths', done')
      ensures OnlyBaseSkips(onlyBase, hasTarget, FirstIndex(e.merges, e.merges[i])) ==> next == Some(e)
      ensures !OnlyBaseSkips(onlyBase, hasTarget, FirstIndex(e.merges, e.merges[i])) ==>
              !MergeAccepted(git, odooVersion, name, entry.remotes, mainRef, entry.merges[i]) ==> next.None?
      ensures MergeAccepted(git, odooVersion, name, entry.remotes, mainRef, entry.merges[i]) ==>
              DepthReadable(git, odooVersion, name, entry, mainRef, env) ==> next.Some?
      ensures CommitsFrom(git, old(allCommits), allCommits)
    {
      var index := FirstIndex(e.merges, e.merges[i]);
      if OnlyBaseSkips(onlyBase, hasTarget, index) {
        SkipStep(git, odooVersion, name, entry, hasTarget, onlyBase, mainRef, env, e, i, repoMinDepth[name], depths, done);
        return Some(e), depths, done;
      }
      next, depths', done' := PinAt(name, entry, hasTarget, onlyBase, mainRef, env, e, i, index, depths, done);
    }

    /** A pass of the loop of lines 243-283 that does not skip the merge at
        `i`: `PinMerge` pins it at `index`, where `.index` finds it. */
    method PinAt(name: string, entry: RepoDoc, hasTarget: bool, onlyBase: bool, mainRef: Option<string>, env: map<string, string>,
                 e: RepoDoc, i: nat, index: nat, ghost depths: seq<nat>, ghost done: seq<nat>)
      returns (next: Option<RepoDoc>, ghost depths': seq<nat>, ghost done': seq<nat>)
      requires i < |e.merges| && name in repoMinDepth
      requires LoopState(git, odooVersion, name, entry, hasTarget, onlyBase, mainRef, env, e, i, repoMinDepth[name], depths, done)
      requires index == FirstIndex(e.merges, e.merges[i]) && !OnlyBaseSkips(onlyBase, hasTarget, index)
      modifies this
      ensures name in repoMinDepth && repoMinDepth == old(repoMinDepth)[name := repoMinDepth[name]]
      ensures next.Some? ==>
              LoopState(git, odooVersion, name, entry, hasTarget, onlyBase, mainRef, env, next.value, i + 1, repoMinDepth[name], depths', done')
      ensures !MergeAccepted(git, odooVersion, name, entry.remotes, mainRef, entry.merges[i]) ==> next.None?
      ensures MergeAccepted(git, odooVersion, name, entry.remotes, mainRef, entry.merges[i]) ==>
              DepthReadable(git, odooVersion, name, entry, mainRef, env) ==> next.Some?
      ensures CommitsFrom(git, old(allCommits), allCommits)
    {
      var merge := e.merges[i];
      ghost var before := repoMinDepth[name];
      var pinned, d := PinMerge(name, e, index, merge, mainRef, env);
      PinAccepted(git, odooVersion, name, entry, hasTarget, onlyBase, mainRef, env, e, i, before, depths, done,
                  repoMinDepth[name], d, pinned.Some?);
      if pinned.None? {
        return None, depths, done;
      }
      PinStep(git, odooVersion, name, entry, hasTarget, onlyBase, mainRef, env, e, i, before, depths, done,
              pinned.value, d, repoMinDepth[name]);
      depths' := if d.Some? then depths + [d.value] else depths;
      done' := done + [i];
      next := pinned;
    }

    /** Lines 243-283: the loop over the merges of a repository whose
        running depth has been reset, with `.index(merge)` looked up in the
        list as rewritten so far. */
    method PinMerges(name: string, entry: RepoDoc, hasTarget: bool, onlyBase: bool, mainRef: Option<string>, env: map<string, string>)
      returns (out: Option<RepoDoc>, ghost depths: seq<nat>, ghost done: seq<nat>)
      requires name in repoMinDepth && repoMinDepth[name] == 0
      modifies this
      ensures name in repoMinDepth && repoMinDepth == old(repoMinDepth)[name := repoMinDepth[name]]
      ensures out.Some? ==> out.value.target == entry.target
      ensures out.Some? ==>
              MergesPinned(git, odooVersion, name, entry, hasTarget, onlyBase, mainRef, env, out.value, repoMinDepth[name], depths, done)
      ensures MergesAccepted(git, odooVersion, name, entry, mainRef) && DepthReadable(git, odooVersion, name, entry, mainRef, env) ==>
              out.Some?
      ensures onlyBase && hasTarget ==> out.Some?
      ensures !onlyBase ==>
              (out.Some? <==> MergesAccepted(git, odooVersion, name, entry, mainRef) && DepthReadable(git, odooVersion, name, entry, mainRef, env))
      ensures CommitsFrom(git, old(allCommits), allCommits)
    {
      depths, done := [], [];
      var e := entry;
      var i := 0;
      LoopStart(git, odooVersion, name, entry, hasTarget, onlyBase, mainRef, env);
      while i < |e.merges|
        invariant name in repoMinDepth && repoMinDepth == old(repoMinDepth)[name := repoMinDepth[name]]
        invariant LoopState(git, odooVersion, name, entry, hasTarget, onlyBase, mainRef, env, e, i, repoMinDepth[name], depths, done)
        invariant CommitsFrom(git, old(allCommits), allCommits)
        decreases |e.merges| - i
      {
        ghost var before := repoMinDepth[name];
        ghost var commits := allCommits;
        var next;
        next, depths, done := PinNext(name, entry, hasTarget, onlyBase, mainRef, env, e, i, depths, done);
        UpdateTwice(old(repoMinDepth), name, before, repoMinDepth[name]);
        CommitsTrans(git, old(allCommits), commits, allCommits);
        if next.None? {
          return None, depths, done;
        }
        e := next.value;
        i := i + 1;
      }
      LoopDone(git, odooVersion, name, entry, hasTarget, onlyBase, mainRef, env, e, repoMinDepth[name], depths, done);
      if !onlyBase {
        PinnedAccepted(git, odooVersion, name, entry, hasTarget, mainRef, env, e, repoMinDepth[name], depths, done);
      }
      return Some(e), depths, done;
    }

    /** The body of `main`'s loop for one repository: pins the target, finds
        the main branch (the target, or else the first merge) and pins the
        merges; None where the script raises or exits.  `main` is the main
        branch found from the tokens `mainTokens` of its line. */
    method ProcessRepo(name: string, entry: RepoDoc, onlyBase: bool, env: map<string, string>)
      returns (out: Option<RepoDoc>, ghost depths: seq<nat>, ghost done: seq<nat>,
               ghost main: Option<string>, ghost mainTokens: seq<string>)
      modifies this
      ensures name in repoMinDepth && repoMinDepth == old(repoMinDepth)[name := repoMinDepth[name]]
      ensures IgnoredRepo(privateName, name) ==>
              out == Some(entry) && repoMinDepth[name] == 0 && depths == []
      ensures out.Some? && !HasTarget(entry) ==> out.value.target == entry.target
      ensures out.Some? && HasTarget(entry) && !IgnoredRepo(privateName, name) ==>
              out.value.target == MergeLine(git, odooVersion, entry.remotes, name, entry.target.value)
      ensures out.Some? && !IgnoredRepo(privateName, name) ==>
              (HasTarget(entry) || entry.merges != []) &&
              mainTokens == SplitTokens(if HasTarget(entry) then entry.target.value else entry.merges[0]) &&
              NonEmpty(mainTokens) == Fields(if HasTarget(entry) then entry.target.value else entry.merges[0]) &&
              MainRefOf(mainTokens,
                        if HasTarget(entry) then git.history(name)
                        else Hist(old(allCommits), name),
                        odooVersion) == Some(main)
      ensures out.Some? && !IgnoredRepo(privateName, name) ==>
              MergesPinned(git, odooVersion, name, entry, HasTarget(entry), onlyBase, main, env, out.value, repoMinDepth[name], depths, done)
      ensures out.Some? && !IgnoredRepo(privateName, name) ==>
              RepoFound(git, odooVersion, name, entry, Hist(old(allCommits), name)) &&
              MainOf(git, odooVersion, name, entry, Hist(old(allCommits), name)) == Some(main)
      ensures !IgnoredRepo(privateName, name) && RepoAccepted(git, odooVersion, name, entry, Hist(old(allCommits), name), env) ==>
              out.Some?
      ensures !IgnoredRepo(privateName, name) && onlyBase && HasTarget(entry) ==>
              RepoFound(git, odooVersion, name, entry, Hist(old(allCommits), name)) ==> out.Some?
      ensures !IgnoredRepo(privateName, name) && !onlyBase && out.Some? ==>
              RepoAccepted(git, odooVersion, name, entry, Hist(old(allCommits), name), env)
      ensures CommitsFrom(git, old(allCommits), allCommits)
    {
      repoMinDepth := repoMinDepth[name := 0];
      depths, done, main, mainTokens := [], [], None, [];
      if IgnoredRepo(privateName, name) {
        return Some(entry), depths, done, main, mainTokens;
      }
      var e := entry;
      var hasTarget := HasTarget(entry);
      if hasTarget {
        var t := ProcessMerge(e.remotes, name, entry.target.value);
        if t.None? {
          return None, depths, done, main, mainTokens;
        }
        e := e.(target := t);
      }
      var mainLine: string;
      if hasTarget {
        mainLine := entry.target.value;
      } else if |e.merges| == 0 {
        return None, depths, done, main, mainTokens;
      } else {
        mainLine := e.merges[0];
      }
      var found, mainRef, tokens := MainBranch(name, mainLine);
      mainTokens := tokens;
      if !found {
        return None, depths, done, main, mainTokens;
      }
      main := mainRef;
      ghost var commits := allCommits;
      AcceptedIgnoresTarget(git, odooVersion, name, entry, mainRef, env, e.target);
      out, depths, done := PinMerges(name, e, hasTarget, onlyBase, mainRef, env);
      UpdateTwice(old(repoMinDepth), name, 0, repoMinDepth[name]);
      CommitsTrans(git, old(allCommits), commits, allCommits);
      if out.Some? {
        PinnedIgnoresTarget(git, odooVersion, name, entry, hasTarget, onlyBase, main, env,
                            out.value, repoMinDepth[name], depths, done, e.target);
      }
    }

    /** Lines 240-242: the tokens of the main line and the branch they
        name, read against the history recorded for the repository;
        `found` is false where `get_merge_type` raises. */
    method MainBranch(name: string, mainLine: string) returns (found: bool, mainRef: Option<string>, tokens: seq<string>)
      ensures tokens == SplitTokens(mainLine) && NonEmpty(tokens) == Fields(mainLine)
      ensures var m := MainRefOf(tokens, Hist(allCommits, name), odooVersion);
              (found <==> m.Some?) && (found ==> m == Some(mainRef))
    {
      tokens := SplitLine(mainLine);
      var mainType := GetMergeType(tokens, Hist(allCommits, name));
      if mainType.None? {
        return false, None, tokens;
      }
      var mainName := GetBranchname(tokens, mainType.value, odooVersion);
      mainRef := if mainName.Some? then Some(Ref(tokens[0], mainName.value)) else None;
      found := true;
    }

    /** One pass of `main`'s loop over a document: the entry `d` as
        `ProcessRepo` makes it, read against commits recorded since
        `before`, those at the start of the document. */
    method ProcessEntry(d: (string, RepoDoc), onlyBase: bool, env: map<string, string>, ghost before: map<string, seq<string>>)
      returns (r: Option<RepoDoc>, ghost main: Option<string>, ghost done: seq<nat>, ghost depths: seq<nat>)
      requires CommitsFrom(git, before, allCommits)
      modifies this
      ensures d.0 in repoMinDepth && repoMinDepth == old(repoMinDepth)[d.0 := repoMinDepth[d.0]]
      ensures CommitsFrom(git, before, allCommits)
      ensures r.Some? ==>
              && EntryPinned(git, odooVersion, privateName, onlyBase, env, d, (d.0, r.value), main, done, depths)
              && repoMinDepth[d.0] == MaxOf(depths)
              && EntryReached(git, odooVersion, privateName, onlyBase, d.0, d.1, before, env)
      ensures (!IgnoredRepo(privateName, d.0) ==>
                 RepoAccepted(git, odooVersion, d.0, d.1, Hist(before, d.0), env) &&
                 RepoAccepted(git, odooVersion, d.0, d.1, git.history(d.0), env)) ==>
              r.Some?
    {
      ghost var commits := allCommits;
      ghost var mainTokens;
      r, depths, done, main, mainTokens := ProcessRepo(d.0, d.1, onlyBase, env);
      EntryReachedStep(git, odooVersion, privateName, onlyBase, d.0, d.1, before, commits, env, r.Some?);
      CommitsTrans(git, before, commits, allCommits);
    }

    /** `main` over one document of `repos.yaml`: every repository entry in
        order; None where the script raises or exits.  Each entry keeps its
        name and becomes what `EntryPinned` says, for the main branch
        `mains[k]`, the positions `dones[k]` and the depths `depthss[k]`;
        and the running depth of each name is that of its last entry. */
    method ProcessDoc(doc: seq<(string, RepoDoc)>, onlyBase: bool, env: map<string, string>)
      returns (out: Option<seq<(string, RepoDoc)>>, ghost mains: seq<Option<string>>,
               ghost dones: seq<seq<nat>>, ghost depthss: seq<seq<nat>>)
      modifies this
      ensures out.Some? ==> |out.value| == |doc| == |mains| == |dones| == |depthss|
      ensures out.Some? ==> forall k :: 0 <= k < |doc| ==>
                doc[k].0 in repoMinDepth &&
                EntryPinned(git, odooVersion, privateName, onlyBase, env, doc[k], out.value[k], mains[k], dones[k], depthss[k])
      ensures out.Some? ==> forall k :: 0 <= k < |doc| && (forall j :: k < j < |doc| ==> doc[j].0 != doc[k].0) ==>
                repoMinDepth[doc[k].0] == MaxOf(depthss[k])
      ensures DocAccepted(git, odooVersion, privateName, doc, old(allCommits), env) ==> out.Some?
      ensures out.Some? ==> DocReached(git, odooVersion, privateName, onlyBase, doc, |doc|, old(allCommits), env)
    {
      var acc: seq<(string, RepoDoc)> := [];
      mains, dones, depthss := [], [], [];
      var i := 0;
      while i < |doc|
        invariant 0 <= i <= |doc| && |acc| == i == |mains| == |dones| == |depthss|
        invariant forall k :: 0 <= k < i ==>
                    doc[k].0 in repoMinDepth &&
                    EntryPinned(git, odooVersion, privateName, onlyBase, env, doc[k], acc[k], mains[k], dones[k], depthss[k])
        invariant forall k :: 0 <= k < i && (forall j :: k < j < i ==> doc[j].0 != doc[k].0) ==>
                    repoMinDepth[doc[k].0] == MaxOf(depthss[k])
        invariant CommitsFrom(git, old(allCommits), allCommits)
        invariant DocReached(git, odooVersion, privateName, onlyBase, doc, i, old(allCommits), env)
      {
        var r, main, done, depths := ProcessEntry(doc[i], onlyBase, env, old(allCommits));
        if r.None? {
          return None, mains, dones, depthss;
        }
        DocReachedNext(git, odooVersion, privateName, onlyBase, doc, i, old(allCommits), env);
        acc := acc + [(doc[i].0, r.value)];
        mains, dones, depthss := mains + [main], dones + [done], depthss + [depths];
        i := i + 1;
      }
      return Some(acc), mains, dones, depthss;
    }
  }
}
