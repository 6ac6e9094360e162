/** Preparing the build of one version: the `.env-secret` variables it is
    given (`write_env_secret`), the repositories kept from a `repos.yaml`
    configuration (`exclude_repos`), and the edit that replaces a function
    body in the downloaded enterprise upgrade script (`alter_code_block`). */
module BuildConfig {
  import opened Wrappers
  import opened PyStr
  import opened Versions

  // ---------------------------------------------------------------------
  // `write_env_secret(build_dir, version)`

  /** A variable and its value, in the order the overrides are listed. */
  type Pair = (string, string)

  /** The line `KEY="value"` written for an override; the value is not
      escaped. */
  function Quote(p: Pair): string {
    p.0 + "=\"" + p.1 + "\""
  }

  /** The overrides of a build's variables, in insertion order.  None where
      PGDATABASE is missing from the environment and the lookup raises. */
  function Overrides(env: map<string, string>, version: nat, enterpriseEnabled: bool, startVersion: Option<string>): (r: Option<seq<Pair>>)
    ensures r.Some? <==> "PGDATABASE" in env
  {
    if "PGDATABASE" !in env then None
    else
      var db := env["PGDATABASE"];
      var base := [("ODOO_VERSION", VersionName(version)), ("PGDATABASE", db),
                   ("ODOO_DBFILTER", "^" + db + "$"), ("LOG_LEVEL", "DEBUG"), ("PGPORT", "5432")];
      var password := if "PGPASSWORD" in env then [("PGPASSWORD", env["PGPASSWORD"])] else [];
      var pattern :=
        if enterpriseEnabled then [("DEFAULT_REPO_PATTERN_ODOO", "https://github.com/odoo/odoo.git")]
        else if version < 14 && Some(VersionName(version)) != startVersion then
          [("DEFAULT_REPO_PATTERN_ODOO", "https://github.com/OCA/OpenUpgrade.git")]
        else [];
      Some(base + password + pattern)
  }

  /** The value `ov` gives `k`, if any. */
  function ValueFor(ov: seq<Pair>, k: string): Option<string> {
    if ov == [] then None
    else if ov[0].0 == k then Some(ov[0].1)
    else ValueFor(ov[1..], k)
  }

  lemma {:induction false} ValueForIn(ov: seq<Pair>, k: string)
    ensures ValueFor(ov, k).Some? <==> exists n :: 0 <= n < |ov| && ov[n].0 == k
    ensures ValueFor(ov, k).Some? ==> (k, ValueFor(ov, k).value) in ov
  {
    if ov != [] {
      ValueForIn(ov[1..], k);
      if ValueFor(ov, k).None? {
        forall n | 0 <= n < |ov| ensures ov[n].0 != k {
          if n > 0 { assert ov[n] == ov[1..][n - 1]; }
        }
      } else if ov[0].0 != k {
        var n :| 0 <= n < |ov[1..]| && ov[1..][n].0 == k;
        assert ov[n + 1].0 == k;
      }
    }
  }

  /** No variable is overridden twice. */
  predicate DistinctKeys(ov: seq<Pair>) {
    forall a, b :: 0 <= a < b < |ov| ==> ov[a].0 != ov[b].0
  }

  lemma {:induction false} ValueForDistinct(ov: seq<Pair>, n: nat)
    requires DistinctKeys(ov) && n < |ov|
    ensures ValueFor(ov, ov[n].0) == Some(ov[n].1)
  {
    if n > 0 {
      assert DistinctKeys(ov[1..]) by {
        forall a, b | 0 <= a < b < |ov[1..]| ensures ov[1..][a].0 != ov[1..][b].0 {
          assert ov[1..][a] == ov[a + 1] && ov[1..][b] == ov[b + 1];
        }
      }
      ValueForDistinct(ov[1..], n - 1);
      assert ov[1..][n - 1] == ov[n];
    }
  }

  /** The overrides in their order: five fixed ones, then the password
      when the environment has one, then the repository pattern when one is
      chosen. */
  lemma OverridesShape(env: map<string, string>, version: nat, enterpriseEnabled: bool, startVersion: Option<string>)
    requires "PGDATABASE" in env
    ensures var ov := Overrides(env, version, enterpriseEnabled, startVersion).value;
            var pw := if "PGPASSWORD" in env then 1 else 0;
            var pattern := enterpriseEnabled || (version < 14 && Some(VersionName(version)) != startVersion);
            && |ov| == 5 + pw + (if pattern then 1 else 0)
            && ov[0] == ("ODOO_VERSION", VersionName(version))
            && ov[1] == ("PGDATABASE", env["PGDATABASE"])
            && ov[2] == ("ODOO_DBFILTER", "^" + env["PGDATABASE"] + "$")
            && ov[3] == ("LOG_LEVEL", "DEBUG")
            && ov[4] == ("PGPORT", "5432")
            && ("PGPASSWORD" in env ==> ov[5] == ("PGPASSWORD", env["PGPASSWORD"]))
            && (pattern ==> ov[|ov| - 1].0 == "DEFAULT_REPO_PATTERN_ODOO")
            && (enterpriseEnabled ==> ov[|ov| - 1].1 == "https://github.com/odoo/odoo.git")
            && (!enterpriseEnabled && pattern ==> ov[|ov| - 1].1 == "https://github.com/OCA/OpenUpgrade.git")
  {
  }

  /** The names the overrides may use. */
  function OverrideNames(): seq<string> {
    ["ODOO_VERSION", "PGDATABASE", "ODOO_DBFILTER", "LOG_LEVEL", "PGPORT", "PGPASSWORD", "DEFAULT_REPO_PATTERN_ODOO"]
  }

  lemma OverrideNamesDistinct()
    ensures forall a, b :: 0 <= a < b < |OverrideNames()| ==> OverrideNames()[a] != OverrideNames()[b]
  {
    assert "PGDATABASE"[2] != "PGPASSWORD"[2];
  }

  /** No variable is overridden twice. */
  lemma OverridesDistinct(env: map<string, string>, version: nat, enterpriseEnabled: bool, startVersion: Option<string>)
    requires "PGDATABASE" in env
    ensures DistinctKeys(Overrides(env, version, enterpriseEnabled, startVersion).value)
  {
    var ov := Overrides(env, version, enterpriseEnabled, startVersion).value;
    OverridesShape(env, version, enterpriseEnabled, startVersion);
    OverrideNamesDistinct();
    var names := OverrideNames();
    var slot := (n: int) => if n < 5 then n else if n == 5 && "PGPASSWORD" in env then 5 else 6;
    assert forall n :: 0 <= n < |ov| ==> ov[n].0 == names[slot(n)];
    forall a, b | 0 <= a < b < |ov| ensures ov[a].0 != ov[b].0 {
      assert slot(a) < slot(b);
    }
  }

  /** PGPORT is always pinned to 5432 (an empty port would be tried as a
      port), the log level to DEBUG, the version to the build's, and the
      database filter matches the database name exactly. */
  lemma OverridesFixed(env: map<string, string>, version: nat, enterpriseEnabled: bool, startVersion: Option<string>)
    requires "PGDATABASE" in env
    ensures var ov := Overrides(env, version, enterpriseEnabled, startVersion).value;
            && ValueFor(ov, "PGPORT") == Some("5432")
            && ValueFor(ov, "LOG_LEVEL") == Some("DEBUG")
            && ValueFor(ov, "ODOO_VERSION") == Some(VersionName(version))
            && ValueFor(ov, "ODOO_DBFILTER") == Some("^" + env["PGDATABASE"] + "$")
  {
    var ov := Overrides(env, version, enterpriseEnabled, startVersion).value;
    OverridesShape(env, version, enterpriseEnabled, startVersion);
    OverridesDistinct(env, version, enterpriseEnabled, startVersion);
    ValueForDistinct(ov, 0);
    ValueForDistinct(ov, 2);
    ValueForDistinct(ov, 3);
    ValueForDistinct(ov, 4);
  }

  /** The repository pattern is the enterprise one with the enterprise
      migration, OpenUpgrade's below 14.0 except for the start version, and
      left alone otherwise. */
  lemma OverridesPattern(env: map<string, string>, version: nat, enterpriseEnabled: bool, startVersion: Option<string>)
    requires "PGDATABASE" in env
    ensures ValueFor(Overrides(env, version, enterpriseEnabled, startVersion).value, "DEFAULT_REPO_PATTERN_ODOO")
            == if enterpriseEnabled then Some("https://github.com/odoo/odoo.git")
               else if version < 14 && Some(VersionName(version)) != startVersion then Some("https://github.com/OCA/OpenUpgrade.git")
               else None
  {
    var ov := Overrides(env, version, enterpriseEnabled, startVersion).value;
    OverridesShape(env, version, enterpriseEnabled, startVersion);
    OverridesDistinct(env, version, enterpriseEnabled, startVersion);
    OverrideNamesDistinct();
    var names := OverrideNames();
    if enterpriseEnabled || (version < 14 && Some(VersionName(version)) != startVersion) {
      ValueForDistinct(ov, |ov| - 1);
    } else {
      ValueForIn(ov, "DEFAULT_REPO_PATTERN_ODOO");
      assert forall n :: 0 <= n < |ov| ==> ov[n].0 == names[n];
    }
  }

  /** The password is passed on exactly when the environment has one. */
  lemma OverridesPassword(env: map<string, string>, version: nat, enterpriseEnabled: bool, startVersion: Option<string>)
    requires "PGDATABASE" in env
    ensures ValueFor(Overrides(env, version, enterpriseEnabled, startVersion).value, "PGPASSWORD")
            == if "PGPASSWORD" in env then Some(env["PGPASSWORD"]) else None
  {
    var ov := Overrides(env, version, enterpriseEnabled, startVersion).value;
    OverridesShape(env, version, enterpriseEnabled, startVersion);
    OverridesDistinct(env, version, enterpriseEnabled, startVersion);
    OverrideNamesDistinct();
    var names := OverrideNames();
    if "PGPASSWORD" in env {
      ValueForDistinct(ov, 5);
    } else {
      ValueForIn(ov, "PGPASSWORD");
      assert forall n :: 0 <= n < |ov| ==> ov[n].0 == names[if n < 5 then n else 6];
    }
  }

  /** The name in front of the first '=' of a line, stripped; None for a
      line without '='. */
  function LineKey(line: string): Option<string> {
    var i := Find(line, "=", 0);
    if i == -1 then None else Some(Strip(line[..i]))
  }

  /** What the first loop makes of one line of the file: nothing for a line
      without '=', the override of its variable, or the stripped line. */
  function RewriteLine(ov: seq<Pair>, line: string): Option<string> {
    match LineKey(line)
    case None => None
    case Some(k) =>
      if ValueFor(ov, k).Some? then Some(Quote((k, ValueFor(ov, k).value))) else Some(Strip(line))
  }

  /** The lines of the first loop and the variables it rewrote, both in file
      order. */
  function Rewrite(ov: seq<Pair>, file: seq<string>): (seq<string>, seq<string>) {
    if file == [] then ([], [])
    else
      var a := Rewrite(ov, file[..|file| - 1]);
      var line := file[|file| - 1];
      match RewriteLine(ov, line)
      case None => a
      case Some(out) =>
        if ValueFor(ov, LineKey(line).value).Some? then (a.0 + [out], a.1 + [LineKey(line).value])
        else (a.0 + [out], a.1)
  }

  /** The lines the second loop appends: the overrides of the variables
      the file did not name, in override order. */
  function Missing(ov: seq<Pair>, rewritten: seq<string>): seq<string> {
    if ov == [] then []
    else (if ov[0].0 in rewritten then [] else [Quote(ov[0])]) + Missing(ov[1..], rewritten)
  }

  /** The lines of the rewritten `.env-secret`: the file's lines as the
      first loop leaves them, then the missing overrides. */
  function EnvSecretLines(ov: seq<Pair>, file: seq<string>): seq<string> {
    var a := Rewrite(ov, file);
    a.0 + Missing(ov, a.1)
  }

  /** `write_env_secret`: the lines written to the build's `.env-secret`,
      read from the existing file or, where there is none, from the
      template it is copied from.  None where PGDATABASE is unset. */
  method WriteEnvSecret(env: map<string, string>, version: nat, enterpriseEnabled: bool, startVersion: Option<string>,
                        existing: Option<seq<string>>, template: seq<string>) returns (r: Option<seq<string>>)
    ensures r.Some? <==> "PGDATABASE" in env
    ensures r.Some? ==> r.value == EnvSecretLines(Overrides(env, version, enterpriseEnabled, startVersion).value,
                                                  if existing.Some? then existing.value else template)
  {
    var ovo := Overrides(env, version, enterpriseEnabled, startVersion);
    if ovo.None? {
      return None;
    }
    var file := if existing.Some? then existing.value else template;
    var lines, rewrittenLines := RewriteFile(ovo.value, file);
    lines := AddMissing(ovo.value, lines, rewrittenLines);
    r := Some(lines);
  }

  /** The first loop of `write_env_secret`, over the lines of the file. */
  method RewriteFile(ov: seq<Pair>, file: seq<string>) returns (lines: seq<string>, rewrittenLines: seq<string>)
    ensures (lines, rewrittenLines) == Rewrite(ov, file)
  {
    lines, rewrittenLines := [], [];
    var n := 0;
    while n < |file|
      invariant 0 <= n <= |file|
      invariant (lines, rewrittenLines) == Rewrite(ov, file[..n])
    {
      assert file[..n + 1][..n] == file[..n];
      var line := file[n];
      var i := Find(line, "=", 0);
      if i != -1 {
        var key := Strip(line[..i]);
        var value := ValueFor(ov, key);
        if value.Some? {
          lines := lines + [Quote((key, value.value))];
          rewrittenLines := rewrittenLines + [key];
        } else {
          lines := lines + [Strip(line)];
        }
      }
      n := n + 1;
    }
    assert file[..n] == file;
  }

  /** The second loop of `write_env_secret`, over the overrides. */
  method AddMissing(ov: seq<Pair>, lines0: seq<string>, rewrittenLines: seq<string>) returns (lines: seq<string>)
    ensures lines == lines0 + Missing(ov, rewrittenLines)
  {
    lines := lines0;
    var m := 0;
    while m < |ov|
      invariant 0 <= m <= |ov|
      invariant lines + Missing(ov[m..], rewrittenLines) == lines0 + Missing(ov, rewrittenLines)
    {
      assert ov[m..] == [ov[m]] + ov[m + 1..];
      if ov[m].0 !in rewrittenLines {
        lines := lines + [Quote(ov[m])];
      }
      m := m + 1;
    }
  }

  /** Each line the first loop writes is what it makes of some line of the
      file. */
  lemma {:induction false} RewriteFromFile(ov: seq<Pair>, file: seq<string>, t: nat)
    requires t < |Rewrite(ov, file).0|
    ensures exists n :: 0 <= n < |file| && RewriteLine(ov, file[n]) == Some(Rewrite(ov, file).0[t])
  {
    var p := file[..|file| - 1];
    var a := Rewrite(ov, file);
    var b := Rewrite(ov, p);
    if t < |b.0| {
      assert a.0[t] == b.0[t];
      RewriteFromFile(ov, p, t);
      var n :| 0 <= n < |p| && RewriteLine(ov, p[n]) == Some(b.0[t]);
      assert p[n] == file[n];
    } else {
      assert RewriteLine(ov, file[|file| - 1]) == Some(a.0[t]);
    }
  }

  /** The first loop keeps every line of the file that contains '=': it
      drops only lines without one. */
  lemma {:induction false} RewriteKeeps(ov: seq<Pair>, file: seq<string>)
    ensures var a := Rewrite(ov, file);
            forall n :: 0 <= n < |file| && RewriteLine(ov, file[n]).Some? ==> RewriteLine(ov, file[n]).value in a.0
  {
    if file != [] {
      var p := file[..|file| - 1];
      RewriteKeeps(ov, p);
      assert forall n :: 0 <= n < |p| ==> p[n] == file[n];
    }
  }

  /** The variables rewritten are those named by a line of the file that
      have an override. */
  lemma {:induction false} RewriteKeys(ov: seq<Pair>, file: seq<string>, k: string)
    ensures k in Rewrite(ov, file).1 <==> exists n :: 0 <= n < |file| && LineKey(file[n]) == Some(k) && ValueFor(ov, k).Some?
  {
    if file != [] {
      var p := file[..|file| - 1];
      var last := file[|file| - 1];
      RewriteKeys(ov, p, k);
      if exists n :: 0 <= n < |p| && LineKey(p[n]) == Some(k) && ValueFor(ov, k).Some? {
        var n :| 0 <= n < |p| && LineKey(p[n]) == Some(k) && ValueFor(ov, k).Some?;
        assert file[n] == p[n];
      } else if LineKey(last) == Some(k) && ValueFor(ov, k).Some? {
      } else {
        assert forall n :: 0 <= n < |file| ==> !(LineKey(file[n]) == Some(k) && ValueFor(ov, k).Some?) by {
          forall n | 0 <= n < |file| ensures !(LineKey(file[n]) == Some(k) && ValueFor(ov, k).Some?) {
            if n < |p| { assert file[n] == p[n]; }
          }
        }
      }
    }
  }

  /** The missing lines are the overrides of exactly the variables not
      rewritten. */
  lemma {:induction false} MissingLines(ov: seq<Pair>, rewritten: seq<string>)
    ensures forall n :: 0 <= n < |ov| && ov[n].0 !in rewritten ==> Quote(ov[n]) in Missing(ov, rewritten)
    ensures forall x :: x in Missing(ov, rewritten) ==> exists n :: 0 <= n < |ov| && ov[n].0 !in rewritten && x == Quote(ov[n])
  {
    if ov != [] {
      MissingLines(ov[1..], rewritten);
      forall n | 0 <= n < |ov| && ov[n].0 !in rewritten ensures Quote(ov[n]) in Missing(ov, rewritten) {
        if n > 0 { assert ov[n] == ov[1..][n - 1]; }
      }
      forall x | x in Missing(ov, rewritten) ensures exists n :: 0 <= n < |ov| && ov[n].0 !in rewritten && x == Quote(ov[n]) {
        if x !in Missing(ov[1..], rewritten) {
          assert x == Quote(ov[0]) && ov[0].0 !in rewritten;
        } else {
          var n :| 0 <= n < |ov[1..]| && ov[1..][n].0 !in rewritten && x == Quote(ov[1..][n]);
          assert ov[n + 1] == ov[1..][n];
        }
      }
    }
  }

  /** Every override ends up in the file with its value, whether the file
      named the variable or not. */
  lemma EveryOverrideWritten(ov: seq<Pair>, file: seq<string>, n: nat)
    requires DistinctKeys(ov) && n < |ov|
    ensures Quote(ov[n]) in EnvSecretLines(ov, file)
  {
    var a := Rewrite(ov, file);
    RewriteKeys(ov, file, ov[n].0);
    RewriteKeeps(ov, file);
    MissingLines(ov, a.1);
    if ov[n].0 in a.1 {
      var t :| 0 <= t < |file| && LineKey(file[t]) == Some(ov[n].0) && ValueFor(ov, ov[n].0).Some?;
      ValueForDistinct(ov, n);
      assert RewriteLine(ov, file[t]) == Some(Quote(ov[n]));
    }
  }

  /** Whatever the file held, the written file pins the port and names
      the build's version and database. */
  lemma EnvSecretPinned(env: map<string, string>, version: nat, enterpriseEnabled: bool, startVersion: Option<string>, file: seq<string>)
    requires "PGDATABASE" in env
    ensures var out := EnvSecretLines(Overrides(env, version, enterpriseEnabled, startVersion).value, file);
            && "PGPORT=\"5432\"" in out
            && "ODOO_VERSION=\"" + VersionName(version) + "\"" in out
            && "PGDATABASE=\"" + env["PGDATABASE"] + "\"" in out
  {
    var ov := Overrides(env, version, enterpriseEnabled, startVersion).value;
    OverridesShape(env, version, enterpriseEnabled, startVersion);
    OverridesDistinct(env, version, enterpriseEnabled, startVersion);
    EveryOverrideWritten(ov, file, 0);
    EveryOverrideWritten(ov, file, 1);
    EveryOverrideWritten(ov, file, 4);
    assert Quote(ov[4]) == "PGPORT=\"5432\"";
    assert Quote(ov[0]) == "ODOO_VERSION=\"" + VersionName(version) + "\"";
    assert Quote(ov[1]) == "PGDATABASE=\"" + env["PGDATABASE"] + "\"";
  }

  /** A line the first loop makes of one line of the file is an override
      or the stripped line of a variable nothing overrides. */
  lemma RewriteLineOrigin(ov: seq<Pair>, line: string, x: string)
    requires RewriteLine(ov, line) == Some(x)
    ensures || (exists n :: 0 <= n < |ov| && x == Quote(ov[n]))
            || (LineKey(line).Some? && ValueFor(ov, LineKey(line).value).None? && x == Strip(line))
  {
    var k := LineKey(line).value;
    if ValueFor(ov, k).Some? {
      ValueForIn(ov, k);
      var n :| 0 <= n < |ov| && ov[n] == (k, ValueFor(ov, k).value);
    }
  }

  /** Every line written is an override or the stripped line of a variable
      the file sets and nothing overrides: lines without '=' are dropped. */
  lemma EveryLineAccounted(ov: seq<Pair>, file: seq<string>, x: string)
    requires x in EnvSecretLines(ov, file)
    ensures || (exists n :: 0 <= n < |ov| && x == Quote(ov[n]))
            || (exists t :: 0 <= t < |file| && LineKey(file[t]).Some? && ValueFor(ov, LineKey(file[t]).value).None? && x == Strip(file[t]))
  {
    var a := Rewrite(ov, file);
    if x in a.0 {
      var i :| 0 <= i < |a.0| && a.0[i] == x;
      RewriteFromFile(ov, file, i);
      var t :| 0 <= t < |file| && RewriteLine(ov, file[t]) == Some(x);
      RewriteLineOrigin(ov, file[t], x);
    } else {
      MissingLines(ov, a.1);
    }
  }

  // ---------------------------------------------------------------------
  // `exclude_repos(config, whitelist)`

  /** The top-level entries of `config` named in `whitelist`, built entry
      by entry. */
  method ExcludeRepos<V>(config: map<string, V>, whitelist: seq<string>) returns (r: map<string, V>)
    ensures forall name :: name in r <==> name in config && name in whitelist
    ensures forall name :: name in r ==> r[name] == config[name]
  {
    r := map[];
    var left := config.Keys;
    while left != {}
      invariant left <= config.Keys
      invariant forall name :: name in r <==> name in config && name !in left && name in whitelist
      invariant forall name :: name in r ==> r[name] == config[name]
      decreases |left|
    {
      var name :| name in left;
      if name in whitelist {
        r := r[name := config[name]];
      }
      left := left - {name};
    }
  }

  // ---------------------------------------------------------------------
  // `alter_code_block(prefix, postfix, replacement)`

  /** The position just after the first newline at or after `k`; 0 when
      there is none (`code.find("\n", k) + 1`). */
  function AfterNewline(code: string, k: nat): (r: nat)
    ensures r <= |code|
  {
    Find(code, "\n", k) + 1
  }

  /** `AfterNewline` is just past the first newline at or after `k`, or 0
      when no newline follows. */
  lemma AfterNewlineSpec(code: string, k: nat)
    ensures var r := AfterNewline(code, k);
            && (r > 0 ==> k < r && code[r - 1] == '\n' && forall m :: k <= m < r - 1 ==> code[m] != '\n')
            && (r == 0 ==> forall m :: k <= m < |code| ==> code[m] != '\n')
  {
    var r := AfterNewline(code, k);
    forall m | k <= m < |code| && (r == 0 || m < r - 1) ensures code[m] != '\n' {
      assert !OccursAt(code, "\n", m);
      assert code[m..m + 1] == [code[m]];
    }
    if r > 0 {
      assert code[r - 1..r] == "\n";
    }
  }

  /** Where the kept head of the code ends: past the first newline found
      from one position beyond the end of the prefix's first occurrence. */
  function BlockStart(code: string, prefix: string): nat {
    AfterNewline(code, Find(code, prefix, 0) + |prefix| + 1)
  }

  /** Where the kept tail of the code begins: past the first newline found
      from one position beyond the first occurrence of the postfix at or
      after `i`. */
  function BlockEnd(code: string, postfix: string, i: nat): nat {
    AfterNewline(code, Find(code, postfix, i) + 1)
  }

  /** `alter_code_block`: the head of the code, the replacement as a line,
      and the tail of the code. */
  function AlterCodeBlock(code: string, prefix: string, postfix: string, replacement: string): string {
    var i := BlockStart(code, prefix);
    code[..i] + replacement + "\n" + code[BlockEnd(code, postfix, i)..]
  }

  /** When the prefix occurs (first at `p`), the head runs through the first
      newline after position p + |prefix|: the character right after the
      prefix is not examined, so a prefix that ends its line keeps the
      following line too.  Without the prefix, the search starts at
      position |prefix| (the not-found -1, plus the prefix length, plus
      one). */
  lemma BlockStartLines(code: string, prefix: string)
    ensures var p := Find(code, prefix, 0);
            var i := BlockStart(code, prefix);
            var from := if p == -1 then |prefix| else p + |prefix| + 1;
            && (p != -1 ==> OccursAt(code, prefix, p) && forall k :: 0 <= k < p ==> !OccursAt(code, prefix, k))
            && (i > 0 ==> from < i && code[i - 1] == '\n' && forall m :: from <= m < i - 1 ==> code[m] != '\n')
            && (i == 0 ==> forall m :: from <= m < |code| ==> code[m] != '\n')
  {
    var p := Find(code, prefix, 0);
    AfterNewlineSpec(code, p + |prefix| + 1);
  }

  /** The tail starts past the first newline after the postfix's first
      occurrence `q` at or after the head; with no postfix left, it starts
      past the first newline of the whole code. */
  lemma BlockEndLines(code: string, postfix: string, i: nat)
    ensures var q := Find(code, postfix, i);
            var j := BlockEnd(code, postfix, i);
            var from := q + 1;
            && (q != -1 ==> i <= q && OccursAt(code, postfix, q) && forall k :: i <= k < q ==> !OccursAt(code, postfix, k))
            && (j > 0 ==> from < j && code[j - 1] == '\n' && forall m :: from <= m < j - 1 ==> code[m] != '\n')
            && (j == 0 ==> forall m :: from <= m < |code| ==> code[m] != '\n')
  {
    AfterNewlineSpec(code, Find(code, postfix, i) + 1);
  }

  /** The head and the tail are kept as they are: the result starts with
      the code up to the head's end and ends with the code from the tail's
      start, with the replacement line between them. */
  lemma AlterCodeBlockKeeps(code: string, prefix: string, postfix: string, replacement: string)
    ensures var r := AlterCodeBlock(code, prefix, postfix, replacement);
            var i := BlockStart(code, prefix);
            var j := BlockEnd(code, postfix, i);
            && StartsWith(r, code[..i] + replacement + "\n")
            && EndsWith(r, code[j..])
            && |r| == i + |replacement| + 1 + |code| - j
  {
  }
}
