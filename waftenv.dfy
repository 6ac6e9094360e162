/** Validation of the build's environment variables when the waft library
    is imported: each variable is read from the environment and, when its
    value is not acceptable, replaced by a default that is written back.
    An unknown Odoo version ends the process with status 1. */
module WaftEnv {

  import opened PyStr

  /** What a variable must look like, and what replaces it otherwise. */
  datatype Rule =
    | OneOf(allowed: set<string>, fallback: string)   // a value from a fixed list
    | NotEmpty(fallback: string)                       // any non-empty value
    | Digits(fallback: string)                         // `str.isdigit()`
    | TrueFalse(fallback: string)                      // "true"/"false", any case
    | Present                                          // read, never replaced
    | Fatal(allowed: set<string>)                      // otherwise `exit(1)`

  predicate Accepts(rule: Rule, v: string) {
    match rule
    case OneOf(allowed, _) => v in allowed
    case NotEmpty(_) => v != ""
    case Digits(_) => IsDigits(v)
    case TrueFalse(_) => LowerEquals(v, "true") || LowerEquals(v, "false")
    case Present => true
    case Fatal(allowed) => v in allowed
  }

  /** The value a variable has after its check (a fatal rule never replaces). */
  function Fixed(rule: Rule, v: string): string {
    match rule
    case OneOf(_, d) => if Accepts(rule, v) then v else d
    case NotEmpty(d) => if Accepts(rule, v) then v else d
    case Digits(d) => if Accepts(rule, v) then v else d
    case TrueFalse(d) => if Accepts(rule, v) then v else d
    case Present => v
    case Fatal(_) => v
  }

  /** Every default is itself acceptable. */
  predicate SoundRule(rule: Rule) {
    rule.Present? || rule.Fatal? || Accepts(rule, rule.fallback)
  }

  /** A checked value is acceptable, an acceptable value is kept, and so
      checking twice changes nothing more. */
  lemma FixedAccepted(rule: Rule, v: string)
    requires SoundRule(rule)
    requires rule.Fatal? ==> v in rule.allowed
    ensures Accepts(rule, Fixed(rule, v))
    ensures Accepts(rule, v) ==> Fixed(rule, v) == v
    ensures Fixed(rule, Fixed(rule, v)) == Fixed(rule, v)
  {
  }

  /** How the import ends: with the updated environment, on a variable that
      is not set (`KeyError`), or by `exit(status)`. */
  datatype Outcome = Validated(environ: map<string, string>) | Missing(name: string) | Exit(status: int)

  function LogLevels(): set<string> {
    {"DEBUG", "INFO", "WARNING", "ERROR", "CRITICAL"}
  }

  function Languages(): set<string> {
    {"en_US", "am_ET", "ar_001", "ar_SY", "az_AZ", "eu_ES", "bn_IN", "bs_BA", "bg_BG", "ca_ES", "zh_CN", "zh_HK", "zh_TW",
     "hr_HR", "cs_CZ", "da_DK", "nl_BE", "nl_NL", "en_AU", "en_CA", "en_GB", "en_IN", "et_EE", "fi_FI", "fr_BE", "fr_CA",
     "fr_CH", "fr_FR", "gl_ES", "ka_GE", "de_DE", "de_CH", "el_GR", "gu_IN", "he_IL", "hi_IN", "hu_HU", "id_ID", "it_IT",
     "ja_JP", "kab_DZ", "km_KH", "ko_KP", "ko_KR", "lo_LA", "lv_LV", "lt_LT", "lb_LU", "mk_MK", "ml_IN", "mn_MN", "ms_MY",
     "my_MM", "nb_NO", "fa_IR", "pl_PL", "pt_AO", "pt_BR", "pt_PT", "ro_RO", "ru_RU", "sr_RS", "sr@latin", "sk_SK", "sl_SI",
     "es_AR", "es_BO", "es_CL", "es_CO", "es_CR", "es_DO", "es_EC", "es_GT", "es_MX", "es_PA", "es_PE", "es_PY", "es_UY",
     "es_VE", "es_ES", "sv_SE", "th_TH", "tl_PH", "tr_TR", "uk_UA", "vi_VN", "sq_AL", "te_IN"}
  }

  function OdooVersions(): set<string> {
    {"8.0", "9.0", "10.0", "11.0", "12.0", "13.0", "14.0", "15.0", "16.0"}
  }

  /** The checked variables, in the order they are read. */
  function Rules(): seq<(string, Rule)> {
    [ ("WAFT_LOG_LEVEL", OneOf(LogLevels(), "INFO")),
      ("ODOO_ADMIN_PASSWORD", NotEmpty("password")),
      ("ODOO_DBFILTER", NotEmpty(".*")),
      ("ODOO_INITIAL_LANG", OneOf(Languages(), "nl_NL")),
      ("ODOO_LIMIT_MEMORY_HARD", Digits("2684354560")),
      ("ODOO_LIMIT_MEMORY_SOFT", Digits("2147483648")),
      ("ODOO_LIST_DB", TrueFalse("false")),
      ("ODOO_UNACCENT", TrueFalse("false")),
      ("ODOO_VERSION", Fatal(OdooVersions())),
      ("ODOO_WITHOUT_DEMO", NotEmpty("all")),
      ("ODOO_WORKERS", Digits("0")),
      ("PGDATABASE", NotEmpty("odoodatabase")),
      ("PGHOST", NotEmpty("localhost")),
      ("PGPASSWORD", Present),
      ("PGPORT", Digits("5432")),
      ("PGUSER", NotEmpty("odoo")),
      ("WAFT_COMPILE", TrueFalse("true")),
      ("WAFT_DEPTH_DEFAULT", Digits("1")),
      ("WAFT_DEPTH_MERGE", Digits("100")),
      ("WAFT_WAIT_DB", TrueFalse("false")) ]
  }

  /** The checks of `rules` applied in turn to `env`. */
  function Apply(env: map<string, string>, rules: seq<(string, Rule)>): Outcome
    decreases |rules|
  {
    if rules == [] then Validated(env)
    else
      var name := rules[0].0;
      var rule := rules[0].1;
      if name !in env then Missing(name)
      else if rule.Fatal? && env[name] !in rule.allowed then Exit(1)
      else Apply(env[name := Fixed(rule, env[name])], rules[1..])
  }

  /** Validating the environment, one variable after the other. */
  method ValidateEnvironment(env: map<string, string>) returns (out: Outcome)
    ensures out == Apply(env, Rules())
  {
    var rules := Rules();
    var environ := env;
    var i := 0;
    while i < |rules|
      invariant 0 <= i <= |rules|
      invariant Apply(environ, rules[i..]) == Apply(env, rules)
    {
      var name := rules[i].0;
      var rule := rules[i].1;
      assert rules[i..][1..] == rules[i + 1..];
      if name !in environ {
        return Missing(name);
      }
      if rule.Fatal? && environ[name] !in rule.allowed {
        return Exit(1);
      }
      environ := environ[name := Fixed(rule, environ[name])];
      i := i + 1;
    }
    out := Validated(environ);
  }

  predicate DistinctNames(rules: seq<(string, Rule)>) {
    forall i, j :: 0 <= i < j < |rules| ==> rules[i].0 != rules[j].0
  }

  predicate Named(rules: seq<(string, Rule)>, k: string) {
    exists i :: 0 <= i < |rules| && rules[i].0 == k
  }

  /** Every variable is set and no fatal check fails. */
  predicate Passes(env: map<string, string>, rules: seq<(string, Rule)>) {
    forall i :: 0 <= i < |rules| ==>
      rules[i].0 in env && (rules[i].1.Fatal? ==> env[rules[i].0] in rules[i].1.allowed)
  }

  /** One step of the validation, seen from the variables still to check. */
  lemma ApplyStep(env: map<string, string>, rules: seq<(string, Rule)>)
    requires DistinctNames(rules) && rules != [] && rules[0].0 in env
    requires rules[0].1.Fatal? ==> env[rules[0].0] in rules[0].1.allowed
    ensures var env1 := env[rules[0].0 := Fixed(rules[0].1, env[rules[0].0])];
            && DistinctNames(rules[1..])
            && Apply(env, rules) == Apply(env1, rules[1..])
            && !Named(rules[1..], rules[0].0)
            && (forall i :: 0 <= i < |rules| - 1 ==> rules[1..][i] == rules[i + 1])
            && (forall k :: k != rules[0].0 ==> (k in env1 <==> k in env) && (k in env ==> env1[k] == env[k]))
  {
    var tail := rules[1..];
    forall i, j | 0 <= i < j < |tail| ensures tail[i].0 != tail[j].0 {
      assert tail[i] == rules[i + 1] && tail[j] == rules[j + 1];
    }
    forall j | 0 <= j < |tail| ensures tail[j].0 != rules[0].0 {
      assert tail[j] == rules[j + 1];
    }
  }

  /** With distinct variables, validation succeeds exactly when every
      variable is set and no fatal check fails; otherwise it stops on a
      variable that is not set, or with status 1. */
  lemma {:induction false} ApplyOutcome(env: map<string, string>, rules: seq<(string, Rule)>)
    requires DistinctNames(rules)
    ensures var r := Apply(env, rules);
            && (r.Validated? <==> Passes(env, rules))
            && (r.Missing? ==> r.name !in env && Named(rules, r.name))
            && (r.Exit? ==> r.status == 1)
    decreases |rules|
  {
    if rules != [] {
      var name := rules[0].0;
      if name !in env {
        assert Named(rules, name) by { assert rules[0].0 == name; }
        assert !Passes(env, rules) by { assert !(rules[0].0 in env); }
      } else if rules[0].1.Fatal? && env[name] !in rules[0].1.allowed {
        assert !Passes(env, rules);
      } else {
        var env1 := env[name := Fixed(rules[0].1, env[name])];
        var tail := rules[1..];
        ApplyStep(env, rules);
        ApplyOutcome(env1, tail);
        if Passes(env1, tail) {
          forall i | 0 <= i < |rules|
            ensures rules[i].0 in env && (rules[i].1.Fatal? ==> env[rules[i].0] in rules[i].1.allowed)
          {
            if i > 0 {
              assert rules[i] == tail[i - 1];
            }
          }
        }
        if Passes(env, rules) {
          forall i | 0 <= i < |tail|
            ensures tail[i].0 in env1 && (tail[i].1.Fatal? ==> env1[tail[i].0] in tail[i].1.allowed)
          {
            assert tail[i] == rules[i + 1];
          }
        }
        var r := Apply(env, rules);
        if r.Missing? {
          var i :| 0 <= i < |tail| && tail[i].0 == r.name;
          assert rules[i + 1].0 == r.name;
        }
      }
    }
  }

  /** A successful validation replaces each checked variable by its checked
      value and leaves every other variable as it was. */
  lemma {:induction false} ApplyEnviron(env: map<string, string>, rules: seq<(string, Rule)>)
    requires DistinctNames(rules) && Apply(env, rules).Validated?
    ensures var e := Apply(env, rules).environ;
            && e.Keys == env.Keys
            && (forall i :: 0 <= i < |rules| ==> rules[i].0 in env && e[rules[i].0] == Fixed(rules[i].1, env[rules[i].0]))
            && (forall k :: k in env && !Named(rules, k) ==> e[k] == env[k])
    decreases |rules|
  {
    if rules != [] {
      var name := rules[0].0;
      var env1 := env[name := Fixed(rules[0].1, env[name])];
      var tail := rules[1..];
      ApplyStep(env, rules);
      ApplyEnviron(env1, tail);
      var e := Apply(env, rules).environ;
      forall i | 0 <= i < |rules| ensures rules[i].0 in env && e[rules[i].0] == Fixed(rules[i].1, env[rules[i].0]) {
        if i > 0 {
          assert rules[i] == tail[i - 1];
        }
      }
      forall k | k in env && !Named(rules, k) ensures e[k] == env[k] {
        assert k != rules[0].0;
      }
    }
  }

  /** The distinctness of the checked variables, in three slices so that
      each proof stays small. */
  lemma RulesDistinctSlice(lo: nat, hi: nat)
    requires (lo, hi) in {(0, 5), (5, 10), (10, 15), (15, 20)}
    ensures forall i, j :: lo <= i < hi && i < j < |Rules()| ==> Rules()[i].0 != Rules()[j].0
  {
  }

  lemma RulesDistinct()
    ensures DistinctNames(Rules())
  {
    RulesDistinctSlice(0, 5);
    RulesDistinctSlice(5, 10);
    RulesDistinctSlice(10, 15);
    RulesDistinctSlice(15, 20);
  }

  predicate AllSound(rules: seq<(string, Rule)>) {
    forall i :: 0 <= i < |rules| ==> SoundRule(rules[i].1)
  }

  predicate AllSet(env: map<string, string>, rules: seq<(string, Rule)>) {
    forall i :: 0 <= i < |rules| ==> rules[i].0 in env
  }

  /** After a successful validation every checked variable holds an
      acceptable value: its own when that was acceptable, the default
      otherwise; every other variable is untouched. */
  lemma ValidatedValues(env: map<string, string>, rules: seq<(string, Rule)>)
    requires DistinctNames(rules) && AllSound(rules)
    requires Apply(env, rules).Validated?
    ensures var e := Apply(env, rules).environ;
            && e.Keys == env.Keys
            && (forall i :: 0 <= i < |rules| ==>
                  && rules[i].0 in env
                  && Accepts(rules[i].1, e[rules[i].0])
                  && (Accepts(rules[i].1, env[rules[i].0]) ==> e[rules[i].0] == env[rules[i].0])
                  && (!Accepts(rules[i].1, env[rules[i].0]) ==>
                        !rules[i].1.Present? && !rules[i].1.Fatal? && e[rules[i].0] == rules[i].1.fallback))
            && (forall k :: k in env && !Named(rules, k) ==> e[k] == env[k])
  {
    ApplyOutcome(env, rules);
    ApplyEnviron(env, rules);
    forall i | 0 <= i < |rules|
      ensures Accepts(rules[i].1, Fixed(rules[i].1, env[rules[i].0]))
      ensures Accepts(rules[i].1, env[rules[i].0]) ==> Fixed(rules[i].1, env[rules[i].0]) == env[rules[i].0]
    {
      FixedAccepted(rules[i].1, env[rules[i].0]);
    }
  }

  /** With every variable set and a single fatal check, the validation
      goes on exactly when that check passes, and ends with status 1
      otherwise. */
  lemma FatalOnly(env: map<string, string>, rules: seq<(string, Rule)>, f: nat)
    requires DistinctNames(rules) && AllSet(env, rules)
    requires f < |rules| && rules[f].1.Fatal?
    requires forall i :: 0 <= i < |rules| && i != f ==> !rules[i].1.Fatal?
    ensures Apply(env, rules).Validated? <==> env[rules[f].0] in rules[f].1.allowed
    ensures !Apply(env, rules).Validated? ==> Apply(env, rules) == Exit(1)
  {
    ApplyOutcome(env, rules);
    if env[rules[f].0] !in rules[f].1.allowed {
      assert !Passes(env, rules);
    }
  }

  /** Every default of the table passes its own check. */
  lemma RulesSound()
    ensures AllSound(Rules())
  {
    DefaultsAccepted();
  }

  lemma DefaultsAccepted()
    ensures "INFO" in LogLevels() && "nl_NL" in Languages()
    ensures IsDigits("2684354560") && IsDigits("2147483648") && IsDigits("0")
    ensures IsDigits("5432") && IsDigits("1") && IsDigits("100")
  {
    assert IsDigits("2684354560") && IsDigits("2147483648") && IsDigits("0");
    assert IsDigits("5432") && IsDigits("1") && IsDigits("100");
  }

  /** ODOO_VERSION is the only variable whose check is fatal. */
  lemma RulesFatal()
    ensures Rules()[8] == ("ODOO_VERSION", Fatal(OdooVersions()))
    ensures forall i :: 0 <= i < |Rules()| && i != 8 ==> !Rules()[i].1.Fatal?
  {
  }

  /** With every variable set, the import goes on exactly when the Odoo
      version is one of 8.0 to 16.0, and ends with status 1 otherwise. */
  lemma VersionExit(env: map<string, string>)
    requires AllSet(env, Rules())
    ensures "ODOO_VERSION" in env
    ensures Apply(env, Rules()).Validated? <==> env["ODOO_VERSION"] in OdooVersions()
    ensures !Apply(env, Rules()).Validated? ==> Apply(env, Rules()) == Exit(1)
  {
    RulesDistinct();
    RulesFatal();
    FatalOnly(env, Rules(), 8);
  }

  /** An unknown log level becomes INFO. */
  lemma LogLevelReset(env: map<string, string>)
    requires Apply(env, Rules()).Validated?
    ensures "WAFT_LOG_LEVEL" in env && "WAFT_LOG_LEVEL" in Apply(env, Rules()).environ
    ensures var e := Apply(env, Rules()).environ;
            e["WAFT_LOG_LEVEL"] == if env["WAFT_LOG_LEVEL"] in LogLevels() then env["WAFT_LOG_LEVEL"] else "INFO"
  {
    RulesDistinct();
    RulesSound();
    ValidatedValues(env, Rules());
    assert Rules()[0] == ("WAFT_LOG_LEVEL", OneOf(LogLevels(), "INFO"));
  }
}
