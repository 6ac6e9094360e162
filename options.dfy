/** The run parameters of the migration: the defaults taken from the
    environment (`load_defaults`) and the options read from the command
    line (`parse_arguments`).  The command line is taken after getopt has
    split it into `(option, value)` pairs. */
module Options {
  import opened Wrappers
  import opened PyStr

  /** A parameter's value: a flag, a string, the list of strings of a reset
      point, or None. */
  datatype Value = Flag(b: bool) | Text(s: string) | Texts(ss: seq<string>) | Null

  /** The names of the parameters. */
  datatype Key =
    | Database | EnterpriseAutotrustSsh | EnterpriseDontResume | EnterpriseEnabled
    | EnterpriseJumpTo | Help | NoBackups | OpenUpgradeDisabled | Production
    | Rebuild | ResetProgress | Restore | SkipInitialUpgrade | StartVersion | Verbose

  type Params = map<Key, Value>

  const EnterpriseMinimumTarget: string := "15.0"

  /** `is_environ_bool_true`: the variable is set to 1, yes or true, in any
      case. */
  predicate EnvironBoolTrue(env: map<string, string>, name: string) {
    name in env && (LowerEquals(env[name], "1") || LowerEquals(env[name], "yes") || LowerEquals(env[name], "true"))
  }

  /** What `load_defaults` reads from the environment before it builds the
      defaults. */
  datatype Environment = Environment(
    enterpriseEnabled: bool, openUpgradeDisabled: bool, skipInitialUpgrade: bool,
    startVersion: Value, minimumTarget: string, noBackups: bool)

  function ReadEnvironment(env: map<string, string>): Environment {
    Environment(
      EnvironBoolTrue(env, "MIGRATION_ENTERPRISE_ENABLED"),
      EnvironBoolTrue(env, "MIGRATION_OPEN_UPGRADE_DISABLED"),
      EnvironBoolTrue(env, "SKIP_INITIAL_UPGRADE"),
      if "MIGRATION_START_VERSION" in env then Text(env["MIGRATION_START_VERSION"]) else Null,
      if "MIGRATION_ENTERPRISE_JUMP_TO" in env then env["MIGRATION_ENTERPRISE_JUMP_TO"] else EnterpriseMinimumTarget,
      EnvironBoolTrue(env, "MIGRATION_NO_BACKUPS"))
  }

  /** The defaults: four switches, the start version and the enterprise
      minimum target come from the environment, and every other flag is
      off. */
  function Defaults(e: Environment): map<Key, Value> {
    map[EnterpriseAutotrustSsh := Flag(false),
        EnterpriseDontResume := Flag(false),
        EnterpriseEnabled := Flag(e.enterpriseEnabled),
        EnterpriseJumpTo := Text(e.minimumTarget),
        Help := Flag(false),
        NoBackups := Flag(e.noBackups),
        OpenUpgradeDisabled := Flag(e.openUpgradeDisabled),
        Production := Flag(false),
        Rebuild := Flag(false),
        ResetProgress := Flag(false),
        Restore := Flag(false),
        SkipInitialUpgrade := Flag(e.skipInitialUpgrade),
        StartVersion := e.startVersion,
        Verbose := Flag(false)]
  }

  /** `load_defaults(parameters)`. */
  function LoadDefaults(env: map<string, string>, parameters: Params): Params {
    Defaults(ReadEnvironment(env)) + parameters
  }

  /** Every parameter but the database is present, and one given explicitly
      wins over its default. */
  lemma LoadDefaultsKeeps(env: map<string, string>, parameters: Params, k: Key)
    ensures var r := LoadDefaults(env, parameters);
            && (k in r <==> k in parameters || k != Database)
            && (k in parameters ==> r[k] == parameters[k])
  {
  }

  /** The enterprise switch and the backup switch the command line leaves
      alone are those of the environment. */
  lemma LoadDefaultsEnterpriseBackups(env: map<string, string>, parameters: Params)
    ensures var r := LoadDefaults(env, parameters);
            && (EnterpriseEnabled !in parameters ==> r[EnterpriseEnabled] == Flag(EnvironBoolTrue(env, "MIGRATION_ENTERPRISE_ENABLED")))
            && (NoBackups !in parameters ==> r[NoBackups] == Flag(EnvironBoolTrue(env, "MIGRATION_NO_BACKUPS")))
  {
  }

  /** So are the OpenUpgrade switch and the initial-upgrade switch. */
  lemma LoadDefaultsUpgradeSwitches(env: map<string, string>, parameters: Params)
    ensures var r := LoadDefaults(env, parameters);
            && (OpenUpgradeDisabled !in parameters ==> r[OpenUpgradeDisabled] == Flag(EnvironBoolTrue(env, "MIGRATION_OPEN_UPGRADE_DISABLED")))
            && (SkipInitialUpgrade !in parameters ==> r[SkipInitialUpgrade] == Flag(EnvironBoolTrue(env, "SKIP_INITIAL_UPGRADE")))
  {
  }

  /** Without the variable, the start version is None. */
  lemma LoadDefaultsStartVersion(env: map<string, string>, parameters: Params)
    ensures var r := LoadDefaults(env, parameters);
            StartVersion !in parameters ==>
              r[StartVersion] == if "MIGRATION_START_VERSION" in env then Text(env["MIGRATION_START_VERSION"]) else Null
  {
  }

  /** Without the variable, the enterprise minimum target is 15.0. */
  lemma LoadDefaultsJumpTo(env: map<string, string>, parameters: Params)
    ensures var r := LoadDefaults(env, parameters);
            EnterpriseJumpTo !in parameters && "MIGRATION_ENTERPRISE_JUMP_TO" !in env ==> r[EnterpriseJumpTo] == Text("15.0")
  {
  }

  /** The database has no default. */
  lemma LoadDefaultsNoDatabase(env: map<string, string>, parameters: Params)
    ensures Database in LoadDefaults(env, parameters) <==> Database in parameters
  {
  }

  /** The action flags default to off. */
  lemma LoadDefaultsActionsOff(env: map<string, string>, parameters: Params)
    ensures var r := LoadDefaults(env, parameters);
            && (Help !in parameters ==> r[Help] == Flag(false))
            && (ResetProgress !in parameters ==> r[ResetProgress] == Flag(false))
            && (Rebuild !in parameters ==> r[Rebuild] == Flag(false))
            && (Restore !in parameters ==> r[Restore] == Flag(false))
  {
  }

  /** Production mode and the enterprise resume switch default to off. */
  lemma LoadDefaultsModesOff(env: map<string, string>, parameters: Params)
    ensures var r := LoadDefaults(env, parameters);
            && (Production !in parameters ==> r[Production] == Flag(false))
            && (EnterpriseDontResume !in parameters ==> r[EnterpriseDontResume] == Flag(false))
  {
  }

  /** The switch values are read case-insensitively, and only 1, yes and
      true switch on. */
  lemma EnvironBoolExamples()
    ensures EnvironBoolTrue(map["X" := "TRUE"], "X") && EnvironBoolTrue(map["X" := "Yes"], "X")
    ensures !EnvironBoolTrue(map["X" := "on"], "X") && !EnvironBoolTrue(map["X" := "0"], "X")
    ensures !EnvironBoolTrue(map[], "X")
  {
  }

  /** The test is `str.lower()` followed by membership in the three words. */
  lemma EnvironBoolTrueLower(env: map<string, string>, name: string)
    ensures EnvironBoolTrue(env, name) <==> name in env && Lower(env[name]) in ["1", "yes", "true"]
  {
    if name in env {
      LowerEqualsIff(env[name], "1");
      LowerEqualsIff(env[name], "yes");
      LowerEqualsIff(env[name], "true");
    }
  }

  // ---------------------------------------------------------------------
  // `parse_arguments`

  /** `s.split(":")[:2]`. */
  function ResetPoint(value: string): (r: seq<string>)
    ensures 1 <= |r| <= 2
  {
    var parts := Split(value, ':');
    if |parts| <= 2 then parts else parts[..2]
  }

  /** The options getopt can return for the short options "d:ef:hoprsv" and
      the long options the script declares. */
  datatype Opt =
    | ShortD | ShortE | ShortF | ShortH | ShortO | ShortP | ShortR | ShortS | ShortV
    | LongDatabase | LongEnterpriseEnabled | LongProduction | LongStartVersion
    | LongHelp | LongRebuild | LongResetProgress | LongRestore | LongVerbose
    | LongEnterpriseDontResume | LongEnterpriseAutotrustSsh | LongOpenUpgradeDisabled

  /** The name getopt gives an option in its result. */
  function Spelling(o: Opt): string {
    match o
    case ShortD => "-d"
    case ShortE => "-e"
    case ShortF => "-f"
    case ShortH => "-h"
    case ShortO => "-o"
    case ShortP => "-p"
    case ShortR => "-r"
    case ShortS => "-s"
    case ShortV => "-v"
    case LongDatabase => "--database"
    case LongEnterpriseEnabled => "--enterprise-enabled"
    case LongProduction => "--production"
    case LongStartVersion => "--start-version"
    case LongHelp => "--help"
    case LongRebuild => "--rebuild"
    case LongResetProgress => "--reset-progress"
    case LongRestore => "--restore"
    case LongVerbose => "--verbose"
    case LongEnterpriseDontResume => "--enterprise-dont-resume"
    case LongEnterpriseAutotrustSsh => "--enterprise-autotrust-ssh"
    case LongOpenUpgradeDisabled => "--open-upgrade-disabled"
  }

  /** The test `parse_arguments` applies for each parameter.  A comparison
      of the name with one spelling is a comparison of the option; the tests
      `arg in ("-d" or "--database")` and `arg in ("-e" or
      "--enterprise-enabled")` evaluate the `or` first and so test whether
      the name is a substring of "-d" or of "-e". */
  predicate Sets(k: Key, o: Opt) {
    match k
    case Database => Contains("-d", Spelling(o))
    case EnterpriseEnabled => Contains("-e", Spelling(o))
    case StartVersion => o == ShortF || o == LongStartVersion
    case Help => o == ShortH || o == LongHelp
    case OpenUpgradeDisabled => o == ShortO || o == LongOpenUpgradeDisabled
    case Production => o == ShortP || o == LongProduction
    case Rebuild => o == ShortR || o == LongRebuild
    case ResetProgress => o == LongResetProgress
    case Restore => o == ShortS || o == LongRestore
    case Verbose => o == ShortV || o == LongVerbose
    case EnterpriseDontResume => o == LongEnterpriseDontResume
    case EnterpriseAutotrustSsh => o == LongEnterpriseAutotrustSsh
    case EnterpriseJumpTo => Spelling(o) == "--enterprise-jump-to"
    case NoBackups | SkipInitialUpgrade => false
  }

  /** The value an option gives the parameter it sets. */
  function ValueOf(k: Key, value: string): Value {
    if k == Database || k == StartVersion || k == EnterpriseJumpTo then Text(value)
    else if k == ResetProgress then Texts(ResetPoint(value))
    else Flag(true)
  }

  /** One `if` of `parse_arguments`. */
  function Step(args: Params, k: Key, o: Opt, value: string): Params {
    if Sets(k, o) then args[k := ValueOf(k, value)] else args
  }

  /** The parameters in the order the script tests them. */
  function TestOrder(): seq<Key> {
    [ Database, EnterpriseEnabled, StartVersion, Help, OpenUpgradeDisabled, Production,
      Rebuild, ResetProgress, Restore, Verbose, EnterpriseDontResume, EnterpriseAutotrustSsh,
      EnterpriseJumpTo ]
  }

  /** The `if`s of `ks` applied in turn; they are not exclusive. */
  function Steps(ks: seq<Key>, args: Params, o: Opt, value: string): Params {
    if ks == [] then args else Steps(ks[1..], Step(args, ks[0], o, value), o, value)
  }

  /** The effect of one pair of getopt's result. */
  function ApplyOption(args: Params, o: Opt, value: string): Params {
    Steps(TestOrder(), args, o, value)
  }

  /** The arguments after the pairs of `opts`, applied in order. */
  function ParsedArguments(opts: seq<(Opt, string)>): Params {
    if opts == [] then map[]
    else
      var last := opts[|opts| - 1];
      ApplyOption(ParsedArguments(opts[..|opts| - 1]), last.0, last.1)
  }

  /** `parse_arguments` on the pairs getopt returned. */
  method ParseArguments(optlist: seq<(Opt, string)>) returns (arguments: Params)
    ensures arguments == ParsedArguments(optlist)
  {
    arguments := map[];
    var i := 0;
    while i < |optlist|
      invariant 0 <= i <= |optlist|
      invariant arguments == ParsedArguments(optlist[..i])
    {
      ParsedArgumentsSnoc(optlist, i);
      arguments := ApplyOption(arguments, optlist[i].0, optlist[i].1);
      i := i + 1;
    }
    assert optlist[..i] == optlist;
  }

  lemma ParsedArgumentsSnoc(opts: seq<(Opt, string)>, i: nat)
    requires i < |opts|
    ensures ParsedArguments(opts[..i + 1]) == ApplyOption(ParsedArguments(opts[..i]), opts[i].0, opts[i].1)
  {
    assert opts[..i + 1][..i] == opts[..i];
  }

  /** The `if`s of distinct parameters `ks` set every parameter of `ks`
      whose test passes and leave the others as they were. */
  lemma {:induction false} StepsAt(ks: seq<Key>, args: Params, o: Opt, value: string, k: Key)
    requires forall i, j :: 0 <= i < j < |ks| ==> ks[i] != ks[j]
    ensures var r := Steps(ks, args, o, value);
            && (k in r <==> k in args || (k in ks && Sets(k, o)))
            && (k in ks && Sets(k, o) ==> r[k] == ValueOf(k, value))
            && (!(k in ks && Sets(k, o)) && k in args ==> r[k] == args[k])
  {
    if ks != [] {
      StepsAt(ks[1..], Step(args, ks[0], o, value), o, value, k);
      assert k == ks[0] ==> k !in ks[1..];
    }
  }

  lemma TestOrderDistinct()
    ensures forall i, j :: 0 <= i < j < |TestOrder()| ==> TestOrder()[i] != TestOrder()[j]
  {
  }

  /** The script tests every parameter but two of the switches. */
  lemma TestOrderKeys(k: Key)
    ensures k in TestOrder() <==> k != NoBackups && k != SkipInitialUpgrade
  {
  }

  /** One pair sets every parameter whose test it passes and leaves the
      others as they were. */
  lemma ApplyOptionAt(args: Params, o: Opt, value: string, k: Key)
    ensures var r := ApplyOption(args, o, value);
            && (k in r <==> k in args || Sets(k, o))
            && (Sets(k, o) ==> r[k] == ValueOf(k, value))
            && (!Sets(k, o) && k in args ==> r[k] == args[k])
  {
    TestOrderDistinct();
    TestOrderKeys(k);
    StepsAt(TestOrder(), args, o, value, k);
  }

  /** The reference reading of a command line: the value the last option
      naming `k` (by the table `KeyOf`) gives it, if any. */
  function LastValue(opts: seq<(Opt, string)>, k: Key): Option<Value> {
    if opts == [] then None
    else if KeyOf(opts[|opts| - 1].0) == Some(k) then Some(ValueOf(k, opts[|opts| - 1].1))
    else LastValue(opts[..|opts| - 1], k)
  }

  /** No value at all exactly when no option names `k`. */
  lemma {:induction false} LastValueNone(opts: seq<(Opt, string)>, k: Key)
    ensures LastValue(opts, k).None? <==> forall i :: 0 <= i < |opts| ==> KeyOf(opts[i].0) != Some(k)
  {
    if opts != [] {
      var n := |opts| - 1;
      LastValueNone(opts[..n], k);
      assert forall i :: 0 <= i < n ==> opts[..n][i] == opts[i];
    }
  }

  /** A parameter is set exactly when some pair passes its test, and it then
      holds the value the last such pair gives it. */
  lemma {:induction false} ParsedArgumentsLast(opts: seq<(Opt, string)>, k: Key)
    ensures var r := ParsedArguments(opts);
            && (k in r <==> LastValue(opts, k).Some?)
            && (k in r ==> r[k] == LastValue(opts, k).value)
  {
    if opts != [] {
      var n := |opts| - 1;
      var r0 := ParsedArguments(opts[..n]);
      ParsedArgumentsLast(opts[..n], k);
      ParsedArgumentsSnoc(opts, n);
      assert opts[..n + 1] == opts;
      ApplyOptionAt(r0, opts[n].0, opts[n].1, k);
      OptionSets(opts[n].0, k);
    }
  }

  /** The strings occurring in a two-character string. */
  lemma ContainsTwo(s: string, sub: string)
    requires |s| == 2
    ensures Contains(s, sub) <==> sub == [] || sub == s[..1] || sub == s[1..] || sub == s
  {
    ContainsIff(s, sub);
    if sub == [] {
      assert OccursAt(s, sub, 0);
    } else if sub == s[..1] {
      assert OccursAt(s, sub, 0);
    } else if sub == s[1..] {
      assert OccursAt(s, sub, 1);
    } else if sub == s {
      assert OccursAt(s, sub, 0);
    }
  }

  /** Only "-d" sets the database: "--database" sets nothing. */
  lemma DatabaseSubstringTest(o: Opt)
    ensures Sets(Database, o) <==> o == ShortD
  {
    ContainsTwo("-d", Spelling(o));
    assert "-d"[..1] == "-" && "-d"[1..] == "d";
  }

  /** Only "-e" turns the enterprise migration on: "--enterprise-enabled"
      sets nothing. */
  lemma EnterpriseSubstringTest(o: Opt)
    ensures Sets(EnterpriseEnabled, o) <==> o == ShortE
  {
    ContainsTwo("-e", Spelling(o));
    assert "-e"[..1] == "-" && "-e"[1..] == "e";
  }

  /** No declared option is spelled "--enterprise-jump-to". */
  lemma JumpToUndeclared(o: Opt)
    ensures !Sets(EnterpriseJumpTo, o)
  {
  }

  /** Each option sets exactly the parameter its spelling names, except
      "--database" and "--enterprise-enabled", which set nothing. */
  lemma OptionSets(o: Opt, k: Key)
    ensures Sets(k, o) <==> Some(k) == KeyOf(o)
  {
    if k == Database {
      DatabaseSubstringTest(o);
    } else if k == EnterpriseEnabled {
      EnterpriseSubstringTest(o);
    } else if k == EnterpriseJumpTo {
      JumpToUndeclared(o);
    } else {
      PlainTests(o, k);
    }
  }

  /** The parameters tested by equality are set by their own spellings. */
  lemma PlainTests(o: Opt, k: Key)
    requires k != Database && k != EnterpriseEnabled && k != EnterpriseJumpTo
    ensures Sets(k, o) <==> Some(k) == KeyOf(o)
  {
    if k in {StartVersion, Help, OpenUpgradeDisabled, Production, Rebuild} {
      ShortAndLongTests(o, k);
    } else {
      RemainingTests(o, k);
    }
  }

  lemma ShortAndLongTests(o: Opt, k: Key)
    requires k == StartVersion || k == Help || k == OpenUpgradeDisabled || k == Production || k == Rebuild
    ensures Sets(k, o) <==> Some(k) == KeyOf(o)
  {
  }

  /** The other parameters tested by equality, and the two no option sets. */
  lemma RemainingTests(o: Opt, k: Key)
    requires k == ResetProgress || k == Restore || k == Verbose || k == EnterpriseDontResume
             || k == EnterpriseAutotrustSsh || k == NoBackups || k == SkipInitialUpgrade
    ensures Sets(k, o) <==> Some(k) == KeyOf(o)
  {
  }

  /** The parameter each option names, stated option by option. */
  function KeyOf(o: Opt): Option<Key> {
    match o
    case ShortD => Some(Database)
    case ShortE => Some(EnterpriseEnabled)
    case ShortF | LongStartVersion => Some(StartVersion)
    case ShortH | LongHelp => Some(Help)
    case ShortO | LongOpenUpgradeDisabled => Some(OpenUpgradeDisabled)
    case ShortP | LongProduction => Some(Production)
    case ShortR | LongRebuild => Some(Rebuild)
    case LongResetProgress => Some(ResetProgress)
    case ShortS | LongRestore => Some(Restore)
    case ShortV | LongVerbose => Some(Verbose)
    case LongEnterpriseDontResume => Some(EnterpriseDontResume)
    case LongEnterpriseAutotrustSsh => Some(EnterpriseAutotrustSsh)
    case LongDatabase | LongEnterpriseEnabled => None
  }

  /** The enterprise minimum target is never taken from the command line. */
  lemma CommandLineNoJumpTo(opts: seq<(Opt, string)>)
    ensures EnterpriseJumpTo !in ParsedArguments(opts)
  {
    ParsedArgumentsLast(opts, EnterpriseJumpTo);
    LastValueNone(opts, EnterpriseJumpTo);
  }

  /** Given only by "--database", the database is not set. */
  lemma CommandLineDatabaseShortOnly(opts: seq<(Opt, string)>)
    ensures (forall i :: 0 <= i < |opts| ==> opts[i].0 != ShortD) ==> Database !in ParsedArguments(opts)
  {
    ParsedArgumentsLast(opts, Database);
    LastValueNone(opts, Database);
  }

  /** Given only by "--enterprise-enabled", the enterprise switch is not set. */
  lemma CommandLineEnterpriseShortOnly(opts: seq<(Opt, string)>)
    ensures (forall i :: 0 <= i < |opts| ==> opts[i].0 != ShortE) ==> EnterpriseEnabled !in ParsedArguments(opts)
  {
    ParsedArgumentsLast(opts, EnterpriseEnabled);
    LastValueNone(opts, EnterpriseEnabled);
  }
}
