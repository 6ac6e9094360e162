# waftlib migration and repository-configuration core, in Dafny

This project models the decision logic of waftlib, the build kit for Odoo
instances, and proves properties of it. It covers four parts.

- **Database migration** (`bin/migrate.py`). The script walks an Odoo
  database up a ladder of major versions. At each version it runs hook
  scripts, an OpenUpgrade upgrade and, for enterprise databases, Odoo's
  official enterprise upgrade. It records its progress in a resumable map.
  - The model covers the progress store and its operator reset, the
    script-directive parser and the stage executor.
  - It also covers the orchestration of `run_migration`, the enterprise
    attempt loop, the version ladders, option parsing and defaults, the
    `.env-secret` rewriter, `exclude_repos` and `alter_code_block`.
- **Environment validation and the code-YAML normaliser**
  (`venvodoolib/__init__.py`). The environment check replaces bad values by
  defaults and exits on a bad `ODOO_VERSION`. The normaliser turns each entry
  of the repository YAML into a `{remotes, target, merges, addons,
  addons_except}` record.
- **Merge pinning** (`bin/get_pins.py`). It splits and classifies
  `remote branch [pin]` merge lines and rewrites them to the commits a build
  used. It raises a repository's declared clone depth when needed, and
  handles the `--only-base` skip.
- **Index repair** (`migration/hook/common/fix-indexes.py`). It classifies
  the `unaccent` function and builds expected index names and `CREATE INDEX`
  statements. It decides which indexes to drop and recreate.

Versions are always `N.0` strings in the source, so the model uses their
major number as a `nat`. Every float comparison with a tolerance becomes the
matching integer comparison.

External work is reduced as follows:
- Subprocesses, git, the database and the HTTP download become oracles.
- A migration's external steps become actions appended to a trace.
- Whether an action raises is an oracle indexed by the number of actions
  taken before it.

A migration's external steps are mainly shell commands, psql, the Odoo
shell, OpenUpgrade, the enterprise script, and the database copy and
rename.

Modules, by file:
- `bin/migrate.py`:
  - `versions.dfy` (Versions): the version ladders.
  - `directives.dfy` (Directives): `check_script_support`.
  - `progress.dfy` (Progress): the progress store and reset.
  - `hooks.dfy` (Hooks): listing and resolving stage scripts.
  - `enterprise.dfy` (Enterprise): the attempt loop.
  - `stage.dfy` (Stage): the world, the trace and the effect of each phase.
  - `plan.dfy` (MigrationPlan): the phases `run_migration` enters.
  - `migration.dfy` (Migration): the imperative session that runs them.
  - `options.dfy` (Options): `load_defaults` and `parse_arguments`.
  - `buildconfig.dfy` (BuildConfig): `write_env_secret`, `exclude_repos` and `alter_code_block`.
- `venvodoolib/__init__.py`:
  - `waftenv.dfy` (WaftEnv): environment validation.
  - `codeconfig.dfy` (CodeConfig): the code-YAML normaliser.
- `bin/get_pins.py`: `pins.dfy` (Pins).
- `fix-indexes.py`: `indexes.dfy` (Indexes).
- Shared: `wrappers.dfy` holds Option; `pystr.dfy` holds the Python string
  operations used (find, strip, split, join, lower, replace, `os.path.join`
  and string order).

Quirks of the code that the model keeps as written:
- In `parse_arguments`, `arg in ("-d" or "--database")` is a substring test
  against `"-d"`. So only `-d` (and the same for `-e`) sets the option
  (Options.DatabaseSubstringTest).
- `--enterprise-jump-to` is tested but never declared to getopt, so it is
  never parsed (Options.JumpToUndeclared).
- `HOOK_ORDER` spells one stage `enterprise/pre-uprade`. Scripts recorded
  under `enterprise/pre-upgrade` therefore survive every reset
  (Progress.ResetKeepsEnterprisePreUpgrade).
- `run_migration` ignores its parameters and reads `start-version` from the
  parsed options.
- Because of operator precedence, `from_start` holds when:
  - the progress version equals the start version; and
  - either the minimum target is absent from the progress, or it is neither
    upgraded nor enterprise-done (MigrationPlan.FromStart).
- Stage scripts are checked for support at `run_at_version` but recorded
  under `version`.
- In the YAML normaliser, an entry with exactly one referenced remote gets an
  empty `remotes` record (line 373 tests `> 1`). A well-formed `target` is
  not copied, so the stored target stays empty.
- In `get_pins.py` the merge position is `merges.index(merge)`, the first
  equal line. The depth step re-reads the original `merge` text rather than
  the rewritten one.
- `split_line` pops while it iterates, so of two empty pieces in a row
  (three spaces) one survives. `preprocess_merge` filters every empty piece,
  so only the main branch tokens can hold one.

## Model

| member | source | states |
|---|---|---|
| Versions.VersionName | bin/migrate.py:107 | a version's name ends in ".0" |
| Versions.VersionNameInjective | bin/migrate.py:107 | two majors have the same name iff they are equal |
| Versions.AvailableBuildVersions | bin/migrate.py:90-100 | the ladder holds final-start+1 versions (none if start > final), the i-th being start+i, ascending with no gap |
| Versions.InBuildVersions | bin/migrate.py:90-100 | v is on the ladder iff start <= v <= final |
| Versions.KeepEnterprise | bin/migrate.py:101-107 | the filter keeps exactly the versions equal to start or at least the minimum target, and never adds any |
| Versions.InEnterpriseBuildVersions | bin/migrate.py:101-107 | v is on the enterprise ladder iff start <= v <= final and (v == start or v >= minimum target) |
| Versions.KeepEnterpriseAscending | bin/migrate.py:101-107 | filtering keeps a strictly ascending ladder strictly ascending |
| Versions.EnterpriseLadderShape | bin/migrate.py:101-107 | when start <= final the enterprise ladder is strictly ascending, non-empty and starts with start |
| Directives.StripEach | bin/migrate.py:180-187 | every token of a directive is stripped, in order |
| Directives.LeadingComments | bin/migrate.py:172-178 | the scan covers the longest prefix of comment lines: all of them have the prefix, and the first line after it does not |
| Directives.SupportedIff | bin/migrate.py:164-189 | a script is supported iff every leading comment line satisfies its X-Supports / X-Modules directive |
| Directives.SupportedStopsAtCode | bin/migrate.py:172-178 | lines after the first non-comment line never change the verdict |
| Directives.UnmetDirective | bin/migrate.py:180-187 | an X-Supports line without the version, or an X-Modules line naming a module that is not installed, makes the script unsupported |
| Hooks.ListDirFull | bin/migrate.py:1366-1371 | a missing path lists nothing; a directory lists its entries in order, each joined onto the directory; listing a file raises |
| Hooks.StageRoots | bin/migrate.py:1373-1378 | a stage has exactly four script roots |
| Hooks.ListRoots | bin/migrate.py:1379-1384 | the candidates are listed iff every root lists without raising |
| Hooks.Insert | bin/migrate.py:1386 | inserting adds exactly that candidate |
| Hooks.SortByName | bin/migrate.py:1386 | sorting is a permutation of the candidates |
| Hooks.InsertSorted | bin/migrate.py:1386 | inserting into a name-sorted list keeps it sorted |
| Hooks.SortSorted | bin/migrate.py:1386 | the sorted candidates are ordered by file name |
| Hooks.InsertWithName | bin/migrate.py:1386 | among the candidates with its file name, an inserted candidate comes first, ahead of those already there |
| Hooks.SortStable | bin/migrate.py:1386 | sorting keeps candidates with equal file names in their root order (Python's sort is stable) |
| Hooks.Resolve | bin/migrate.py:1333-1354 | a script that runs has an extension that matches its kind |
| Hooks.ResolveDirect | bin/migrate.py:1333-1353 | .py/.sh/.sql scripts run themselves (a .sql one must be readable); an unknown extension is reported and not run |
| Hooks.ResolveLink | bin/migrate.py:1341-1351 | a .link resolves its stripped first line to the migration common hook directory first, then waftlib's, and raises when neither exists |
| Progress.InitVersion | bin/migrate.py:390-395 | init_progress adds an empty record only for a new version and changes nothing else, including the flags and the db version |
| Progress.MarkScript | bin/migrate.py:573-592 | marking appends exactly that script to that version's stage, creating the record and stage if needed; nothing else changes |
| Progress.MarkUpgrade | bin/migrate.py:561-571 | the version joins the upgraded set; enterprise flags and all scripts stay the same |
| Progress.MarkEnterprise | bin/migrate.py:548-559 | the version joins the enterprise set; upgrade flags and all scripts stay the same |
| Progress.DbVersionUnique | bin/migrate.py:366-378 | the db version found from progress (the max of start and the later flagged versions) is unique |
| Progress.StageIndexFrom | bin/migrate.py:525 | the search returns the first index at or after j that holds the stage name, or none |
| Progress.StageIndex | bin/migrate.py:525 | a cutoff stage has an index iff it is in HOOK_ORDER, and the index names it |
| Progress.DefaultResetStageIndex | bin/migrate.py:520-525 | the default cutoff post-upgrade is at index 5 |
| Progress.HookOrderDistinct | bin/migrate.py:502-510 | the stage names of HOOK_ORDER are distinct |
| Progress.ResetRecordStep | bin/migrate.py:526-537 | deleting one more stage removes it and clears upgrade/enterprise only when the stage was present and its table flag is False |
| Progress.ResetSpec | bin/migrate.py:519-543 | after reset to (v, i): no version above v is left, lower versions are unchanged, and v keeps exactly its stages before i, with their script lists |
| Progress.ResetFlags | bin/migrate.py:526-537 | reset clears v's upgrade/enterprise flag iff some present deleted stage has that table flag False |
| Progress.ResetKeepsEnterprisePreUpgrade | bin/migrate.py:505 | scripts recorded under enterprise/pre-upgrade are never removed by reset, because the table misspells that stage |
| Progress.ResetBoundsDbVersion | bin/migrate.py:540-543 | after a reset to v >= start, the db version found from progress is at most v |
| Progress.ProgressStore.constructor | bin/migrate.py:512-516 | the store starts from the loaded progress, already saved |
| Progress.ProgressStore.InitProgress | bin/migrate.py:390-395 | the records become InitVersion of the old ones |
| Progress.ProgressStore.MarkScriptExecuted | bin/migrate.py:573-592 | it returns True iff the path was not recorded; then it records it and saves; otherwise nothing changes |
| Progress.ProgressStore.MarkUpgradeDone | bin/migrate.py:561-571 | the upgrade flag is set and saved |
| Progress.ProgressStore.MarkEnterpriseDone | bin/migrate.py:548-559 | the enterprise flag is set and saved |
| Progress.ProgressStore.FindDbVersion | bin/migrate.py:366-378 | the loop returns the max of start and every later version flagged upgrade or enterprise |
| Progress.ProgressStore.ApplyReset | bin/migrate.py:519-543 | reset succeeds iff the cutoff (default post-upgrade) is in HOOK_ORDER; then records become ResetSpec; otherwise nothing changes |
| Progress.ProgressStore.DeleteStages | bin/migrate.py:526-537 | the deletion loop leaves v's record as the stage-by-stage reset of it |
| Progress.ProgressStore.DeleteAbove | bin/migrate.py:540-543 | every version greater than v is removed, the rest kept |
| Enterprise.RunAttempts | bin/migrate.py:1080-1141 | the imperative nested loop computes exactly the outcome and prompt answers of the attempt state machine |
| Enterprise.RunAttemptsBounded | bin/migrate.py:1086-1089 | from any state with at most 10 attempts, a finished or pending run has launched between 1 and 10 processes |
| Enterprise.AttemptsBounded | bin/migrate.py:1086-1089 | the loop launches at most 10 processes |
| Enterprise.RunAnswers | bin/migrate.py:1075-1139 | every answer after the first is "Y", and the first is the initial answer |
| Enterprise.AttemptsAnswers | bin/migrate.py:1075-1139 | the resume prompt is answered "n" at most once, first, and only with dont-resume |
| Enterprise.RunDoneWitness | bin/migrate.py:1031-1053 | success needs a process that exited with code other than 1 while the -enterprise database was connectable |
| Enterprise.ExitCodeOneRule | bin/migrate.py:1035-1120 | exit code 1 is tested before the database, so whether it is connectable does not matter: with no stderr line decoding fails, a last line holding "<urlopen error timed out>" starts another process, and any other line is fatal |
| Enterprise.OtherExitRule | bin/migrate.py:1035-1052 | any other exit code ends the loop: done when the -enterprise database accepts a connection, and fatal ("Enterprise upgrade failed") when it does not |
| Enterprise.CommunicationErrorRetries | bin/migrate.py:1087-1124 | a communication-error log line starts a new attempt, or fails once 10 were made |
| Stage.PhasesAppend | bin/migrate.py:1161-1308 | the phases entered by a trace distribute over concatenation |
| Stage.VisitFacts | bin/migrate.py:1386-1403 | a candidate is recorded only if it was unrecorded, supported at run_at_version and resolved to a runnable script; it adds at most one execution |
| Stage.ScanOps | bin/migrate.py:1386-1403 | the candidate loop only appends script executions to the trace |
| Stage.ScanProgress | bin/migrate.py:1386-1403 | the loop changes only that version's stage, never a flag, and forgets no recorded script |
| Stage.ScanRecordsOnlyRuns | bin/migrate.py:1386-1403 | a newly recorded path is a candidate that exists, was supported and ran |
| Stage.ScanSettles | bin/migrate.py:1386-1403 | after a successful loop every candidate is settled: recorded, unsupported or not runnable |
| Stage.ScanSettledNoop | bin/migrate.py:1386-1403 | a loop over settled candidates runs and records nothing |
| Stage.RunScriptsTwice | bin/migrate.py:1357-1403 | a second run_scripts with the same files and installed modules executes nothing and records nothing |
| Stage.ScriptsEffectUnfold | bin/migrate.py:1357-1403 | run_scripts enters its phase, then runs its candidates sorted by name, or stops if a root raises |
| Stage.ScriptsEffectOps | bin/migrate.py:1357-1403 | run_scripts enters only its own phase |
| Stage.ScriptsEffectFrame | bin/migrate.py:1357-1403 | run_scripts never changes the upgrade or enterprise flags |
| Stage.EntersOnlyPhases | bin/migrate.py:1161-1308 | a trace extension that enters one phase adds exactly that phase |
| Stage.ExtendEnters | bin/migrate.py:1161-1308 | entering a phase and then running scripts is an extension entering only that phase |
| Stage.UpgradeEffect | bin/migrate.py:1406-1461 | run_upgrade enters only its phase; it sets the upgrade flag iff every step succeeded, and otherwise changes no progress |
| Stage.EnterpriseEffect | bin/migrate.py:1014-1158 | the enterprise upgrade enters only its phase; success sets the enterprise flag; the flag is set before the database fold, so a failed fold leaves it set |
| Stage.EnterpriseFlagNeedsDone | bin/migrate.py:1112-1143 | the enterprise flag is set only after the loop saw a process exit with code other than 1 and a connectable database |
| Stage.BuildDir | bin/migrate.py:1328-1332 | definition: scripts run in WAFT_DIR only at the final version when it is 14 or later, otherwise in that version's build directory |
| MigrationPlan.LoopSnoc | bin/migrate.py:1264-1304 | the per-version loop over one more version appends that version's step to the phases |
| MigrationPlan.LoopPrefix | bin/migrate.py:1264-1304 | the phases of the loop over a prefix of the versions are a prefix of the full loop's |
| MigrationPlan.VersionStepShape | bin/migrate.py:1265-1304 | a step enters nothing iff the version is skipped (equal to start, below db_version, or off the enterprise ladder); a non-skipped step ends with post-upgrade and sets db_version to the version; every phase is of that version |
| MigrationPlan.VersionStepOpenUpgrade | bin/migrate.py:1298-1302 | OpenUpgrade runs for a version iff it is not skipped, OpenUpgrade is not disabled and the version is not upgraded |
| MigrationPlan.VersionStepEnterprise | bin/migrate.py:1291-1295 | the enterprise upgrade runs iff not skipped, enterprise is on, not yet done, and the version is above the minimum target |
| MigrationPlan.VersionStepPreUpgrade | bin/migrate.py:1286-1290 | pre-upgrade runs at the previous version iff not skipped and (OpenUpgrade will run or enterprise is not done) |
| MigrationPlan.JumpSkipsBelowTarget | bin/migrate.py:1265-1273 | with enterprise on, versions strictly between start and the minimum target are skipped |
| MigrationPlan.LoopMonotone | bin/migrate.py:1264-1304 | the loop never lowers db_version and never clears an upgraded or enterprise-done version |
| MigrationPlan.LoopUpgradesOnlyItsVersions | bin/migrate.py:1264-1304 | the loop flags only versions it visits |
| MigrationPlan.LoopUpgradesReached | bin/migrate.py:1264-1304 | with OpenUpgrade on, every version the loop does not skip ends upgraded |
| MigrationPlan.PlanEndsWithPostMigration | bin/migrate.py:1306-1308 | the whole plan ends with post-migration at the final db_version, which is at least start |
| MigrationPlan.InitialUpgradeRule | bin/migrate.py:1210-1222 | the initial upgrade at start runs iff InitialUpgrade holds (from start, not skipped, start not upgraded) |
| Migration.ProgressedNothing | bin/migrate.py:1161-1308 | an empty run has progressed along an empty plan |
| Migration.ProgressedOne | bin/migrate.py:1161-1308 | entering one phase progresses along that one-phase plan |
| Migration.ProgressedThen | bin/migrate.py:1161-1308 | a successful run of plan a followed by a run of plan b has run a + b |
| Migration.ProgressedStop | bin/migrate.py:1161-1308 | a run that stopped inside a stops inside any plan extending a |
| Migration.ProgressedAbort | bin/migrate.py:1161-1308 | a run that stopped inside a prefix of a plan stops inside the plan |
| Migration.Session.constructor | bin/migrate.py:1161-1165 | a session starts with db_version at start and an empty trace |
| Migration.Session.Act | bin/migrate.py:251-323 | an external action is appended to the trace, and its failure is the oracle's |
| Migration.Session.RunScripts | bin/migrate.py:1357-1403 | the loop's new progress and trace are ScriptsEffect, entering exactly that stage and keeping every flag |
| Migration.Session.RunCandidates | bin/migrate.py:1386-1403 | the loop over sorted candidates equals Scan |
| Migration.Session.VisitCandidate | bin/migrate.py:1387-1403 | one candidate's visit equals Visit |
| Migration.Session.RunUpgrade | bin/migrate.py:1406-1461 | run_upgrade's progress and trace are UpgradeEffect |
| Migration.Session.RunEnterpriseUpgrade | bin/migrate.py:1014-1158 | run_enterprise_upgrade's progress and trace are EnterpriseEffect |
| Migration.Session.RunPhase | bin/migrate.py:1161-1308 | entering a phase leaves exactly PhaseEffect's progress, trace and outcome (run_scripts, run_upgrade or run_enterprise_upgrade by the phase's kind), enters that phase alone, and sets only that phase's flag |
| Migration.Session.RunVersion | bin/migrate.py:1265-1304 | one loop iteration leaves exactly VersionEffect (nothing for a skipped version, otherwise the record of the version and then the fold of VersionStep's phases), progresses along VersionStep and leaves db_version and flags as it says |
| Migration.Session.RunLead | bin/migrate.py:1285-1297 | pre-upgrade and the enterprise part leave exactly the fold of LeadPhases, progress along them and flag the version as enterprise-upgraded iff the enterprise upgrade ran |
| Migration.Session.RunTail | bin/migrate.py:1298-1303 | the OpenUpgrade part and post-upgrade leave exactly the fold of TailPhases and progress along them |
| Migration.Session.RunMigration | bin/migrate.py:1161-1308 | run_migration leaves exactly MigrationEffect's progress, trace and outcome; it progresses exactly along Plan for the loaded progress and its db version: on success all of it, on failure a prefix; on success db_version and the upgraded and enterprise sets are those of FinalState |
| Migration.Session.RunLoop | bin/migrate.py:1263-1304 | the for loop leaves exactly LoopEffect (VersionEffect per version, stopping at the first that raises) and progresses along Loop; on success it ends at Loop's db_version and upgraded and enterprise sets |
| Migration.Session.RunPostMigration | bin/migrate.py:1306-1308 | the closing stages leave exactly the fold of PostMigration at the current db_version, keep it, and on success keep every upgrade and enterprise flag |
| Migration.Session.RunPrelude | bin/migrate.py:1165-1259 | the setup, pre-migration, initial upgrade and jump leave exactly PreludeEffect and progress along Prelude |
| Migration.Session.RunSetup | bin/migrate.py:1165-1195 | the setup leaves exactly SetupEffect: the enterprise script load, the start version's record added by InitVersion, the mail-server backup and the defusing, each of which may raise; it enters no phase and computes the progress db version and from_start |
| Migration.Session.RunOpening | bin/migrate.py:1197-1224 | pre-migration and the initial upgrade leave exactly the fold of Opening and progress along it, setting db_version only when not from start |
| Migration.Session.RunJump | bin/migrate.py:1226-1259 | the enterprise jump block leaves exactly the fold of Jump's phases and progresses along them |
| Migration.Session.RunJumpEnter | bin/migrate.py:1246-1249 | pre-jump and the enterprise upgrade to the minimum target leave exactly the fold of JumpEnter, and run only when it is not done |
| Migration.Session.RunJumpAfter | bin/migrate.py:1250-1253 | the post-jump stages after a jump leave exactly the fold of JumpAfter and keep every flag |
| Migration.Session.RunCatchUp | bin/migrate.py:1254-1259 | a resumed run at the minimum target leaves exactly the fold of CatchUp, replaying the post-jump stages |
| Migration.Session.RunPhases | bin/migrate.py:1161-1308 | entering a list of phases in order leaves exactly their fold, which stops at the first phase that raises, progresses along the list, and adds the list's upgrade and enterprise flags on success |
| Migration.Session.RunPass | bin/migrate.py:1285-1304 | a pass that is not skipped leaves exactly the fold of LeadPhases then TailPhases and ends with db_version at the version |
| Migration.PhasesEffectThen | bin/migrate.py:1161-1308 | running a + b is running a, then b from where a stopped unless a raised |
| Migration.PhasesEffectProgressed | bin/migrate.py:1161-1308 | the fold enters exactly the list of phases when it succeeds and a prefix of it when it raises |
| Migration.PhasesEffectFails | bin/migrate.py:1161-1308 | the fold raises if and only if some phase raises after every phase before it returned |
| Migration.TailPhasesFlags | bin/migrate.py:1298-1303 | the rest of a loop pass flags the version as upgraded exactly when it runs OpenUpgrade, and sets no enterprise flag |
| Migration.EnterprisePhasesFlags | bin/migrate.py:1291-1297 | the enterprise part flags the version exactly when it runs the enterprise upgrade, and sets no upgrade flag |
| Migration.LeadPhasesFlags | bin/migrate.py:1285-1297 | pre-upgrade and the enterprise part flag the version as enterprise-upgraded exactly when the enterprise upgrade runs, and set no upgrade flag |
| Migration.OpeningFlags | bin/migrate.py:1197-1224 | the opening flags the start version exactly when it runs the initial upgrade |
| Options.LoadDefaultsKeeps | bin/migrate.py:421-439 | given parameters win, and every default key except database is present |
| Options.LoadDefaultsEnterpriseBackups | bin/migrate.py:407-428 | enterprise-enabled and no-backups default to their environment booleans |
| Options.LoadDefaultsUpgradeSwitches | bin/migrate.py:408-434 | open-upgrade-disabled and skip-initial-upgrade default to their environment booleans |
| Options.LoadDefaultsStartVersion | bin/migrate.py:410-435 | start-version defaults to MIGRATION_START_VERSION or None |
| Options.LoadDefaultsJumpTo | bin/migrate.py:415-426 | without MIGRATION_ENTERPRISE_JUMP_TO the jump target defaults to "15.0" |
| Options.LoadDefaultsNoDatabase | bin/migrate.py:421-439 | database is present iff given |
| Options.LoadDefaultsActionsOff | bin/migrate.py:427-433 | help, reset-progress, rebuild and restore default to False |
| Options.LoadDefaultsModesOff | bin/migrate.py:424-430 | production and enterprise-dont-resume default to False |
| Options.EnvironBoolExamples | bin/migrate.py:404-405 | illustrative cases: "TRUE" and "Yes" are true; "on", "0" and an unset variable are not |
| Options.EnvironBoolTrueLower | bin/migrate.py:404-405 | a variable is true iff it is set and its lower case is "1", "yes" or "true" |
| Options.ResetPoint | bin/migrate.py:639 | reset-progress keeps one or two colon-separated parts |
| Options.ParseArguments | bin/migrate.py:621-650 | the option loop computes ParsedArguments |
| Options.ParsedArgumentsSnoc | bin/migrate.py:621-649 | each option applies its tests to the arguments parsed so far |
| Options.ApplyOptionAt | bin/migrate.py:624-649 | an option sets exactly the keys whose test it passes, with that key's value, and keeps the others |
| Options.ParsedArgumentsLast | bin/migrate.py:621-650 | a key is parsed iff some option sets it, and its value comes from the last such option |
| Options.LastValueNone | bin/migrate.py:621-650 | no value is found for a key iff no option maps to it |
| Options.TestOrderDistinct | bin/migrate.py:624-649 | the tests set distinct keys |
| Options.TestOrderKeys | bin/migrate.py:624-649 | every key is tested except no-backups and skip-initial-upgrade |
| Options.DatabaseSubstringTest | bin/migrate.py:624-625 | `in ("-d" or "--database")` sets database for "-d" only |
| Options.EnterpriseSubstringTest | bin/migrate.py:626-627 | `in ("-e" or "--enterprise-enabled")` sets enterprise-enabled for "-e" only |
| Options.JumpToUndeclared | bin/migrate.py:599-649 | getopt never yields --enterprise-jump-to, so no option sets it |
| Options.OptionSets | bin/migrate.py:599-649 | an option sets a key iff the option's spelling maps to that key |
| Options.PlainTests | bin/migrate.py:628-647 | the `==` tests map as their spellings say |
| Options.ShortAndLongTests | bin/migrate.py:628-643 | -f/-h/-o/-p/-r and their long forms set their keys |
| Options.RemainingTests | bin/migrate.py:638-647 | --reset-progress, -s/--restore, -v/--verbose and the two enterprise switches set their keys; no option sets no-backups or skip-initial-upgrade |
| Options.CommandLineNoJumpTo | bin/migrate.py:599-650 | a parsed command line never holds enterprise-jump-to |
| Options.CommandLineDatabaseShortOnly | bin/migrate.py:624-625 | without "-d" the command line never sets database |
| Options.CommandLineEnterpriseShortOnly | bin/migrate.py:626-627 | without "-e" the command line never sets enterprise-enabled |
| Options.ContainsTwo | bin/migrate.py:624-626 | a two-character string contains exactly its empty, single-character and whole substrings |
| BuildConfig.Overrides | bin/migrate.py:742-764 | the overrides exist iff PGDATABASE is set (otherwise the lookup raises) |
| BuildConfig.OverridesShape | bin/migrate.py:744-764 | the overrides are ODOO_VERSION, PGDATABASE, ODOO_DBFILTER ^db$, LOG_LEVEL DEBUG, PGPORT 5432, then PGPASSWORD if set, then the repository pattern for enterprise or below 14 off the start version |
| BuildConfig.OverridesDistinct | bin/migrate.py:744-764 | the override names are distinct |
| BuildConfig.OverridesFixed | bin/migrate.py:744-754 | the port, log level, version and dbfilter values are fixed as written |
| BuildConfig.OverridesPattern | bin/migrate.py:757-764 | the repository pattern is odoo's for enterprise, OpenUpgrade's below 14 when not the start version, and absent otherwise |
| BuildConfig.OverridesPassword | bin/migrate.py:755-756 | PGPASSWORD is overridden iff it is in the environment |
| BuildConfig.ValueForIn | bin/migrate.py:776-788 | a lookup finds a value iff the name is an override, and the pair is one of them |
| BuildConfig.ValueForDistinct | bin/migrate.py:776-788 | with distinct names the lookup returns that override's value |
| BuildConfig.RewriteFile | bin/migrate.py:776-788 | the line loop computes Rewrite of the file |
| BuildConfig.AddMissing | bin/migrate.py:790-793 | the overrides not rewritten are appended in order |
| BuildConfig.WriteEnvSecret | bin/migrate.py:742-798 | a file is written iff PGDATABASE is set, and it holds EnvSecretLines of the existing .env-secret or else the template |
| BuildConfig.RewriteFromFile | bin/migrate.py:776-788 | every kept line comes from a line of the file |
| BuildConfig.RewriteKeeps | bin/migrate.py:776-788 | every rewritable line of the file is kept |
| BuildConfig.RewriteKeys | bin/migrate.py:776-788 | a name counts as rewritten iff some file line assigns it and it is an override |
| BuildConfig.MissingLines | bin/migrate.py:790-793 | exactly the overrides not rewritten are added |
| BuildConfig.EveryOverrideWritten | bin/migrate.py:776-793 | every override appears quoted in the written file |
| BuildConfig.EnvSecretPinned | bin/migrate.py:742-798 | the written file always pins PGPORT, ODOO_VERSION and PGDATABASE |
| BuildConfig.RewriteLineOrigin | bin/migrate.py:776-788 | a rewritten line is a quoted override or a stripped assignment of another name |
| BuildConfig.EveryLineAccounted | bin/migrate.py:776-798 | every written line is a quoted override or a file assignment of a name that is not overridden |
| BuildConfig.ExcludeRepos | bin/migrate.py:800-810 | exactly the whitelisted repositories are kept, with their values |
| BuildConfig.AfterNewline | bin/migrate.py:452-454 | the position found is within the code |
| BuildConfig.AfterNewlineSpec | bin/migrate.py:452-454 | the position is just after the first newline at or after k, or 0 when there is none |
| BuildConfig.BlockStartLines | bin/migrate.py:451-452 | the block starts after the first occurrence of the prefix and the rest of its line; with no prefix, the search starts at len(prefix) |
| BuildConfig.BlockEndLines | bin/migrate.py:453-454 | the block ends after the line holding the first postfix at or after the start |
| BuildConfig.AlterCodeBlockKeeps | bin/migrate.py:450-455 | the result is the code before the block, the replacement and a newline, then the code after the block |
| WaftEnv.FixedAccepted | venvodoolib/__init__.py:31-196 | fixing a value makes it acceptable, keeps an acceptable one, and is idempotent |
| WaftEnv.ValidateEnvironment | venvodoolib/__init__.py:31-196 | the checks run in order and equal Apply over the rule table |
| WaftEnv.ApplyStep | venvodoolib/__init__.py:31-196 | one check writes back only its own variable |
| WaftEnv.ApplyOutcome | venvodoolib/__init__.py:31-196 | validation succeeds iff every variable is set and no fatal check fails; a missing variable is named by a rule; a failure exits with status 1 |
| WaftEnv.ApplyEnviron | venvodoolib/__init__.py:31-196 | validation writes each checked variable's fixed value and leaves the others |
| WaftEnv.RulesDistinct | venvodoolib/__init__.py:31-196 | every variable is checked once |
| WaftEnv.ValidatedValues | venvodoolib/__init__.py:31-196 | every checked variable ends acceptable; an acceptable value is kept; otherwise it becomes its stated default |
| WaftEnv.FatalOnly | venvodoolib/__init__.py:109-114 | with a single fatal check, validation succeeds iff its value is allowed, and otherwise exits with status 1 |
| WaftEnv.RulesSound | venvodoolib/__init__.py:31-196 | every default in the table is acceptable to its own check |
| WaftEnv.DefaultsAccepted | venvodoolib/__init__.py:31-196 | the defaults INFO, nl_NL and the digit defaults pass their checks |
| WaftEnv.RulesFatal | venvodoolib/__init__.py:109-114 | ODOO_VERSION is the only fatal check |
| WaftEnv.VersionExit | venvodoolib/__init__.py:109-114 | with every variable set, validation succeeds iff ODOO_VERSION is 8.0 to 16.0, and otherwise exits with status 1 |
| WaftEnv.LogLevelReset | venvodoolib/__init__.py:31-43 | WAFT_LOG_LEVEL outside DEBUG/INFO/WARNING/ERROR/CRITICAL becomes INFO |
| CodeConfig.Get | venvodoolib/__init__.py:227-233 | a YAML key is found iff the mapping has it |
| CodeConfig.NamedByAnySpec | venvodoolib/__init__.py:265-270 | scanning the merges raises iff an item is unhashable, and otherwise tells whether some item names the remote |
| CodeConfig.ReferencedSpec | venvodoolib/__init__.py:265-270 | the referenced remotes are exactly the declared remotes some merge mentions; the scan raises on an unhashable item |
| CodeConfig.ReferencedRemotes | venvodoolib/__init__.py:265-270 | the remote loop computes Referenced |
| CodeConfig.MergeItemKept | venvodoolib/__init__.py:277-345 | an item survives iff it is a mapping with a non-empty string remote naming a referenced remote, a string ref if any, and an int depth if any; placeholders and a missing ref become ODOO_VERSION, a missing depth 1 |
| CodeConfig.FilterMerges | venvodoolib/__init__.py:277-345 | the merge loop computes Surviving |
| CodeConfig.SurvivingRaises | venvodoolib/__init__.py:277-345 | the merge loop raises iff some item raises |
| CodeConfig.SurvivingFrom | venvodoolib/__init__.py:277-345 | every surviving merge is the normalisation of some item |
| CodeConfig.SurvivingKeeps | venvodoolib/__init__.py:277-345 | every item that normalises survives |
| CodeConfig.DeepenEach | venvodoolib/__init__.py:360-366 | deepening keeps the number of merges |
| CodeConfig.Deepen | venvodoolib/__init__.py:360-366 | the loop computes DeepenEach |
| CodeConfig.DeepenEachSpec | venvodoolib/__init__.py:360-366 | every depth of 1 becomes the WAFT_DEPTH_MERGE setting; every other depth is kept; remote and ref are unchanged |
| CodeConfig.UsedRemotes | venvodoolib/__init__.py:373-377 | the nested loop computes UsedBy |
| CodeConfig.UsedBySpec | venvodoolib/__init__.py:373-377 | a remote is kept iff it is referenced and used by a surviving merge |
| CodeConfig.JoinPaths | venvodoolib/__init__.py:439-443 | the addons loop computes Paths |
| CodeConfig.PathsSpec | venvodoolib/__init__.py:439-443 | the item list joins iff every item is a string, and then each item is joined onto the repository path in order |
| CodeConfig.Addons | venvodoolib/__init__.py:423-464 | the addons block computes AddonList |
| CodeConfig.TargetSpec | venvodoolib/__init__.py:378-417 | an empty target raises; a well-formed target leaves it ''; otherwise it is "remote ref" of the first merge |
| CodeConfig.RemotesStep | venvodoolib/__init__.py:224-240 | an entry goes on only when its remotes are a mapping |
| CodeConfig.PlanMerges | venvodoolib/__init__.py:241-366 | the merges part computes PlanOf |
| CodeConfig.PlanShape | venvodoolib/__init__.py:241-366 | there is always a merge; with several no depth is 1; a generated merge is the first remote at ODOO_VERSION, depth 1; it is generated without merges, or when no item survives; otherwise the merges are the surviving items in order, with a depth of 1 turned into the WAFT_DEPTH_MERGE setting when there are several |
| CodeConfig.SurvivorsReferenced | venvodoolib/__init__.py:277-345 | every surviving merge names a referenced remote |
| CodeConfig.PlanRemotes | venvodoolib/__init__.py:265-345 | referenced remotes are declared ones, and every merge names a declared remote |
| CodeConfig.PlanDropped | venvodoolib/__init__.py:243-270 | an entry is dropped iff it has no merges and no remotes, non-list merges, or merges naming no declared remote |
| CodeConfig.NormaliseEntry | venvodoolib/__init__.py:223-465 | the loop body computes Normalised |
| CodeConfig.StoredEntry | venvodoolib/__init__.py:223-240 | a stored entry is not enterprise/private, has a remotes mapping, and is stored under CODE_ODOO_DIRECTORY/sub_path |
| CodeConfig.StoredMerges | venvodoolib/__init__.py:243-366 | stored merges are non-empty, name declared remotes, have no depth 1 when several, and without merges are the single default; several stored merges are the surviving items in order, each depth of 1 replaced by the WAFT_DEPTH_MERGE setting |
| CodeConfig.StoredRemotes | venvodoolib/__init__.py:367-377 | output remotes are used by a merge; a generated merge keeps only the first remote; otherwise the used remotes when more than one is referenced, else none |
| CodeConfig.StoredTarget | venvodoolib/__init__.py:378-420 | the stored target is '' iff the declared target is well formed, and otherwise "remote ref" of the first merge |
| CodeConfig.StoredAddons | venvodoolib/__init__.py:423-464 | missing or non-list addons become [path/*], missing or non-list addons_except become [], and list items are joined in order |
| CodeConfig.EntryIgnored | venvodoolib/__init__.py:224-240 | enterprise/private, entries without remotes and non-mapping remotes are skipped; a non-mapping entry that can be tested raises |
| CodeConfig.FirstPassRaises | venvodoolib/__init__.py:222-465 | the first pass raises iff some entry raises |
| CodeConfig.FirstPassLast | venvodoolib/__init__.py:222-465 | a path ends up in the first pass iff some entry stores there, with the last such entry's record |
| CodeConfig.AddExtraSwap | venvodoolib/__init__.py:482-532 | extras stored at different paths commute |
| CodeConfig.ExtraPathsDiffer | venvodoolib/__init__.py:482-489 | the enterprise and private paths differ |
| CodeConfig.ExtrasOrder | venvodoolib/__init__.py:482 | iterating over the set {'enterprise', 'private'} in either order gives the same records |
| CodeConfig.LoadCodeConfig | venvodoolib/__init__.py:222-535 | the whole normaliser computes CodeConfig |
| CodeConfig.ConfigRecords | venvodoolib/__init__.py:534-535 | the last entry stored at a path is the record in the final configuration |
| Pins.FirstIndex | bin/get_pins.py:245 | `.index` returns the first position holding the line |
| Pins.SplitLine | bin/get_pins.py:55-60 | the loop returns SplitTokens: `line.split(" ")` walked by position, popping the first empty piece whenever the piece read is empty; the non-empty pieces are those of the line in order, nothing is added, and a line without empty pieces is untouched |
| Pins.PopEmptiesSpec | bin/get_pins.py:57-59 | the pop-while-iterating walk keeps the non-empty pieces in order, adds nothing, and leaves a list without empty pieces as it is |
| Pins.SplitTokensOneSpace | bin/get_pins.py:55-60 | illustrative case: "origin 14.0" gives ["origin", "14.0"] |
| Pins.SplitTokensTwoSpaces | bin/get_pins.py:55-60 | illustrative case: "origin  14.0" gives ["origin", "14.0"] |
| Pins.SplitTokensThreeSpaces | bin/get_pins.py:55-60 | illustrative case: with three spaces one empty piece survives, ["origin", "", "14.0"] |
| Pins.NonEmptyConcat | bin/get_pins.py:55-60 | dropping empty tokens distributes over concatenation |
| Pins.RemoveEmpty | bin/get_pins.py:57-59 | popping an empty token keeps the non-empty tokens |
| Pins.NonEmptyAll | bin/get_pins.py:55-60 | a token list without empty pieces is its own non-empty tokens |
| Pins.IsInHistory | bin/get_pins.py:63-67 | a value is in the history iff some commit has the same first 8 characters |
| Pins.MergeTypeSpec | bin/get_pins.py:98-114 | three tokens give type 3; else type 2 iff token 1 is in the history; else 1; never 0; fewer than two tokens raise |
| Pins.BranchnameSpec | bin/get_pins.py:83-86 | types 1 and 3 name token 1 with ${ODOO_VERSION} replaced; type 2 gives False |
| Pins.BranchnameVersion | bin/get_pins.py:83-86 | illustrative case: a branch spelled ${ODOO_VERSION} names ODOO_VERSION |
| Pins.PreprocessSpec | bin/get_pins.py:70-80 | a first token that is not a declared remote raises ValueError; a declared remote of a built repository yields the tokens |
| Pins.RewriteSpec | bin/get_pins.py:164-211 | type 2 replaces token 1 with the head; type 1 with a branch appends the merge base; type 3 replaces token 2 by the merge base, changing it iff it differs |
| Pins.FieldsJoin | bin/get_pins.py:216 | joining clean tokens by single spaces and splitting gives them back |
| Pins.SplitJoin | bin/get_pins.py:216 | joining tokens without spaces and splitting gives them back |
| Pins.SplitNoSep | bin/get_pins.py:55-60 | a string without a space splits into itself |
| Pins.SplitAppend | bin/get_pins.py:55-60 | splitting a token, a space and a rest gives the token and the rest's split |
| Pins.RewriteStable | bin/get_pins.py:158-216 | rewriting a rewritten line of 2-3 tokens changes nothing |
| Pins.MergeLineIdempotent | bin/get_pins.py:158-216 | processing an already pinned merge line again returns it unchanged |
| Pins.LongLineGrows | bin/get_pins.py:98-114 | a line of four or more tokens whose token 1 is not a commit is type 1 and gains a pin |
| Pins.PlaceholderDefaults | bin/get_pins.py:271-277 | illustrative case: the placeholders resolve to 100 and 1 when the variables are unset |
| Pins.DepthRule | bin/get_pins.py:270-283 | the declared depth is replaced by the running maximum iff the maximum is positive and exceeds it, and the new depth reads back as that maximum |
| Pins.DeclaredWritten | bin/get_pins.py:277-283 | a written depth reads back as its number |
| Pins.RaiseDepthMax | bin/get_pins.py:265-269 | the `and/or` update keeps the larger of the two depths |
| Pins.MaxOf | bin/get_pins.py:230-269 | the running maximum starts at 0 and bounds and belongs to the depths |
| Pins.OnlyBaseSpec | bin/get_pins.py:247-251 | with --only-base a merge is skipped iff its index is > 0 or the repository has a target |
| Pins.PinRun.constructor | bin/get_pins.py:35-37 | the global dictionaries start empty |
| Pins.PinRun.ProcessMerge | bin/get_pins.py:158-216 | the merge line becomes MergeLine, and the heads and commits of a repository are refreshed only after a successful preprocess |
| Pins.PinRun.PinMerge | bin/get_pins.py:252-283 | the merge at the index becomes its MergeLine; a merge naming a branch gets the git depth against the main branch, the running maximum becomes the larger of the two, and the depth default becomes NewDepth of that maximum; it fails iff the line is rejected, or a branch merge meets a pinned main line or an unreadable depth |
| Pins.PinRun.PinNext | bin/get_pins.py:243-283 | one pass of the merge loop keeps the loop state: later merges untouched, earlier ones pinned or skipped, depths and the depth default as far as the loop has come; a skipped merge leaves the entry as it is; a processed merge that process_merge rejects, or that names a branch against a pinned main line, raises; an accepted merge with a readable depth default goes through |
| Pins.PinRun.PinMerges | bin/get_pins.py:243-283 | the merge loop keeps remotes, target and the number of merges; it processes every merge, or with --only-base merge 0 alone and none with a target; with distinct lines each processed merge becomes its MergeLine and the others stay; the running depth is the maximum of the git depths of the processed merges naming a branch, and the depth default is NewDepth of it; it goes through when every merge is accepted and the depth default reads wherever it is read, always with --only-base and a target, and without --only-base exactly then |
| Pins.PinRun.MainBranch | bin/get_pins.py:240-242 | the main line's tokens are SplitTokens of it, and the branch they name is MainRefOf against the recorded history; it fails exactly where `get_merge_type` raises |
| Pins.PinRun.ProcessRepo | bin/get_pins.py:228-283 | PRIVATE/ONLY/ENV are skipped with depth 0; a target becomes its MergeLine; the main line is the target as declared, else merge 0; its tokens are exactly SplitTokens of that line, and the main branch is read from them against the repository history at that point; the merges and depth become what PinMerges states for that main branch; a repository that goes through had an accepted target and a main branch; one whose target, main branch, merges and depth default are all accepted goes through, and without --only-base only such a one does |
| Pins.PinRun.ProcessDoc | bin/get_pins.py:227-283 | every repository is processed in order under its own name: skipped ones are unchanged, the others get their target and merges pinned and their depth raised as for ProcessRepo; the running depth of a name is the maximum depth of its last entry; a document whose every repository is accepted, against either history all_commits can hold for it, goes through, and one that goes through has every repository reached as ProcessRepo states |
| Pins.PinRun.PinAt | bin/get_pins.py:252-283 | a merge the loop does not skip is pinned at the place `.index` found and keeps the loop state; it raises when rejected or naming a branch against a pinned main line, and goes through when accepted with a readable depth default |
| Pins.PinRun.ProcessEntry | bin/get_pins.py:228-283 | one repository of a document as ProcessRepo makes it, with the commits recorded still either those from before the document or the repository's own history |
| Pins.PinAccepted | bin/get_pins.py:252-283 | PinMerge raises on a rejected merge and goes through on an accepted one whose depth default reads when needed |
| Pins.ReadableStep | bin/get_pins.py:270-277 | where the declared depth reads, or every branch is at depth 0, raising the running depth never meets a depth `int()` cannot read |
| Pins.PinnedAccepted | bin/get_pins.py:243-283 | a merge loop that processed every merge met only accepted merges and read the depth default only where it could |
| Pins.IndexDepthsZero | bin/get_pins.py:257-269 | with every branch at depth 0 the running depth stays 0 |
| Pins.IndexDepthsHas | bin/get_pins.py:257-269 | the depth of every processed merge naming a branch is among the depths computed |
| Pins.EntryReachedStep | bin/get_pins.py:227-283 | a repository processed against commits recorded since the document began is reached, and is accepted against them when accepted against both values they can hold |
| Pins.NewDepthTwice | bin/get_pins.py:265-283 | raising the depth default to one maximum and then to a larger one is raising it to the larger at once |
| Pins.PinnedDepthCovers | bin/get_pins.py:265-283 | after the merge loop the depth default covers every computed depth, and it changed only to the maximum when that exceeded the declared depth |
| Pins.FirstIndexAt | bin/get_pins.py:245 | `.index` of a line at a position where no earlier line is equal is that position |
| Indexes.UnaccentSpec | migration/hook/common/fix-indexes.py:47-82 | no row gives MISSING, 'i' gives INDEXABLE, anything else PRESENT; only MISSING is falsy; MISSING < PRESENT < INDEXABLE |
| Indexes.GenerateIndexExprSpec | migration/hook/common/fix-indexes.py:96-105 | the statement is the CREATE INDEX head and the joined expressions, with " WHERE (…)" appended iff where is non-empty |
| Indexes.GenerateOne | migration/hook/common/fix-indexes.py:96-105 | with one expression the statement is the head, the expression and ")" |
| Indexes.UnaccentWrapper | migration/hook/common/fix-indexes.py:113-114 | the wrapper is "unaccent((" + x + ")::text)" |
| Indexes.IndexNameSpec | migration/hook/common/fix-indexes.py:148 | "{table}_{field}_index" is cut to max_identifier_length and is kept whole when it fits |
| Indexes.FieldEntriesSpec | migration/hook/common/fix-indexes.py:146-158 | a model yields an expectation exactly for its stored, column-typed fields, with the truncated name |
| Indexes.ExpectedSpec | migration/hook/common/fix-indexes.py:144-158 | expectations come exactly from stored column fields of non-abstract auto models |
| Indexes.TrigramDefinition | migration/hook/common/fix-indexes.py:187-198 | trigram uses gin with " gin_trgm_ops" and no WHERE; translated columns use jsonb_path_query_array; unaccent is wrapped only when INDEXABLE |
| Indexes.BtreeDefinition | migration/hook/common/fix-indexes.py:199-208 | non-trigram uses btree, with WHERE "col IS NOT NULL" iff btree_not_null |
| Indexes.CheckSpec | migration/hook/common/fix-indexes.py:164-214 | a disallowed index attribute stops; a wanted index ends with the expected definition; an unwanted one changes nothing; only that name changes; a differing definition is dropped and recreated |
| Indexes.CheckIdempotent | migration/hook/common/fix-indexes.py:183-214 | checking an index again after a fix does nothing |
| Indexes.CheckAgrees | migration/hook/common/fix-indexes.py:183-214 | wherever the code as written gets through, the corrected check does the same |
| Indexes.MissingIndexStops | migration/hook/common/fix-indexes.py:205-214 | for a wanted btree index that is absent, the code as written stops, while the corrected check creates it |
| Indexes.MissingNamesSpec | migration/hook/common/fix-indexes.py:172-180 | the reported missing names are exactly the wanted expectations not present |
| Indexes.ReportManual | migration/hook/common/fix-indexes.py:133-141 | the manual indexes reported missing are those listed for installed modules that do not exist |
| Indexes.Catalog.constructor | migration/hook/common/fix-indexes.py:164-214 | the catalogue starts from the existing definitions with no statement issued |
| Indexes.Catalog.CheckOne | migration/hook/common/fix-indexes.py:183-214 | one iteration leaves the catalogue as Check says |
| Indexes.ExistingNames | migration/hook/common/fix-indexes.py:159-163 | a name of the expectations is listed as existing iff the catalogue has a definition for it |
| Indexes.Catalog.CheckAll | migration/hook/common/fix-indexes.py:159-214 | the corrected hook, which creates a wanted index that is missing where the code as written stops (see Findings): the names existing before the loop are read from the catalogue; the loop succeeds iff every index attribute is allowed, and then equals Checks and reports MissingNames for those names |
| Indexes.Catalog.CheckEach | migration/hook/common/fix-indexes.py:164-214 | the corrected loop, which creates a wanted index that is missing (see Findings): given the names found before it, the loop succeeds iff every index attribute is allowed, and then equals Checks and reports MissingNames |
| Indexes.ChecksStep | migration/hook/common/fix-indexes.py:183-214 | the loop checks the first expectation, then the rest |
| Indexes.ChecksLast | migration/hook/common/fix-indexes.py:183-214 | after the loop, each wanted index last checked under its name has its expected definition |
| Indexes.ChecksKeep | migration/hook/common/fix-indexes.py:183-214 | an index no expectation wants is never touched |

## Findings

| source | as written | input that shows it | evidently intended | confidence | as-written member | corrected member |
|---|---|---|---|---|---|---|
| migration/hook/common/fix-indexes.py:205 | `get_index_expr` (108-110) does `fetchone()[0]`. For a wanted index missing from `pg_indexes`, `fetchone()` is None and the subscript raises TypeError, so the hook stops before creating any later index. | field `ref` of `sale_order`: stored, btree, not translated, with no index of that name in the database | the missing index is created with the expected definition | not executed | Indexes.MissingIndexStops (on Indexes.CheckAsWritten) | Indexes.Check, with Indexes.CheckSpec and Indexes.CheckAgrees |

## Left out

Migration (`bin/migrate.py`):
- `cmd`, its stderr-draining thread, and every subprocess, database and HTTP call are left out. They are concurrency and I/O. Each becomes one trace action whose failure is an oracle.
- The modules installed in the database (`check_modules_installed`) are an oracle. Its own database errors are not modelled.
- `getopt` itself is not modelled. The model starts from the option list getopt returns. Option spellings outside the declared set are not modelled.
- Floats on version strings are not modelled. Versions are `N.0` majors, so float tolerances become integer comparisons.
- Reset versions and progress keys that are not of the `N.0` form are not modelled.
- A progress record without a `hooks` map is not modelled: every record has one.
- A listed entry that is not a readable file (a sub-directory) makes `check_script_support` raise on `open`; the model ends the stage with a failure there. Paths are assumed to be either files or directories, never both.
- Hooks.Resolve: a chain of `.link` files is bounded by LinkBound (1000). This stands for Python's recursion limit; a longer chain counts as a failure.
- A `.link` file names another script. Because `run_script` re-enters itself (1345, 1350), a chain of links is followed, and the model follows it too.
- run_upgrade's command-line arguments (the verbose flag, the log file) are not modelled. They only change the text of the command.
- Enterprise.Attempts: when the observation stream runs out, the result is Pending. The migration treats Pending as a failure.
- The enterprise preparation steps (dropdb, rm, touch and the log-file seek) are collapsed into one action.
- Migration.Session.constructor requires the world's ODOO_VERSION to equal the configured final version. The script reads both from the same environment.
- `SKIP_INITIAL_UPGRADE` is read directly from the environment at run_migration 1210-1214. It is a configuration field.
- `save_progress` JSON writing is out: the store's `saved` field marks when the map would be written. So are `prepare`, `rebuild_sources`, `restore`, `setup_logging` and `main`.
- write_env_secret's file reading, writing and template copy are out: files are sequences of lines.
- exclude_repos: the model produces a map, so the order of the dictionary is not kept.
- alter_code_block: the download and temporary file of `load_enterprise_script` are out. So are the `code.replace` rewrites (467-487) applied to the downloaded script, which are fixed text edits of foreign code.

Text:
- Strings are ASCII: `str.strip`, `str.split()` and `str.lower` use ASCII whitespace and letters. `int()` is modelled only on plain digit strings.

Environment validation and normaliser (`venvodoolib/__init__.py`):
- The 20 environment checks are one table of rules. The write-back to `os.environ` is the returned map.
- `load_dotenv` and the logger setup are out.
- The YAML is a value datatype (mappings as ordered key lists, lists, strings, ints and others). Non-string keys, duplicate keys and floats are not modelled.
- The default main-odoo entry (468-481) is out. It refers to an undefined `origin` (475), so whenever ODOO_MAIN_CODE_PATH has no record (468) the source raises NameError; CodeConfig.CodeConfig returns a configuration there instead.
- The final dictionary merge (534-535) is a map union.

Merge pinning (`bin/get_pins.py`):
- git (`rev-list`, `rev-parse`, `merge-base`, `process_depth`) is an oracle. The `pudb` breakpoint on a failed depth computation is folded into the oracle's 5000.
- `Template` substitution, YAML loading and dumping, `chdir` and the prints are out.
- A missing remote, merge or `defaults` key raises KeyError in the code. The model treats these as failures (None) rather than modelling the message.
- Depths are strings or numbers; other YAML types are not modelled.
- `PRIVATE` is a parameter, and the environment dictionary is a parameter map.
- Several YAML documents are modelled by calling ProcessDoc once per document.
- Pins.PinRun.PinMerges: where a repository lists the same merge line twice, or a line equal to the pinned form of an earlier one, `.index` finds the earlier position; the contract then states the positions processed, the depths and the depth default, but not which line each position ends with.
- Pins.PinRun.PinMerges: with --only-base and no target only merge 0 and lines equal to its pinned form are processed; for that case the contract gives only the sufficient condition (every merge accepted, the depth default readable), not the exact one.
- Pins.PinRun.ProcessRepo: for the same case, --only-base without a target, it likewise states only when the repository goes through, not exactly when.
- Pins.PinRun.ProcessDoc: its sufficient condition asks every repository to be accepted against both values `all_commits` can hold for it, and its converse names one of the two without saying which, since that depends on earlier entries of the same name.
- Pins.PinRun.ProcessDoc: the main branch of each entry is a ghost result that ProcessDoc does not tie back to the entry's main line. ProcessRepo does tie it, through SplitTokens and MainRefOf. ProcessDoc leaves it out because, without a target, the history it is read against is the `all_commits` left by earlier entries of the same name.

Index repair (`fix-indexes.py`):
- Logging and the warnings (117-130) are out.
- The catalogue queries are inputs.
- Postgres's own normalisation of `indexdef` text is not modelled. Definitions are compared as the strings the model generates.
- Python's `True == 1` in the attribute checks is not modelled: the attribute is a datatype.
- `_rel` relation-table indexes (a TODO in the source) are not modelled.
