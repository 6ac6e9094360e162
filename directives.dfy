/** The directives a migration script may carry in its leading comment lines:
    `X-Supports: <versions>` limits the versions it runs at, and
    `X-Modules: <modules>` requires modules to be installed.  The marker of a
    comment is "--" for SQL scripts and "#" for every other script. */
module Directives {
  import opened PyStr

  function CommentPrefix(filename: string): string {
    if EndsWith(filename, ".sql") then "--" else "#"
  }

  /** A line belongs to the leading comment block when, stripped, it starts
      with the marker. */
  predicate IsComment(line: string, prefix: string) {
    StartsWith(Strip(line), prefix)
  }

  /** The text of a comment line after its marker, stripped. */
  function CommentText(line: string, prefix: string): string
    requires IsComment(line, prefix)
  {
    Strip(Strip(line)[|prefix|..])
  }

  function StripEach(ws: seq<string>): (r: seq<string>)
    ensures |r| == |ws| && forall i :: 0 <= i < |ws| ==> r[i] == Strip(ws[i])
  {
    if ws == [] then [] else [Strip(ws[0])] + StripEach(ws[1..])
  }

  /** The versions listed after `X-Supports:`. */
  function SupportedVersions(comment: string): seq<string>
    requires StartsWith(comment, "X-Supports:")
  {
    StripEach(Words(comment[11..]))
  }

  /** The modules listed after `X-Modules:`. */
  function RequiredModules(comment: string): seq<string>
    requires StartsWith(comment, "X-Modules:")
  {
    Words(comment[10..])
  }

  /** A comment lets the script run at `version` with `installed` modules. */
  predicate DirectiveHolds(comment: string, version: string, installed: set<string>) {
    if StartsWith(comment, "X-Supports:") then version in SupportedVersions(comment)
    else if StartsWith(comment, "X-Modules:") then forall m :: m in RequiredModules(comment) ==> m in installed
    else true
  }

  /** `check_script_support` on the lines of a script. */
  function Supported(lines: seq<string>, prefix: string, version: string, installed: set<string>): bool {
    if lines == [] || !IsComment(lines[0], prefix) then true
    else if !DirectiveHolds(CommentText(lines[0], prefix), version, installed) then false
    else Supported(lines[1..], prefix, version, installed)
  }

  /** `check_script_support(filename, version)` for a readable script. */
  function CheckScriptSupport(filename: string, lines: seq<string>, version: string, installed: set<string>): bool {
    Supported(lines, CommentPrefix(filename), version, installed)
  }

  /** The number of leading lines that are comments. */
  function LeadingComments(lines: seq<string>, prefix: string): (n: nat)
    ensures n <= |lines|
    ensures forall i :: 0 <= i < n ==> IsComment(lines[i], prefix)
    ensures n < |lines| ==> !IsComment(lines[n], prefix)
  {
    if lines == [] || !IsComment(lines[0], prefix) then 0
    else 1 + LeadingComments(lines[1..], prefix)
  }

  /** A script is supported exactly when every directive of its leading
      comment block holds. */
  lemma {:induction false} SupportedIff(lines: seq<string>, prefix: string, version: string, installed: set<string>)
    ensures var n := LeadingComments(lines, prefix);
            Supported(lines, prefix, version, installed)
            <==> forall i :: 0 <= i < n ==> DirectiveHolds(CommentText(lines[i], prefix), version, installed)
  {
    if lines != [] && IsComment(lines[0], prefix) {
      SupportedIff(lines[1..], prefix, version, installed);
      var n := LeadingComments(lines, prefix);
      assert forall i :: 1 <= i < n ==> lines[1..][i - 1] == lines[i];
      if Supported(lines, prefix, version, installed) {
        forall i | 0 <= i < n ensures DirectiveHolds(CommentText(lines[i], prefix), version, installed) {
          if i > 0 {
            assert lines[i] == lines[1..][i - 1];
          }
        }
      } else if DirectiveHolds(CommentText(lines[0], prefix), version, installed) {
        var i :| 0 <= i < n - 1 && !DirectiveHolds(CommentText(lines[1..][i], prefix), version, installed);
        assert lines[1..][i] == lines[i + 1];
      }
    }
  }

  /** Scanning stops at the first line that is not a comment: whatever
      follows it has no effect. */
  lemma {:induction false} SupportedStopsAtCode(lines: seq<string>, rest: seq<string>, prefix: string, version: string, installed: set<string>)
    requires lines != [] && !IsComment(lines[|lines| - 1], prefix)
    ensures Supported(lines + rest, prefix, version, installed) == Supported(lines, prefix, version, installed)
  {
    if |lines| > 1 && IsComment(lines[0], prefix) {
      assert (lines + rest)[1..] == lines[1..] + rest;
      SupportedStopsAtCode(lines[1..], rest, prefix, version, installed);
    }
  }

  /** An `X-Supports:` line of the leading block that does not list the
      version, or an `X-Modules:` line naming a module that is not
      installed, makes the script unsupported. */
  lemma UnmetDirective(lines: seq<string>, prefix: string, version: string, installed: set<string>, i: nat)
    requires i < LeadingComments(lines, prefix)
    requires var c := CommentText(lines[i], prefix);
             || (StartsWith(c, "X-Supports:") && version !in SupportedVersions(c))
             || (!StartsWith(c, "X-Supports:") && StartsWith(c, "X-Modules:")
                 && exists m :: m in RequiredModules(c) && m !in installed)
    ensures !Supported(lines, prefix, version, installed)
  {
    SupportedIff(lines, prefix, version, installed);
  }
}
