/** The attempt loop that drives the official enterprise upgrade script.  The
    loop reads the script's log file line by line (the file handle is kept
    across attempts), answers the resume prompt, and polls the process when
    no new line is available.  What the loop observes is given as a finite
    stream: a log line, or, when no line is available, the status of the
    current process. */
module Enterprise {
  import opened Wrappers
  import opened PyStr

  /** At most this many processes are launched. */
  const MaxAttempts: nat := 10

  const CommunicationError: string := "Error: Upgrade server communication error"
  const ResumePrompt: string := "This upgrade request seems to have been interrupted. Do you want to resume it? [Y/n]"
  const TimedOut: string := "<urlopen error timed out>"

  /** The state of the process when polled: still running, or exited with a
      code, the last line it wrote to stderr (if any) and whether the
      upgraded "-enterprise" database accepts a connection. */
  datatype Status = Running | Exited(code: int, lastStderr: Option<string>, connectable: bool)

  datatype Observation = LogLine(text: string) | NoLine(status: Status)

  datatype Failure =
    | TooManyAttempts     // the eleventh launch is refused
    | ExitCodeOne         // exit code 1 without a timeout on stderr
    | NoStderr            // exit code 1 with nothing on stderr: decoding None raises
    | DatabaseMissing     // the process ended but the database is not there

  datatype Outcome =
    | Done(attempts: nat)
    | Failed(why: Failure)
    | Pending(attempts: nat)   // the observations ran out before the loop ended

  /** The loop variables: processes launched so far, the next answer to the
      prompt, and the answers written so far. */
  datatype LoopState = LoopState(attempts: nat, answer: string, written: seq<string>)

  function InitialAnswer(dontResume: bool): string {
    if dontResume then "n" else "Y"
  }

  /** A line that makes the loop kill the process and start another one. */
  predicate RetryLine(t: string) {
    Contains(t, CommunicationError)
  }

  /** The loop as a state machine over the observations.  `running` tells
      whether a process is currently launched. */
  function Run(obs: seq<Observation>, st: LoopState, running: bool): (r: (Outcome, seq<string>))
    decreases |obs|, if running then 0 else 1
  {
    if !running then
      if st.attempts == MaxAttempts then (Failed(TooManyAttempts), st.written)
      else Run(obs, st.(attempts := st.attempts + 1), true)
    else if obs == [] then (Pending(st.attempts), st.written)
    else match obs[0]
      case LogLine(t) =>
        if RetryLine(t) then Run(obs[1..], st, false)
        else if Contains(t, ResumePrompt) then
          Run(obs[1..], st.(answer := "Y", written := st.written + [st.answer]), true)
        else Run(obs[1..], st, true)
      case NoLine(Running) => Run(obs[1..], st, true)
      case NoLine(Exited(code, last, connectable)) =>
        if code == 1 then
          if last.None? then (Failed(NoStderr), st.written)
          else if Contains(last.value, TimedOut) then Run(obs[1..], st, false)
          else (Failed(ExitCodeOne), st.written)
        else if connectable then (Done(st.attempts), st.written)
        else (Failed(DatabaseMissing), st.written)
  }

  /** The outcome and the prompt answers of a whole run of the loop. */
  function Attempts(obs: seq<Observation>, dontResume: bool): (Outcome, seq<string>) {
    Run(obs, LoopState(0, InitialAnswer(dontResume), []), false)
  }

  /** The loop itself: an outer loop launching processes and an inner loop
      reading the log. */
  method RunAttempts(obs: seq<Observation>, dontResume: bool) returns (outcome: Outcome, written: seq<string>)
    ensures (outcome, written) == Attempts(obs, dontResume)
  {
    var answer := InitialAnswer(dontResume);
    var done := false;
    var attempts := 0;
    var k := 0;
    outcome := Pending(0);
    written := [];
    while !done
      invariant 0 <= k <= |obs| && attempts <= MaxAttempts
      invariant !done ==> Run(obs[k..], LoopState(attempts, answer, written), false) == Attempts(obs, dontResume)
      invariant done ==> outcome == Done(attempts) && (outcome, written) == Attempts(obs, dontResume)
      decreases MaxAttempts - attempts, if done then 0 else 1
    {
      if attempts == MaxAttempts {
        return Failed(TooManyAttempts), written;
      }
      attempts := attempts + 1;
      var retry := false;
      while !retry && !done
        invariant 0 <= k <= |obs|
        invariant !retry && !done ==> Run(obs[k..], LoopState(attempts, answer, written), true) == Attempts(obs, dontResume)
        invariant retry ==> !done && Run(obs[k..], LoopState(attempts, answer, written), false) == Attempts(obs, dontResume)
        invariant done ==> outcome == Done(attempts) && (outcome, written) == Attempts(obs, dontResume)
        decreases |obs| - k, if retry || done then 0 else 1
      {
        if k == |obs| {
          return Pending(attempts), written;
        }
        assert obs[k..][0] == obs[k] && obs[k..][1..] == obs[k + 1..];
        match obs[k] {
          case LogLine(t) =>
            if RetryLine(t) {
              retry := true;
            } else if Contains(t, ResumePrompt) {
              written := written + [answer];
              answer := "Y";
            }
          case NoLine(Running) =>
          case NoLine(Exited(code, last, connectable)) =>
            if code == 1 {
              if last.None? {
                return Failed(NoStderr), written;
              } else if Contains(last.value, TimedOut) {
                retry := true;
              } else {
                return Failed(ExitCodeOne), written;
              }
            } else if connectable {
              outcome := Done(attempts);
              done := true;
            } else {
              return Failed(DatabaseMissing), written;
            }
        }
        k := k + 1;
      }
    }
  }

  /** Every outcome counts at most ten launched processes. */
  lemma {:induction false} RunAttemptsBounded(obs: seq<Observation>, st: LoopState, running: bool)
    requires st.attempts <= MaxAttempts
    requires running ==> st.attempts >= 1
    ensures var r := Run(obs, st, running).0;
            (r.Done? ==> 1 <= r.attempts <= MaxAttempts) && (r.Pending? ==> 1 <= r.attempts <= MaxAttempts)
    decreases |obs|, if running then 0 else 1
  {
    if !running {
      if st.attempts < MaxAttempts {
        RunAttemptsBounded(obs, st.(attempts := st.attempts + 1), true);
      }
    } else if obs != [] {
      match obs[0]
      case LogLine(t) =>
        if RetryLine(t) {
          RunAttemptsBounded(obs[1..], st, false);
        } else if Contains(t, ResumePrompt) {
          RunAttemptsBounded(obs[1..], st.(answer := "Y", written := st.written + [st.answer]), true);
        } else {
          RunAttemptsBounded(obs[1..], st, true);
        }
      case NoLine(Running) => RunAttemptsBounded(obs[1..], st, true);
      case NoLine(Exited(code, last, connectable)) =>
        if code == 1 && last.Some? && Contains(last.value, TimedOut) {
          RunAttemptsBounded(obs[1..], st, false);
        }
    }
  }

  lemma AttemptsBounded(obs: seq<Observation>, dontResume: bool)
    ensures var r := Attempts(obs, dontResume).0;
            (r.Done? ==> 1 <= r.attempts <= MaxAttempts) && (r.Pending? ==> 1 <= r.attempts <= MaxAttempts)
  {
    RunAttemptsBounded(obs, LoopState(0, InitialAnswer(dontResume), []), false);
  }

  /** The answers written so far are "Y" after the first one; the pending
      answer is "Y" once something has been written. */
  predicate AnswersWellFormed(written: seq<string>, answer: string, dontResume: bool) {
    && (forall i :: 0 < i < |written| ==> written[i] == "Y")
    && (|written| > 0 ==> answer == "Y" && written[0] == InitialAnswer(dontResume))
    && (|written| == 0 ==> answer == InitialAnswer(dontResume))
  }

  lemma {:induction false} RunAnswers(obs: seq<Observation>, st: LoopState, running: bool, dontResume: bool)
    requires AnswersWellFormed(st.written, st.answer, dontResume)
    ensures var w := Run(obs, st, running).1;
            && (forall i :: 0 < i < |w| ==> w[i] == "Y")
            && (|w| > 0 ==> w[0] == InitialAnswer(dontResume))
            && (|st.written| > 0 ==> |w| > 0)
    decreases |obs|, if running then 0 else 1
  {
    if !running {
      if st.attempts != MaxAttempts {
        RunAnswers(obs, st.(attempts := st.attempts + 1), true, dontResume);
      }
    } else if obs != [] {
      match obs[0]
      case LogLine(t) =>
        if RetryLine(t) {
          RunAnswers(obs[1..], st, false, dontResume);
        } else if Contains(t, ResumePrompt) {
          var st' := st.(answer := "Y", written := st.written + [st.answer]);
          assert AnswersWellFormed(st'.written, st'.answer, dontResume);
          RunAnswers(obs[1..], st', true, dontResume);
        } else {
          RunAnswers(obs[1..], st, true, dontResume);
        }
      case NoLine(Running) => RunAnswers(obs[1..], st, true, dontResume);
      case NoLine(Exited(code, last, connectable)) =>
        if code == 1 && last.Some? && Contains(last.value, TimedOut) {
          RunAnswers(obs[1..], st, false, dontResume);
        }
    }
  }

  /** The resume prompt is answered "n" at most once, first, and only under
      dont-resume; every other answer is "Y". */
  lemma AttemptsAnswers(obs: seq<Observation>, dontResume: bool)
    ensures var w := Attempts(obs, dontResume).1;
            && (forall i :: 0 < i < |w| ==> w[i] == "Y")
            && (|w| > 0 ==> w[0] == (if dontResume then "n" else "Y"))
  {
    RunAnswers(obs, LoopState(0, InitialAnswer(dontResume), []), false, dontResume);
  }

  /** The loop ends in success only by observing a process that exited with
      a code other than 1 while the upgraded database was connectable. */
  lemma {:induction false} RunDoneWitness(obs: seq<Observation>, st: LoopState, running: bool)
    ensures Run(obs, st, running).0.Done? ==>
              exists k, c, l :: 0 <= k < |obs| && obs[k] == NoLine(Exited(c, l, true)) && c != 1
    decreases |obs|, if running then 0 else 1
  {
    if !running {
      if st.attempts != MaxAttempts {
        RunDoneWitness(obs, st.(attempts := st.attempts + 1), true);
      }
    } else if obs != [] {
      var r := Run(obs, st, running).0;
      match obs[0]
      case LogLine(t) =>
        var st' := if !RetryLine(t) && Contains(t, ResumePrompt)
                   then st.(answer := "Y", written := st.written + [st.answer]) else st;
        RunDoneWitness(obs[1..], st', !RetryLine(t));
        if r.Done? {
          var k, c, l :| 0 <= k < |obs[1..]| && obs[1..][k] == NoLine(Exited(c, l, true)) && c != 1;
          assert obs[k + 1] == NoLine(Exited(c, l, true));
        }
      case NoLine(Running) =>
        RunDoneWitness(obs[1..], st, true);
        if r.Done? {
          var k, c, l :| 0 <= k < |obs[1..]| && obs[1..][k] == NoLine(Exited(c, l, true)) && c != 1;
          assert obs[k + 1] == NoLine(Exited(c, l, true));
        }
      case NoLine(Exited(code, last, connectable)) =>
        if code == 1 && last.Some? && Contains(last.value, TimedOut) {
          RunDoneWitness(obs[1..], st, false);
          if r.Done? {
            var k, c, l :| 0 <= k < |obs[1..]| && obs[1..][k] == NoLine(Exited(c, l, true)) && c != 1;
            assert obs[k + 1] == NoLine(Exited(c, l, true));
          }
        } else if r.Done? {
          assert obs[0] == NoLine(Exited(code, last, true));
        }
    }
  }

  /** Exit code 1 is tested before the database is tried, so it is fatal
      whatever the database looks like: with nothing on stderr decoding
      fails, a timeout on stderr makes the loop start another process, and
      any other last line ends the run. */
  lemma ExitCodeOneRule(obs: seq<Observation>, st: LoopState, last: Option<string>, connectable: bool)
    requires obs != [] && obs[0] == NoLine(Exited(1, last, connectable))
    ensures last.None? ==> Run(obs, st, true) == (Failed(NoStderr), st.written)
    ensures last.Some? && Contains(last.value, TimedOut) ==> Run(obs, st, true) == Run(obs[1..], st, false)
    ensures last.Some? && !Contains(last.value, TimedOut) ==> Run(obs, st, true) == (Failed(ExitCodeOne), st.written)
  {
  }

  /** Any other exit code ends the loop: done when the upgraded database
      accepts a connection, fatal when it does not. */
  lemma OtherExitRule(obs: seq<Observation>, st: LoopState, code: int, last: Option<string>, connectable: bool)
    requires obs != [] && obs[0] == NoLine(Exited(code, last, connectable)) && code != 1
    ensures Run(obs, st, true) == (if connectable then Done(st.attempts) else Failed(DatabaseMissing), st.written)
  {
  }

  /** The communication-error line makes the loop start another process,
      which fails once ten have been launched. */
  lemma CommunicationErrorRetries(obs: seq<Observation>, st: LoopState, t: string)
    requires obs != [] && obs[0] == LogLine(t) && Contains(t, CommunicationError)
    ensures st.attempts == MaxAttempts ==> Run(obs, st, true) == (Failed(TooManyAttempts), st.written)
    ensures st.attempts < MaxAttempts ==> Run(obs, st, true) == Run(obs[1..], st.(attempts := st.attempts + 1), true)
  {
  }
}
