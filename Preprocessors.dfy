/**
 * Preprocessors and the meaning of running a chain of them.
 *
 * A preprocessor is modelled by its scripted behaviour: the name it records in
 * the shared call log when it is invoked, and the outcome of its invocation
 * (it succeeds, it rejects the target, or it throws a runtime exception,
 * identified by a number standing for the exception object's identity).
 *
 * Running a chain is specified twice, independently: declaratively through
 * the position of the first step that does not accept (FirstNonAccept and
 * Expected), and operationally, one step at a time (Run). RunAgrees proves the
 * two equal; the remaining lemmas state the chain's promises about them.
 */
module Preprocessors {

  /** What one invocation of a preprocessor does. */
  datatype Outcome =
    | Accept            // returns true: continue with the next preprocessor
    | Reject            // returns false: the target must not proceed
    | Throw(exId: nat)  // throws the runtime exception with identity exId

  /** A preprocessor, as the unit tests script it. */
  datatype Step = Step(name: string, outcome: Outcome)

  /**
   * The three ways a call to process ends: it returns true, it returns false,
   * or the exception exId escapes from it.
   */
  datatype Result = Succeeded | Rejected | Faulted(exId: nat)

  /** A whole run of process: how it ended and the names logged during it. */
  datatype Execution = Execution(result: Result, calls: seq<string>)

  /** The scripted preprocessor of the unit tests: it logs its name, then answers. */
  function MockPreprocessor(name: string, successful: bool): (s: Step)
    ensures s.name == name
    ensures s.outcome == Accept <==> successful
    ensures s.outcome == Reject <==> !successful
    ensures Logged(s) == [name]
  {
    Step(name, if successful then Accept else Reject)
  }

  /** The names of the steps, in chain order. */
  function Names(steps: seq<Step>): (names: seq<string>)
    ensures |names| == |steps|
    ensures forall i :: 0 <= i < |steps| ==> names[i] == steps[i].name
  {
    if steps == [] then [] else [steps[0].name] + Names(steps[1..])
  }

  /**
   * What an invocation of the step adds to the call log: a step that answers
   * logs its name first; a step that throws logs nothing.
   */
  function Logged(s: Step): (log: seq<string>)
    ensures |log| <= 1
    ensures log == [] <==> s.outcome.Throw?
    ensures forall i :: 0 <= i < |log| ==> log[i] == s.name
  {
    if s.outcome.Throw? then [] else [s.name]
  }

  /** How process ends when the step with outcome o is the first not to accept. */
  function Ending(o: Outcome): Result
  {
    match o
    case Accept => Succeeded
    case Reject => Rejected
    case Throw(e) => Faulted(e)
  }

  /**
   * The position of the first step that does not accept, or |steps| when
   * every step accepts.
   */
  function FirstNonAccept(steps: seq<Step>): (k: nat)
    ensures k <= |steps|
    ensures forall i :: 0 <= i < k ==> steps[i].outcome == Accept
    ensures k < |steps| ==> steps[k].outcome != Accept
  {
    if steps == [] then 0
    else if steps[0].outcome == Accept then 1 + FirstNonAccept(steps[1..])
    else 0
  }

  /**
   * The specified run: the steps before the first non-accepting one are
   * invoked in order and all log their names; that step, if any, is invoked,
   * logs what it logs, and decides the result; no later step is invoked.
   */
  function Expected(steps: seq<Step>): Execution
  {
    var k := FirstNonAccept(steps);
    if k == |steps| then Execution(Succeeded, Names(steps))
    else Execution(Ending(steps[k].outcome), Names(steps[..k]) + Logged(steps[k]))
  }

  /** The reference run, one step at a time. */
  function Run(steps: seq<Step>): Execution
  {
    if steps == [] then Execution(Succeeded, [])
    else
      match steps[0].outcome
      case Accept =>
        var rest := Run(steps[1..]);
        Execution(rest.result, [steps[0].name] + rest.calls)
      case Reject => Execution(Rejected, [steps[0].name])
      case Throw(e) => Execution(Faulted(e), [])
  }

  /** Any position k at which all earlier steps accept and step k does not is the first one. */
  lemma FirstNonAcceptAt(steps: seq<Step>, k: nat)
    requires k <= |steps|
    requires forall i :: 0 <= i < k ==> steps[i].outcome == Accept
    requires k < |steps| ==> steps[k].outcome != Accept
    ensures FirstNonAccept(steps) == k
  {
  }

  /** Adding a step to a chain appends its name and leaves the earlier names as they were. */
  lemma NamesOfAppend(steps: seq<Step>, s: Step)
    ensures Names(steps + [s]) == Names(steps) + [s.name]
  {
  }

  /** The step-by-step run is exactly the specified run. */
  lemma {:induction false} RunAgrees(steps: seq<Step>)
    ensures Run(steps) == Expected(steps)
  {
    if steps != [] {
      var k := FirstNonAccept(steps);
      if steps[0].outcome == Accept {
        var tail := steps[1..];
        RunAgrees(tail);
        FirstNonAcceptAt(tail, k - 1);
        if k < |steps| {
          assert steps[..k] == [steps[0]] + tail[..k - 1];
          assert Names(steps[..k]) == [steps[0].name] + Names(tail[..k - 1]);
        }
      } else {
        assert steps[..0] == [];
      }
    }
  }

  /**
   * Running a chain built by appending b after a: when a succeeds, b runs
   * next and its log follows a's; otherwise b is never invoked.
   */
  lemma {:induction false} RunOfConcat(a: seq<Step>, b: seq<Step>)
    ensures Run(a + b) ==
      if Run(a).result == Succeeded
      then Execution(Run(b).result, Run(a).calls + Run(b).calls)
      else Run(a)
  {
    if a == [] {
      assert a + b == b;
    } else {
      assert (a + b)[0] == a[0];
      assert (a + b)[1..] == a[1..] + b;
      if a[0].outcome == Accept {
        RunOfConcat(a[1..], b);
      }
    }
  }

  /**
   * Empty-chain identity and in-order execution: process ends with success
   * exactly when every step accepts, and then every step is invoked once, in
   * the order of the chain.
   */
  lemma AllAcceptIsSuccess(steps: seq<Step>)
    ensures Expected(steps).result == Succeeded <==>
            forall i :: 0 <= i < |steps| ==> steps[i].outcome == Accept
    ensures Expected(steps).result == Succeeded ==> Expected(steps).calls == Names(steps)
  {
  }

  /**
   * Stop at the first failure: when step k is the first that returns false,
   * process returns false and the log holds exactly the names of steps 0..k.
   */
  lemma RejectAt(steps: seq<Step>, k: nat)
    requires k < |steps|
    requires forall i :: 0 <= i < k ==> steps[i].outcome == Accept
    requires steps[k].outcome == Reject
    ensures Expected(steps) == Execution(Rejected, Names(steps[..k + 1]))
  {
  }

  /**
   * Exceptions propagate: when step k is the first not to accept and it throws
   * exception e, process ends with that same exception, not with a rejection
   * nor with success, and the log holds only the names of steps before k.
   */
  lemma ThrowAt(steps: seq<Step>, k: nat, e: nat)
    requires k < |steps|
    requires forall i :: 0 <= i < k ==> steps[i].outcome == Accept
    requires steps[k].outcome == Throw(e)
    ensures Expected(steps) == Execution(Faulted(e), Names(steps[..k]))
    ensures Expected(steps).result != Rejected && Expected(steps).result != Succeeded
  {
  }

  /**
   * The two failure channels never mix: process returns false exactly when the
   * first non-accepting step rejects, and ends with exception e exactly when
   * the first non-accepting step throws e.
   */
  lemma EndingChannels(steps: seq<Step>, e: nat)
    ensures Expected(steps).result == Rejected <==>
            FirstNonAccept(steps) < |steps| && steps[FirstNonAccept(steps)].outcome == Reject
    ensures Expected(steps).result == Faulted(e) <==>
            FirstNonAccept(steps) < |steps| && steps[FirstNonAccept(steps)].outcome == Throw(e)
  {
  }

  /**
   * Each preprocessor is invoked at most once per call and in chain order:
   * the call log is a prefix of the chain's names.
   */
  lemma CallsArePrefixOfNames(steps: seq<Step>)
    ensures Expected(steps).calls <= Names(steps)
  {
  }

  /**
   * No preprocessor after the first one that does not accept is ever invoked:
   * whatever steps follow it, the run is the same.
   */
  lemma LaterStepsNeverRun(steps: seq<Step>, later: seq<Step>)
    requires FirstNonAccept(steps) < |steps|
    ensures Expected(steps + later) == Expected(steps)
  {
    var k := FirstNonAccept(steps);
    FirstNonAcceptAt(steps + later, k);
    assert (steps + later)[..k] == steps[..k];
  }
}
