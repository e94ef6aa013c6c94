/**
 * The preprocessing chain: an ordered, append-only list of preprocessors that
 * process runs in insertion order, stopping at the first one that returns
 * false and letting any runtime exception escape unchanged.
 */
module Chain {
  import opened Preprocessors

  class PreprocessingChain {
    /** The preprocessors, in the order they were added. */
    var steps: seq<Step>

    /** A new chain holds no preprocessor. */
    constructor ()
      ensures steps == []
    {
      steps := [];
    }

    /** Appends p at the end; the preprocessors already there keep their order. */
    method Add(p: Step)
      modifies this
      ensures steps == old(steps) + [p]
      ensures Names(steps) == Names(old(steps)) + [p.name]
    {
      NamesOfAppend(steps, p);
      steps := steps + [p];
    }

    /**
     * Invokes the preprocessors in order until one does not accept. Returns
     * how the call ended and the names the invoked preprocessors logged. The
     * chain itself is left unchanged, so it can be processed again.
     */
    method Process() returns (r: Result, calls: seq<string>)
      ensures Execution(r, calls) == Expected(steps)
    {
      calls := [];
      var i := 0;
      while i < |steps|
        invariant 0 <= i <= |steps|
        invariant forall j :: 0 <= j < i ==> steps[j].outcome == Accept
        invariant calls == Names(steps[..i])
      {
        var p := steps[i];
        match p.outcome {
          case Accept =>
            assert steps[..i + 1] == steps[..i] + [p];
            NamesOfAppend(steps[..i], p);
            calls := calls + [p.name];
            i := i + 1;
          case Reject =>
            FirstNonAcceptAt(steps, i);
            calls := calls + [p.name];
            return Rejected, calls;
          case Throw(e) =>
            FirstNonAcceptAt(steps, i);
            return Faulted(e), calls;
        }
      }
      FirstNonAcceptAt(steps, i);
      assert steps[..i] == steps;
      r := Succeeded;
    }
  }
}
