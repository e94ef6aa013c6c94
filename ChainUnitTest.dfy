/**
 * The four scenarios of the chain's unit test, each a client of the chain
 * that builds it afresh, adds scripted preprocessors and processes it once.
 */
module ChainUnitTest {
  import opened Preprocessors
  import opened Chain

  /** An empty chain processes successfully and invokes nothing. */
  method EmptyChainShouldDoNothing() returns (r: Result, calls: seq<string>)
    ensures r == Succeeded && calls == []
  {
    var chain := new PreprocessingChain();
    r, calls := chain.Process();
  }

  /** Three accepting preprocessors are all invoked, in the order they were added. */
  method ChainShouldCallPreprocessorsInOrder() returns (r: Result, calls: seq<string>)
    ensures r == Succeeded && calls == ["one", "two", "three"]
  {
    var chain := new PreprocessingChain();
    chain.Add(MockPreprocessor("one", true));
    chain.Add(MockPreprocessor("two", true));
    chain.Add(MockPreprocessor("three", true));
    r, calls := chain.Process();
  }

  /** The second preprocessor returns false: the chain returns false and "three" never runs. */
  method ChainShouldStopAtFirstFailure() returns (r: Result, calls: seq<string>)
    ensures r == Rejected && calls == ["one", "two"]
  {
    var chain := new PreprocessingChain();
    chain.Add(MockPreprocessor("one", true));
    chain.Add(MockPreprocessor("two", false));
    chain.Add(MockPreprocessor("three", true));
    r, calls := chain.Process();
  }

  /**
   * A preprocessor throws the exception identified by exception: process does
   * not return normally, and the very same exception escapes from it.
   */
  method ChainShouldThrowRuntimeExceptions(exception: nat) returns (r: Result, calls: seq<string>)
    ensures r == Faulted(exception)
    ensures r != Rejected && r != Succeeded
    ensures calls == []
  {
    var chain := new PreprocessingChain();
    chain.Add(Step("preprocessor", Throw(exception)));
    r, calls := chain.Process();
  }

  /**
   * A chain is not consumed by processing it: processing it a second time
   * gives the same result and the same log, and when every preprocessor
   * accepts both calls return true with the full log in insertion order.
   */
  method ChainCanBeProcessedAgain(chain: PreprocessingChain)
    returns (first: Result, firstCalls: seq<string>, second: Result, secondCalls: seq<string>)
    ensures first == second && firstCalls == secondCalls
    ensures (forall i :: 0 <= i < |chain.steps| ==> chain.steps[i].outcome == Accept) ==>
              first == Succeeded && firstCalls == Names(chain.steps)
  {
    first, firstCalls := chain.Process();
    second, secondCalls := chain.Process();
    AllAcceptIsSuccess(chain.steps);
  }
}
