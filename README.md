# Preprocessing chain

A model of the preprocessing chain of the `jee-validation` library. Before
validation proper, a target object is handed to a `PreprocessingChain`: an
ordered, append-only list of preprocessors. `add` appends a preprocessor;
`process(target, config)` invokes each one in insertion order and stops at the
first that returns `false`. A runtime exception thrown by a preprocessor is not
caught: the same exception instance escapes from `process`, and it is never
turned into a `false` result.

The chain's Java implementation is not among the available sources. Its
behaviour is taken from its unit test,
`src/test/java/io/probedock/jee/validation/preprocessing/PreprocessingChainUnitTest.java`,
whose four scenarios and whose scripted mock preprocessors fix the contract.

- `Preprocessors.dfy` holds the values. A preprocessor is a `Step`: a name plus a
  scripted `Outcome`, which is `Accept`, `Reject` or `Throw(exId)`. The number
  `exId` stands for the identity of the exception object. A call to `process`
  ends in a `Result`: `Succeeded` (returns true), `Rejected` (returns false) or
  `Faulted(exId)` (the exception escapes). The two failure channels are distinct
  constructors. Running a chain is specified twice. `Expected` states it
  through `FirstNonAccept`, the position of the first step that does not
  accept. `Run` is a step-by-step reference. The lemmas prove the two equal and
  state the chain's promises.
- `Chain.dfy` holds the class `PreprocessingChain`. Its `steps` field is a
  sequence. `Add` appends to it. `Process` walks it with a loop and returns the
  result together with the call log. `Process` is proved against `Expected`.
  It modifies nothing, so the chain can be processed again and gives the same
  answer.
- `ChainUnitTest.dfy` replays the four unit-test scenarios as client methods of
  the class, and adds one client that processes the same chain twice.

The call log follows the test's mocks. A named mock records its name and then
answers true or false (lines 78-88). The throwing mock (lines 65-67) records
nothing. So a `Reject` step logs its own name, and a `Throw` step logs nothing.

## Model

| member | source | states |
|---|---|---|
| `Preprocessors.FirstNonAccept` | src/test/java/io/probedock/jee/validation/preprocessing/PreprocessingChainUnitTest.java:53-59 | the position it returns is within the chain; every earlier preprocessor accepts; the preprocessor there, if any, does not accept |
| `Preprocessors.MockPreprocessor` | src/test/java/io/probedock/jee/validation/preprocessing/PreprocessingChainUnitTest.java:78-88 | the scripted preprocessor is a step with the given name that accepts when `successful` and rejects otherwise, never throws, and logs exactly its name when invoked |
| `Preprocessors.Logged` | src/test/java/io/probedock/jee/validation/preprocessing/PreprocessingChainUnitTest.java:65-83 | the call-log convention: an answering step logs its own name, once; a throwing step logs nothing |
| `Preprocessors.Names` | src/test/java/io/probedock/jee/validation/preprocessing/PreprocessingChainUnitTest.java:44-48 | the names, one per preprocessor, in chain order |
| `Preprocessors.NamesOfAppend` | src/test/java/io/probedock/jee/validation/preprocessing/PreprocessingChainUnitTest.java:44-48 | appending a preprocessor appends its name and keeps the earlier names in their order |
| `Preprocessors.RunAgrees` | src/test/java/io/probedock/jee/validation/preprocessing/PreprocessingChainUnitTest.java:37-76 | the step-by-step run (invoke, continue on true, stop on false, propagate a throw) equals the run specified through the first non-accepting position, on every chain |
| `Preprocessors.RunOfConcat` | src/test/java/io/probedock/jee/validation/preprocessing/PreprocessingChainUnitTest.java:43-59 | running a chain a followed by b: if a succeeds, b runs next and its log follows a's; otherwise the run is a's and nothing of b is invoked |
| `Preprocessors.AllAcceptIsSuccess` | src/test/java/io/probedock/jee/validation/preprocessing/PreprocessingChainUnitTest.java:37-49 | process returns true exactly when every preprocessor accepts (so the empty chain succeeds), and then the log is all the names in insertion order |
| `Preprocessors.RejectAt` | src/test/java/io/probedock/jee/validation/preprocessing/PreprocessingChainUnitTest.java:53-59 | when preprocessor k is the first to return false, process returns false and the log is exactly the names at positions 0..k |
| `Preprocessors.ThrowAt` | src/test/java/io/probedock/jee/validation/preprocessing/PreprocessingChainUnitTest.java:63-76 | when preprocessor k is the first not to accept and it throws e, process ends with that same e, neither true nor false, and only the names before k are logged |
| `Preprocessors.EndingChannels` | src/test/java/io/probedock/jee/validation/preprocessing/PreprocessingChainUnitTest.java:70-75 | process returns false if and only if the first non-accepting preprocessor rejects, and ends with exception e if and only if it throws e |
| `Preprocessors.CallsArePrefixOfNames` | src/test/java/io/probedock/jee/validation/preprocessing/PreprocessingChainUnitTest.java:43-58 | the call log is a prefix of the chain's names: each preprocessor is invoked at most once, in order |
| `Preprocessors.LaterStepsNeverRun` | src/test/java/io/probedock/jee/validation/preprocessing/PreprocessingChainUnitTest.java:54-58 | once some preprocessor does not accept, appending further preprocessors changes neither the result nor the log |
| `Chain.PreprocessingChain.constructor` | src/test/java/io/probedock/jee/validation/preprocessing/PreprocessingChainUnitTest.java:32 | a new chain is empty |
| `Chain.PreprocessingChain.Add` | src/test/java/io/probedock/jee/validation/preprocessing/PreprocessingChainUnitTest.java:44-46 | the preprocessor is appended at the end; the earlier ones and their names keep their order |
| `Chain.PreprocessingChain.Process` | src/test/java/io/probedock/jee/validation/preprocessing/PreprocessingChainUnitTest.java:37-76 | the loop's result and call log are the specified run of the chain, and the chain is left unchanged |
| `ChainUnitTest.EmptyChainShouldDoNothing` | src/test/java/io/probedock/jee/validation/preprocessing/PreprocessingChainUnitTest.java:37-39 | an empty chain returns true and logs nothing |
| `ChainUnitTest.ChainShouldCallPreprocessorsInOrder` | src/test/java/io/probedock/jee/validation/preprocessing/PreprocessingChainUnitTest.java:43-48 | one, two, three all accepting: true, log `["one", "two", "three"]` |
| `ChainUnitTest.ChainShouldStopAtFirstFailure` | src/test/java/io/probedock/jee/validation/preprocessing/PreprocessingChainUnitTest.java:53-58 | two rejects: false, log `["one", "two"]`, three never invoked |
| `ChainUnitTest.ChainCanBeProcessedAgain` | src/test/java/io/probedock/jee/validation/preprocessing/PreprocessingChainUnitTest.java:43-48 | processing the same chain twice gives the same result and log both times; for an all-accepting chain both calls return true with every name in insertion order |
| `ChainUnitTest.ChainShouldThrowRuntimeExceptions` | src/test/java/io/probedock/jee/validation/preprocessing/PreprocessingChainUnitTest.java:63-75 | a throwing preprocessor: process does not return normally, and the same exception escapes |

## Left out

- The target object and the `IPreprocessingConfig` argument of `process`: the chain passes both through without reading them, and the scripted preprocessors ignore them. `Process` therefore takes no arguments. What real preprocessors do to the target is not modelled.
- `getValidationGroups()` of the configuration: it is only read by preprocessors, never by the chain.
- Exceptions are modelled as the result `Faulted(exId)`. Identity of the exception instance is modelled as equality of `exId`. Java's exception machinery and exception types are not modelled.
- `ApiErrorsException`: it appears only in `throws` clauses; the chain never constructs it.
- Mockito stubbing and JUnit assertions are replaced by scripted `Step` values, a returned call log and `ensures` clauses.
- ProbeDock annotations: reporting metadata with no behaviour.
- Reuse of a chain with stateful preprocessors: each `Step` has one fixed outcome, so processing a chain again always gives the same answer. Real preprocessors may keep internal state, or depend on a target that earlier steps changed, so a second `process` call can give a different answer; the model does not capture that.
- Concurrent use of one chain from several threads: the chain is single-threaded, and no locking policy is defined for it.
