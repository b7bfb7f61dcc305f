/**
 * `execute`: for every suite of the discovered tree, in order, report it
 * started, run each of its scenarios through the scenario-runner helper, and
 * report it finished; each scenario is reported started, then finished.
 *
 * The listener is a class whose event log the notifications append to. The
 * helper is a parameter: a function from a scenario's DTO and its scenario to
 * what the call does (returns, or throws). Because the engine allocates a fresh
 * `ScenarioRunnerData` for each call, the outcome depends on that scenario only.
 *
 * As written, the catch blocks report `finished(failed(e))` and then fall
 * through to the unconditional `finished(successful)`: a scenario whose helper
 * throws is reported finished twice, and a suite is always reported successful
 * because `state` is never reassigned. The model reproduces both.
 */
module Execution {
  import opened ScenarioModel
  import opened ScenarioDescriptors
  import opened SuiteDescriptors
  import opened Blocks
  import Discovery

  datatype TestExecutionResult = Successful | Failed(throwable: Throwable)

  /** The descriptor a notification is about. */
  datatype Node = SuiteNode(suite: SuiteDescriptor) | ScenarioNode(scenario: ScenarioDescriptor)

  datatype Event = Started(node: Node) | Finished(node: Node, result: TestExecutionResult)

  /** What one call of the scenario-runner helper does: return normally, or throw. */
  datatype HelperOutcome = Returned | Threw(throwable: Throwable)

  type ScenarioRunnerHelper = (ScenarioRunnerDTO, ScenarioWithIndex) -> HelperOutcome

  /** The execution listener, reduced to the log of the notifications it received. */
  class EngineExecutionListener {
    var events: seq<Event>

    constructor ()
      ensures events == []
    {
      events := [];
    }

    method ExecutionStarted(node: Node)
      modifies this
      ensures events == old(events) + [Started(node)]
    {
      events := events + [Started(node)];
    }

    method ExecutionFinished(node: Node, result: TestExecutionResult)
      modifies this
      ensures events == old(events) + [Finished(node, result)]
    {
      events := events + [Finished(node, result)];
    }
  }

  // ---------------------------------------------------------------------------
  // The events `execute` emits, as functions of the tree and the helper

  /** The events of one scenario: started; finished as failed if the helper throws; finished as successful. */
  function ScenarioEvents(d: ScenarioDescriptor, run: ScenarioRunnerHelper): seq<Event> {
    var node := ScenarioNode(d);
    [Started(node)]
    + (match run(d.scenarioRunnerDTO, d.scenarioWithIndex)
       case Returned => []
       case Threw(e) => [Finished(node, Failed(e))])
    + [Finished(node, Successful)]
  }

  function ScenarioBlocks(scenarios: seq<ScenarioDescriptor>, run: ScenarioRunnerHelper): (blocks: seq<seq<Event>>)
    ensures |blocks| == |scenarios|
  {
    seq(|scenarios|, j requires 0 <= j < |scenarios| => ScenarioEvents(scenarios[j], run))
  }

  /** The events of one suite: started, its scenarios' events in order, finished as successful. */
  function SuiteEvents(s: SuiteDescriptor, run: ScenarioRunnerHelper): seq<Event> {
    [Started(SuiteNode(s))] + Concat(ScenarioBlocks(s.children, run)) + [Finished(SuiteNode(s), Successful)]
  }

  function SuiteBlocks(suites: seq<SuiteDescriptor>, run: ScenarioRunnerHelper): (blocks: seq<seq<Event>>)
    ensures |blocks| == |suites|
  {
    seq(|suites|, i requires 0 <= i < |suites| => SuiteEvents(suites[i], run))
  }

  /** Everything `execute` reports for the given suites, in order. */
  function ExecutionEvents(suites: seq<SuiteDescriptor>, run: ScenarioRunnerHelper): seq<Event> {
    Concat(SuiteBlocks(suites, run))
  }

  lemma ScenarioBlocksSnoc(scenarios: seq<ScenarioDescriptor>, j: nat, run: ScenarioRunnerHelper)
    requires j < |scenarios|
    ensures Concat(ScenarioBlocks(scenarios[..j + 1], run)) == Concat(ScenarioBlocks(scenarios[..j], run)) + ScenarioEvents(scenarios[j], run)
  {
    assert ScenarioBlocks(scenarios[..j + 1], run) == ScenarioBlocks(scenarios[..j], run) + [ScenarioEvents(scenarios[j], run)];
    ConcatSnoc(ScenarioBlocks(scenarios[..j], run), ScenarioEvents(scenarios[j], run));
  }

  lemma ExecutionEventsSnoc(suites: seq<SuiteDescriptor>, i: nat, run: ScenarioRunnerHelper)
    requires i < |suites|
    ensures ExecutionEvents(suites[..i + 1], run) == ExecutionEvents(suites[..i], run) + SuiteEvents(suites[i], run)
  {
    assert SuiteBlocks(suites[..i + 1], run) == SuiteBlocks(suites[..i], run) + [SuiteEvents(suites[i], run)];
    ConcatSnoc(SuiteBlocks(suites[..i], run), SuiteEvents(suites[i], run));
  }

  // ---------------------------------------------------------------------------
  // execute

  /**
   * The body of execute's inner loop: report the scenario started, call the
   * helper, report it finished as failed if the helper threw, and then, in
   * every case, report it finished as successful.
   */
  method RunScenario(listener: EngineExecutionListener, testDescriptor: ScenarioDescriptor, run: ScenarioRunnerHelper)
    modifies listener
    ensures listener.events == old(listener.events) + ScenarioEvents(testDescriptor, run)
  {
    listener.ExecutionStarted(ScenarioNode(testDescriptor));
    var outcome := run(testDescriptor.scenarioRunnerDTO, testDescriptor.scenarioWithIndex);
    match outcome {
      case Threw(e) =>
        listener.ExecutionFinished(ScenarioNode(testDescriptor), Failed(e));
      case Returned =>
    }
    listener.ExecutionFinished(ScenarioNode(testDescriptor), Successful);
  }

  /** The body of execute's outer loop: one suite, bracketing its scenarios, in order. */
  method RunSuite(listener: EngineExecutionListener, testSuiteDescriptor: SuiteDescriptor, run: ScenarioRunnerHelper)
    modifies listener
    ensures listener.events == old(listener.events) + SuiteEvents(testSuiteDescriptor, run)
  {
    listener.ExecutionStarted(SuiteNode(testSuiteDescriptor));
    var started := listener.events;
    var state := Successful;
    var children := testSuiteDescriptor.children;
    var j := 0;
    while j < |children|
      invariant 0 <= j <= |children|
      invariant listener.events == started + Concat(ScenarioBlocks(children[..j], run))
    {
      RunScenario(listener, children[j], run);
      ScenarioBlocksSnoc(children, j, run);
      j := j + 1;
    }
    assert children[..j] == children;
    listener.ExecutionFinished(SuiteNode(testSuiteDescriptor), state);
  }

  /** execute: appends to the listener's log exactly the events ExecutionEvents describes. */
  method Execute(root: Discovery.EngineDescriptor, listener: EngineExecutionListener, run: ScenarioRunnerHelper)
    modifies listener
    ensures listener.events == old(listener.events) + ExecutionEvents(root.children, run)
  {
    var suites := root.children;
    var i := 0;
    while i < |suites|
      invariant 0 <= i <= |suites|
      invariant listener.events == old(listener.events) + ExecutionEvents(suites[..i], run)
    {
      RunSuite(listener, suites[i], run);
      ExecutionEventsSnoc(suites, i, run);
      i := i + 1;
    }
    assert suites[..i] == suites;
  }

  // ---------------------------------------------------------------------------
  // What the log guarantees

  /**
   * One scenario's events: started first, then only finished notifications of
   * that scenario, the last one successful; a failed one exactly when the helper
   * throws, carrying what it threw.
   */
  lemma ScenarioProtocol(d: ScenarioDescriptor, run: ScenarioRunnerHelper)
    ensures var b := ScenarioEvents(d, run);
            && |b| == (if run(d.scenarioRunnerDTO, d.scenarioWithIndex).Threw? then 3 else 2)
            && b[0] == Started(ScenarioNode(d))
            && (forall k :: 1 <= k < |b| ==> b[k].Finished? && b[k].node == ScenarioNode(d))
            && b[|b| - 1] == Finished(ScenarioNode(d), Successful)
            && (forall e :: Finished(ScenarioNode(d), Failed(e)) in b <==> run(d.scenarioRunnerDTO, d.scenarioWithIndex) == Threw(e))
  {
  }

  /**
   * One suite's events: started first and finished (successful) last, with the
   * events of each of its scenarios, in order, as a contiguous run strictly in between.
   */
  lemma SuiteBracketsScenarios(s: SuiteDescriptor, run: ScenarioRunnerHelper, j: nat)
    requires j < |s.children|
    ensures var b := SuiteEvents(s, run);
            var blocks := ScenarioBlocks(s.children, run);
            var p := 1 + Start(blocks, j);
            && b[0] == Started(SuiteNode(s))
            && b[|b| - 1] == Finished(SuiteNode(s), Successful)
            && p + |ScenarioEvents(s.children[j], run)| < |b|
            && b[p..p + |ScenarioEvents(s.children[j], run)|] == ScenarioEvents(s.children[j], run)
  {
    var blocks := ScenarioBlocks(s.children, run);
    var inner := Concat(blocks);
    ConcatBlock(blocks, j);
    var b := SuiteEvents(s, run);
    var p := 1 + Start(blocks, j);
    var q := p + |blocks[j]|;
    assert b == [Started(SuiteNode(s))] + inner + [Finished(SuiteNode(s), Successful)];
    assert b[p..q] == inner[p - 1..q - 1];
  }

  /** A suite's scenarios are reported in order: scenario `j`'s events all come before scenario `k`'s when `j < k`. */
  lemma ScenariosInOrder(s: SuiteDescriptor, run: ScenarioRunnerHelper, j: nat, k: nat)
    requires j < k < |s.children|
    ensures var blocks := ScenarioBlocks(s.children, run);
            Start(blocks, j) + |ScenarioEvents(s.children[j], run)| <= Start(blocks, k)
  {
    var blocks := ScenarioBlocks(s.children, run);
    ConcatBlock(blocks, j);
    StartMonotone(blocks, j + 1, k);
  }

  /**
   * Isolation in the whole log: scenario `j` of suite `i` gets its own events,
   * determined by that scenario and the helper alone, whatever the other
   * scenarios' helpers did; they come after suite `i` is reported started and
   * before it is reported finished (successful), and suite `i`'s events all come
   * before suite `i + 1`'s.
   */
  lemma ScenarioEventsInLog(suites: seq<SuiteDescriptor>, run: ScenarioRunnerHelper, i: nat, j: nat)
    requires i < |suites| && j < |suites[i].children|
    ensures var log := ExecutionEvents(suites, run);
            var start := Start(SuiteBlocks(suites, run), i);
            var end := Start(SuiteBlocks(suites, run), i + 1);
            var p := start + 1 + Start(ScenarioBlocks(suites[i].children, run), j);
            var d := suites[i].children[j];
            && start < p && p + |ScenarioEvents(d, run)| < end <= |log|
            && log[start] == Started(SuiteNode(suites[i]))
            && log[p..p + |ScenarioEvents(d, run)|] == ScenarioEvents(d, run)
            && log[end - 1] == Finished(SuiteNode(suites[i]), Successful)
  {
    var blocks := SuiteBlocks(suites, run);
    assert blocks[i] == SuiteEvents(suites[i], run);
    SuiteBracketsScenarios(suites[i], run, j);
    var off := 1 + Start(ScenarioBlocks(suites[i].children, run), j);
    BlockInConcat(blocks, i, off, |ScenarioEvents(suites[i].children[j], run)|);
  }

  /**
   * The case of a file whose three scenarios run in order and whose second one
   * throws: the first and third are reported started then finished successful;
   * the second is reported finished twice, failed with the cause, then successful.
   */
  lemma SecondOfThreeThrows(
    suite: SuiteDescriptor, run: ScenarioRunnerHelper, cause: Throwable)
    requires |suite.children| == 3
    requires var c := suite.children;
             && run(c[0].scenarioRunnerDTO, c[0].scenarioWithIndex) == Returned
             && run(c[1].scenarioRunnerDTO, c[1].scenarioWithIndex) == Threw(cause)
             && run(c[2].scenarioRunnerDTO, c[2].scenarioWithIndex) == Returned
    ensures var c := suite.children;
            ExecutionEvents([suite], run) == [
              Started(SuiteNode(suite)),
              Started(ScenarioNode(c[0])), Finished(ScenarioNode(c[0]), Successful),
              Started(ScenarioNode(c[1])), Finished(ScenarioNode(c[1]), Failed(cause)), Finished(ScenarioNode(c[1]), Successful),
              Started(ScenarioNode(c[2])), Finished(ScenarioNode(c[2]), Successful),
              Finished(SuiteNode(suite), Successful)]
  {
    var c := suite.children;
    var blocks := ScenarioBlocks(c, run);
    var b0, b1, b2 := blocks[0], blocks[1], blocks[2];
    assert blocks == [b0] + [b1] + [b2];
    ConcatSnoc([], b0);
    ConcatSnoc([b0], b1);
    ConcatSnoc([b0] + [b1], b2);
    assert Concat(blocks) == b0 + b1 + b2;
    ConcatSnoc([], SuiteEvents(suite, run));
    assert SuiteBlocks([suite], run) == [] + [SuiteEvents(suite, run)];
  }
}
