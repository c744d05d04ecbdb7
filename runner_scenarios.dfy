/** Runs of the runner on small concrete inputs. The drain lemmas unfold
    `Handle` and `DrainFrom` one reply at a time; the scenario methods drive
    a runner object and are proved from its methods' contracts and those
    lemmas. */
module RunnerScenarios {
  import opened PageGrouping
  import opened TestRunner

  /** Every page needs the same test system, none is a suite set-up or
      tear-down page, and the surrounder adds nothing. */
  function OneSystemPolicy(): Policy<string, string>
  {
    Policy((p: string) => false, (p: string, debug: bool) => "fit", (s: seq<TestPage<string>>) => s)
  }

  /** A runner over the given pages under the one-system policy, before any
      run. */
  method FreshRunner(pages: seq<string>) returns (runner: MultipleTestsRunner<string, string>)
    ensures fresh(runner) && runner.Valid()
    ensures runner.processingQueue == [] && runner.currentTest == None
    ensures runner.events == [] && !runner.isStopped
    ensures runner.stopId == None && !runner.hasTestSystemGroup && runner.executionLog == []
  {
    runner := new MultipleTestsRunner(pages, OneSystemPolicy());
  }

  /** Stopping twice kills the group once: the second call only deregisters. */
  method StopTwice<W(==), D(==)>(runner: MultipleTestsRunner<W, D>) returns (first: Outcome, second: Outcome)
    requires runner.Valid() && runner.hasTestSystemGroup
    modifies runner
    ensures runner.Valid() && runner.isStopped
    ensures first == Pass && second == Pass
    ensures runner.events == old(runner.events)
                             + StopEvents(old(runner.isStopped), runner.stopId, true)
                             + StopEvents(true, runner.stopId, true)
  {
    first := runner.Stop();
    second := runner.Stop();
  }

  /** The wait over two queued pages that each send output before they
      complete: each completion is reported for the page at the head of the
      queue, right after that page was announced as started, and the wait
      ends once the queue is empty, having consumed every reply. */
  lemma {:induction false} CorrelationDrain(s1: TestSummary, s2: TestSummary)
    ensures var a, b := TestPage("A", 0), TestPage("B", 1);
            var start: Snapshot<string, string> := Snapshot([a, b], None, false, [PageSubmitted(a), PageSubmitted(b)], []);
            DrainFrom(start, None, false,
                      [Chunk("a1"), Chunk("a2"), Completion(s1), Chunk("b1"), Completion(s2)], 0)
            == (Snapshot([], Some(b), false,
                         [PageSubmitted(a), PageSubmitted(b),
                          NewTestStarted(a), OutputForwarded("a1"), OutputForwarded("a2"), TestCompleted(a, s1),
                          NewTestStarted(b), OutputForwarded("b1"), TestCompleted(b, s2)], []), 5)
  {
    var a, b := TestPage("A", 0), TestPage("B", 1);
    var replies := [Chunk("a1"), Chunk("a2"), Completion(s1), Chunk("b1"), Completion(s2)];
    var t0: Snapshot<string, string> := Snapshot([a, b], None, false, [PageSubmitted(a), PageSubmitted(b)], []);
    var t1 := Snapshot([a, b], Some(a), false, t0.log + [NewTestStarted(a), OutputForwarded("a1")], []);
    var t2 := Snapshot([a, b], Some(a), false, t1.log + [OutputForwarded("a2")], []);
    var t3 := Snapshot([b], Some(a), false, t2.log + [TestCompleted(a, s1)], []);
    var t4 := Snapshot([b], Some(b), false, t3.log + [NewTestStarted(b), OutputForwarded("b1")], []);
    var t5 := Snapshot([], Some(b), false, t4.log + [TestCompleted(b, s2)], []);
    HandledChunk(t0, None, false, "a1");
    HandledChunk(t1, None, false, "a2");
    HandledCompletion(t2, None, false, s1);
    HandledChunk(t3, None, false, "b1");
    HandledCompletion(t4, None, false, s2);
    calc {
      DrainFrom(t0, None, false, replies, 0);
      { assert Waiting(t0) && Handle(t0, None, false, replies[0]) == t1; }
      DrainFrom(t1, None, false, replies, 1);
      { assert Waiting(t1) && Handle(t1, None, false, replies[1]) == t2; }
      DrainFrom(t2, None, false, replies, 2);
      { assert Waiting(t2) && Handle(t2, None, false, replies[2]) == t3; }
      DrainFrom(t3, None, false, replies, 3);
      { assert Waiting(t3) && Handle(t3, None, false, replies[3]) == t4; }
      DrainFrom(t4, None, false, replies, 4);
      { assert Waiting(t4) && Handle(t4, None, false, replies[4]) == t5; }
      DrainFrom(t5, None, false, replies, 5);
      (t5, 5);
    }
    assert t5.log == [PageSubmitted(a), PageSubmitted(b),
                      NewTestStarted(a), OutputForwarded("a1"), OutputForwarded("a2"), TestCompleted(a, s1),
                      NewTestStarted(b), OutputForwarded("b1"), TestCompleted(b, s2)];
  }

  /** Two pages of one group, each producing output before it completes, run
      through the runner's own wait loop. */
  method CorrelationScenario(s1: TestSummary, s2: TestSummary)
    returns (consumed: nat, events: seq<Event<string, string>>)
    ensures consumed == 5
    ensures events == [
      PageSubmitted(TestPage("A", 0)), PageSubmitted(TestPage("B", 1)),
      NewTestStarted(TestPage("A", 0)), OutputForwarded("a1"), OutputForwarded("a2"),
      TestCompleted(TestPage("A", 0), s1),
      NewTestStarted(TestPage("B", 1)), OutputForwarded("b1"),
      TestCompleted(TestPage("B", 1), s2)]
  {
    var a, b := TestPage("A", 0), TestPage("B", 1);
    var runner := FreshRunner(["A", "B"]);
    runner.ExecuteTestSystemPages([a, b]);
    assert runner.Snap() == Snapshot([a, b], None, false, [PageSubmitted(a), PageSubmitted(b)], []);
    CorrelationDrain(s1, s2);
    consumed := runner.WaitForTestSystemToSendResults(
      [Chunk("a1"), Chunk("a2"), Completion(s1), Chunk("b1"), Completion(s2)]);
    events := runner.events;
  }

  /** After the first page completed silently, the second page sends output
      and completes, and then the third completes silently: the third page is
      never announced, its completion follows the second page's completion,
      and the wait ends once the queue is empty. */
  lemma {:induction false} SilentDrain(s1: TestSummary, s2: TestSummary)
    ensures var b, c := TestPage("B", 1), TestPage("C", 2);
            var submitted: seq<Event<string, string>> := [PageSubmitted(TestPage("A", 0)), PageSubmitted(b), PageSubmitted(c)];
            DrainFrom(Snapshot([b, c], None, false, submitted, []), None, false,
                      [Chunk("b1"), Completion(s1), Completion(s2)], 0)
            == (Snapshot([], Some(b), false,
                         [PageSubmitted(TestPage("A", 0)), PageSubmitted(b), PageSubmitted(c),
                          NewTestStarted(b), OutputForwarded("b1"), TestCompleted(b, s1),
                          TestCompleted(c, s2)], []), 3)
  {
    var b, c := TestPage("B", 1), TestPage("C", 2);
    var submitted: seq<Event<string, string>> := [PageSubmitted(TestPage("A", 0)), PageSubmitted(b), PageSubmitted(c)];
    var replies := [Chunk("b1"), Completion(s1), Completion(s2)];
    var t0: Snapshot<string, string> := Snapshot([b, c], None, false, submitted, []);
    var t1 := Snapshot([b, c], Some(b), false, t0.log + [NewTestStarted(b), OutputForwarded("b1")], []);
    var t2 := Snapshot([c], Some(b), false, t1.log + [TestCompleted(b, s1)], []);
    var t3 := Snapshot([], Some(b), false, t2.log + [TestCompleted(c, s2)], []);
    HandledChunk(t0, None, false, "b1");
    HandledCompletion(t1, None, false, s1);
    HandledCompletion(t2, None, false, s2);
    calc {
      DrainFrom(t0, None, false, replies, 0);
      { assert Waiting(t0) && Handle(t0, None, false, replies[0]) == t1; }
      DrainFrom(t1, None, false, replies, 1);
      { assert Waiting(t1) && Handle(t1, None, false, replies[1]) == t2; }
      DrainFrom(t2, None, false, replies, 2);
      { assert Waiting(t2) && Handle(t2, None, false, replies[2]) == t3; }
      DrainFrom(t3, None, false, replies, 3);
      (t3, 3);
    }
    assert t3.log == [PageSubmitted(TestPage("A", 0)), PageSubmitted(b), PageSubmitted(c),
                      NewTestStarted(b), OutputForwarded("b1"), TestCompleted(b, s1), TestCompleted(c, s2)];
  }

  /** A first page completing without output fails on the missing test
      clock: it is dropped from the queue unreported and nothing is logged
      for it. */
  method FirstPageCompletesSilently(s1: TestSummary)
    returns (runner: MultipleTestsRunner<string, string>, outcome: Outcome)
    ensures fresh(runner) && runner.Valid()
    ensures outcome == Fail(NullPointer)
    ensures runner.stopId == None && !runner.hasTestSystemGroup
    ensures runner.Snap() == Snapshot([TestPage("B", 1), TestPage("C", 2)], None, false,
                                      [PageSubmitted(TestPage("A", 0)), PageSubmitted(TestPage("B", 1)),
                                       PageSubmitted(TestPage("C", 2))], [])
  {
    var a, b, c := TestPage("A", 0), TestPage("B", 1), TestPage("C", 2);
    runner := FreshRunner(["A", "B", "C"]);
    runner.ExecuteTestSystemPages([a, b, c]);
    assert runner.processingQueue == [a, b, c] && runner.currentTest == None
           && runner.events == [PageSubmitted(a), PageSubmitted(b), PageSubmitted(c)];
    outcome := runner.TestComplete(s1);
  }

  /** A page that completes without any output is never announced as
      started and reuses the previous page's test clock: after the first
      page completed silently, the second page sends output and completes,
      and then the third completes silently; its completion follows the
      second page's completion, and the wait ends once the queue is empty. */
  method SilentPageScenario(s1: TestSummary, s2: TestSummary)
    returns (firstOutcome: Outcome, consumed: nat, events: seq<Event<string, string>>)
    ensures firstOutcome == Fail(NullPointer)
    ensures consumed == 3
    ensures events == [
      PageSubmitted(TestPage("A", 0)), PageSubmitted(TestPage("B", 1)), PageSubmitted(TestPage("C", 2)),
      NewTestStarted(TestPage("B", 1)), OutputForwarded("b1"),
      TestCompleted(TestPage("B", 1), s1),
      TestCompleted(TestPage("C", 2), s2)]
  {
    var runner;
    runner, firstOutcome := FirstPageCompletesSilently(s1);
    SilentDrain(s1, s2);
    consumed := runner.WaitForTestSystemToSendResults([Chunk("b1"), Completion(s1), Completion(s2)]);
    events := runner.events;
  }

  /** A run over no pages announces no tests, starts no test system and
      reports completion. */
  method EmptyRunScenario(startOf: string -> StartResult, repliesOf: string -> seq<Reply>)
    returns (blocked: bool, events: seq<Event<string, string>>)
    ensures !blocked
    ensures StartCount(events) == 0
    ensures |events| >= 5 && events[2] == TestsAnnounced(0)
    ensures events[|events| - 2..] == [TrackingRemoved("run"), AllTestingCompleted]
  {
    var runner := new MultipleTestsRunner([], OneSystemPolicy());
    EmptyRunHasNoGroups(OneSystemPolicy(), false);
    blocked := runner.ExecuteTestPages("run", startOf, repliesOf);
    events := runner.events;
  }
}
