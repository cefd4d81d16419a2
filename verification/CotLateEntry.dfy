/** A run of the thinking bubble that sends an entry behind RUN_FINISHED. */
module CotLateEntry {
  import opened Options
  import opened CotPump
  import opened CotRuns

  const ONE: seq<Entry> := [Thinking("a")]
  const TWO: seq<Entry> := [Thinking("a"), Thinking("b")]
  const FIRST: seq<CotEvent> := [MessageStart(1), MessageContent(1, "a"), MessageEnd(1)]
  const SECOND: seq<CotEvent> := [MessageStart(2), MessageContent(2, "b"), MessageEnd(2)]

  /** The bubble while a request is under way that sends all there is to send. */
  function Bubble(sent: nat, pending: Option<seq<Entry>>, finish: Option<Finish>, settled: bool, next: Then,
        trace: Trace): Cot {
    Cot(true, sent, pending, |trace.given|, false, settled, finish, Appending([], next), trace)
  }

  function Creating1(): Cot { Cot(false, 0, Some(ONE), 0, false, false, None, Creating, Trace(1, 0, [], [], None)) }

  function Asked(finish: Option<Finish>): Cot {
    Bubble(0, Some(ONE), finish, false, Opened, Trace(1, 0, PROLOGUE, [], None))
  }

  function Sending1(): Cot {
    Bubble(0, None, Some(Finished), false, Batch(1), Trace(1, 0, PROLOGUE + FIRST, ONE, None))
  }

  function ClosingTrace(): Trace { Trace(1, 0, PROLOGUE + FIRST + Closing(1, Finished), ONE, Some(1)) }

  function Finishing1(pending: Option<seq<Entry>>): Cot {
    Bubble(1, pending, Some(Finished), false, Ended, ClosingTrace())
  }

  function Late(): Cot {
    Bubble(1, None, Some(Finished), true, Batch(2), ClosingTrace().(wire := ClosingTrace().wire + SECOND, given := TWO))
  }

  lemma IssueAll(s: Cot, events: seq<CotEvent>, next: Then)
    requires |events| <= BATCH
    ensures Issue(s, events, next) == s.(stage := Appending([], next), trace := s.trace.(wire := s.trace.wire + events))
  {
    assert events[..|events|] == events && events[|events|..] == [];
  }

  lemma Builds()
    ensures Build(ONE, 0, 1, 0) == (FIRST, 1) && Build(TWO, 1, 2, 1) == (SECOND, 2)
    ensures [] + ONE[0..] == ONE && ONE + TWO[1..] == TWO
  {
    assert [] + FIRST == FIRST && [] + SECOND == SECOND;
    assert Build(ONE, 0, 0, 0) == ([], 0) && Build(TWO, 1, 1, 1) == ([], 1);
  }

  lemma BubbleOpens()
    ensures Update(FRESH, ONE) == Creating1()
    ensures Created(Creating1(), true) == Asked(None)
    ensures Finalize(Asked(None), Finished) == Asked(Some(Finished))
  {
    IssueAll(Creating1().(cotId := true), PROLOGUE, Opened);
    assert [] + PROLOGUE == PROLOGUE;
  }

  lemma FirstThoughtGoesOut()
    ensures Appended(Asked(Some(Finished)), true) == Sending1()
  {
    hide Build, Issue;
    Builds();
    var s := Asked(Some(Finished));
    var (events, u) := Record(s.(pending := None), ONE);
    assert events == FIRST;
    IssueAll(u, FIRST, Batch(1));
  }

  lemma FinishGoesOut()
    ensures Appended(Sending1(), true) == Finishing1(None)
    ensures Update(Finishing1(None), TWO) == Finishing1(Some(TWO))
  {
    hide Issue, Build;
    var s := Sending1().(sentCount := 1);
    IssueAll(s.(trace := s.trace.(finishedAt := Some(1))), Closing(1, Finished), Ended);
  }

  lemma SecondThoughtGoesOut()
    ensures Appended(Finishing1(Some(TWO)), true) == Late()
  {
    hide Build, Issue;
    Builds();
    var s := Finishing1(Some(TWO)).(settled := true);
    var (events, u) := Record(s.(pending := None), TWO);
    assert events == SECOND;
    IssueAll(u, SECOND, Batch(2));
  }

  lemma OneStep(s: Cot, step: Step, more: seq<Step>, t: Cot)
    requires Enabled(s, step) && RunsTo(Apply(s, step), more, t)
    ensures RunsTo(s, [step] + more, t)
  {
    assert ([step] + more)[1..] == more;
  }

  /** The second thought arrives while the closing events are on their way, and is sent behind them. */
  lemma ThoughtAfterTheFinish() returns (steps: seq<Step>, s: Cot)
    ensures RunsTo(FRESH, steps, s) && s.stage.Appending?
    ensures s.trace.wire == PROLOGUE + FIRST + [ReasoningEnd(1), RunFinished(Finished)] + SECOND
  {
    s := Late();
    var closing := [AppendReturns(true)] + ([Updating(TWO)] + ([AppendReturns(true)] + []));
    steps := [Updating(ONE)] + ([CreateReturns(true)] + ([Finalizing(Finished)] + ([AppendReturns(true)] + closing)));
    assert RunsTo(s, [], s);
    BubbleOpens();
    FirstThoughtGoesOut();
    FinishGoesOut();
    SecondThoughtGoesOut();
    hide Update, Created, Finalize, Appended, RunsTo;
    OneStep(Finishing1(Some(TWO)), AppendReturns(true), [], s);
    OneStep(Finishing1(None), Updating(TWO), [AppendReturns(true)] + [], s);
    OneStep(Sending1(), AppendReturns(true), [Updating(TWO)] + ([AppendReturns(true)] + []), s);
    OneStep(Asked(Some(Finished)), AppendReturns(true), closing, s);
    OneStep(Asked(None), Finalizing(Finished), [AppendReturns(true)] + closing, s);
    OneStep(Creating1(), CreateReturns(true), [Finalizing(Finished)] + ([AppendReturns(true)] + closing), s);
    var rest := [CreateReturns(true)] + ([Finalizing(Finished)] + ([AppendReturns(true)] + closing));
    OneStep(FRESH, Updating(ONE), rest, s);
  }
}
