/** What holds in every run of the pipeline: the reports are a prefix of one function of the
    accepted snapshots, and every buffer is freed exactly once and never used after that. */
module PipelineRuns {
  import opened Common
  import opened QueueCalls
  import opened CpuUsage
  import opened UsageStream
  import opened Pipeline
  import opened PipelineInvariant
  import opened PipelineBodies
  import opened PipelineProof
  import AQ = AtomicQueue
  import L = Lifecycle

  /** At least one row, because the printer reads element 0, and the eight columns that are summed. */
  predicate GoodLayout(layout: Layout) {
    layout.rows >= 1 && layout.columns >= 8
  }

  lemma NothingIsOk()
    ensures MemOk(Memory(map[], 0, multiset{}, false))
  {
    var m := Memory(map[], 0, multiset{}, false);
    forall id: Id ensures m.freed[id] == if id < m.next && id !in m.live then 1 else 0 {
      assert id !in m.freed;
    }
  }

  lemma InitialInv(s: State)
    requires Initial(s) && GoodLayout(s.client.layout)
    ensures Inv(s)
  {
    assert Links(s);
    NothingIsOk();
    assert Lines(s.client.mem, OutIds(s.client, s.output)) == [];
  }

  lemma StaysOpen(s: State, step: Step)
    requires L.Wf(s.life) && Enabled(s, step) && Open(s.life.main, Input)
    requires step.Life? ==> !step.step.Destroy?
    ensures L.Wf(Apply(s, step).life) && Open(Apply(s, step).life.main, Input)
  {
  }

  lemma OpenStepKeeps(s: State, step: Step)
    requires Flowing(s) && Open(s.life.main, Input) && Enabled(s, step) && (step.Life? ==> !step.step.Destroy?)
    ensures Inv(Apply(s, step))
  {
    StaysOpen(s, step);
    match step
    case Do(b) => DoKeeps(s, b);
    case Decide(which, t, result) => DecideKeeps(s, which, t, result);
    case Life(l) => LifeKeeps(s, l);
  }

  lemma ClosedStepKeeps(s: State, step: Step)
    requires Closing(s) && !Open(s.life.main, Input) && Enabled(s, step)
    ensures Inv(Apply(s, step))
  {
    ClosingStep(s, step);
    StaysClosed(s, step);
  }

  lemma StaysClosed(s: State, step: Step)
    requires Enabled(s, step) && !Open(s.life.main, Input)
    ensures !Open(Apply(s, step).life.main, Input)
  {
  }

  lemma FirstDestroyKeeps(s: State)
    requires Flowing(s) && Open(s.life.main, Input) && Enabled(s, Life(L.Destroy))
    ensures Inv(Apply(s, Life(L.Destroy)))
  {
    FirstDestroy(s);
  }

  lemma StepKeeps(s: State, step: Step)
    requires Inv(s) && Enabled(s, step)
    ensures Inv(Apply(s, step))
  {
    if !Open(s.life.main, Input) {
      ClosedStepKeeps(s, step);
    } else if step == Life(L.Destroy) {
      FirstDestroyKeeps(s);
    } else {
      OpenStepKeeps(s, step);
    }
  }

  lemma {:induction false} InvAlong(s: State, steps: seq<Step>)
    requires Inv(s) && Runs(s, steps)
    ensures Inv(After(s, steps))
    decreases |steps|
  {
    if steps == [] {
    } else {
      StepKeeps(s, steps[0]);
      InvAlong(Apply(s, steps[0]), steps[1..]);
    }
  }

  /** How many pairs of consecutive snapshots there are. */
  function Pairs(snapshots: seq<Grid>): nat {
    if snapshots == [] then 0 else |snapshots| - 1
  }

  lemma ReportsFollowStream(s: State)
    requires Inv(s)
    ensures
      var c := s.client;
      && !c.mem.fault
      && AllFit(c.accepted, c.layout) && GoodLayout(c.layout)
      && (forall k: nat | k in c.dropped :: k < Pairs(c.accepted))
      && c.reports <= Stream(c.accepted, c.dropped, Pairs(c.accepted), c.layout)
  {
    var c := s.client;
    var stream := Stream(c.accepted, c.dropped, Paired(c), c.layout);
    var whole := Stream(c.accepted, c.dropped, Pairs(c.accepted), c.layout);
    assert c.reports <= stream by {
      if Open(s.life.main, Input) {
        assert c.reports + Lines(c.mem, OutIds(c, s.output)) == stream;
      }
    }
    StreamGrows(c.accepted, c.dropped, Paired(c), Pairs(c.accepted), c.layout);
    assert c.reports == stream[..|c.reports|] == whole[..|c.reports|];
  }

  /** End to end, in every interleaving of reader, analyzer, printer, queues and shutdown, with
      timeouts and failures anywhere: what is printed is a prefix of the usage computed from the
      consecutive pairs of accepted snapshots, in order, without the dropped pairs. */
  lemma {:induction false} ReportsArePrefixOfStream(s: State, steps: seq<Step>)
    requires Initial(s) && GoodLayout(s.client.layout) && Runs(s, steps)
    ensures
      var c := After(s, steps).client;
      && AllFit(c.accepted, c.layout) && GoodLayout(c.layout)
      && (forall k: nat | k in c.dropped :: k < Pairs(c.accepted))
      && c.reports <= Stream(c.accepted, c.dropped, Pairs(c.accepted), c.layout)
  {
    InitialInv(s);
    InvAlong(s, steps);
    ReportsFollowStream(After(s, steps));
  }

  /** Nothing is on its way, and the analyzer is between two fetches. */
  ghost predicate Drained(s: State) {
    && s.input.phase.Keys == USERS && s.output.phase.Keys == USERS && Open(s.life.main, Input)
    && InIds(s.input) == [] && OutIds(s.client, s.output) == [] && s.client.analyzer.at.ATesting?
  }

  lemma DrainedMeansComplete(s: State)
    requires Flowing(s) && Drained(s)
    ensures s.client.reports == Stream(s.client.accepted, s.client.dropped, Pairs(s.client.accepted), s.client.layout)
  {
    var c := s.client;
    assert Paired(c) == Pairs(c.accepted);
    assert c.reports + Lines(c.mem, []) == c.reports;
  }

  /** Nothing else is missing: whenever the pipeline has drained, the reports are the whole stream. */
  lemma {:induction false} DrainedReportsAreComplete(s: State, steps: seq<Step>)
    requires Initial(s) && GoodLayout(s.client.layout) && Runs(s, steps)
    ensures
      var c := After(s, steps).client;
      && AllFit(c.accepted, c.layout) && GoodLayout(c.layout)
      && (Drained(After(s, steps)) ==> c.reports == Stream(c.accepted, c.dropped, Pairs(c.accepted), c.layout))
  {
    InitialInv(s);
    InvAlong(s, steps);
    ReportsFollowStream(After(s, steps));
    if Drained(After(s, steps)) {
      DrainedMeansComplete(After(s, steps));
    }
  }

  /** The steps at which a result is lost: its allocation fails, or it is freed after a failed push. */
  function Losses(steps: seq<Step>): nat {
    if steps == [] then 0 else
    (if steps[0] == Do(AAlloc(false)) || steps[0] == Do(ADrop) then 1 else 0) + Losses(steps[1..])
  }

  lemma OtherStepDropsNothing(s: State, step: Step)
    requires Enabled(s, step) && step != Do(AAlloc(false)) && step != Do(ADrop)
    ensures Apply(s, step).client.dropped == s.client.dropped
  {
    if step.Life? {
      assert forall ids :: LifeApply(s.client, step.step, ids).dropped == s.client.dropped;
    }
  }

  lemma LossStep(s: State, b: Body)
    requires Inv(s) && Enabled(s, Do(b)) && (b == AAlloc(false) || b == ADrop)
    ensures
      var k := s.client.taken - 2;
      k >= 0 && k !in s.client.dropped && Apply(s, Do(b)).client.dropped == s.client.dropped + {k}
  {
    hide Inv, Links, MemOk, SingleOwners, StreamPart;
    DoMeansOpen(s, b);
    AboutToLose(s, b);
    DoMoves(s, b);
    DropsOne(s.client, b);
  }

  lemma DropsOne(c: Client, b: Body)
    requires BodyEnabled(c, b) && (b == AAlloc(false) || b == ADrop) && c.taken >= 2
    ensures BodyApply(c, b).dropped == c.dropped + {c.taken - 2}
  {
  }

  lemma DoMeansOpen(s: State, b: Body)
    requires Inv(s) && Enabled(s, Do(b))
    ensures Flowing(s)
  {
    if !Open(s.life.main, Input) {
      OnlyLifeMoves(s, Do(b));
      assert false;
    }
  }

  lemma AboutToLose(s: State, b: Body)
    requires Flowing(s) && Enabled(s, Do(b)) && (b == AAlloc(false) || b == ADrop)
    ensures s.client.taken >= 2 && s.client.taken - 2 !in s.client.dropped
  {
  }

  lemma LossesGrowDropped(s: State, step: Step)
    requires Inv(s) && Enabled(s, step)
    ensures |Apply(s, step).client.dropped| == |s.client.dropped| + Losses([step])
  {
    if step == Do(AAlloc(false)) || step == Do(ADrop) {
      LossStep(s, step.body);
    } else {
      OtherStepDropsNothing(s, step);
    }
  }

  lemma {:induction false} LossesAdd(steps: seq<Step>)
    requires steps != []
    ensures Losses(steps) == Losses([steps[0]]) + Losses(steps[1..])
  {
    assert [steps[0]][1..] == [];
  }

  /** A pair is dropped for a reason: there are exactly as many dropped pairs as lost results. */
  lemma {:induction false} DroppedPairsAreLosses(s: State, steps: seq<Step>)
    requires Inv(s) && Runs(s, steps)
    ensures |After(s, steps).client.dropped| == |s.client.dropped| + Losses(steps)
    decreases |steps|
  {
    if steps == [] {
    } else {
      LossesAdd(steps);
      StepKeeps(s, steps[0]);
      LossesGrowDropped(s, steps[0]);
      DroppedPairsAreLosses(Apply(s, steps[0]), steps[1..]);
    }
  }

  /** stat_cpu_array_create_l is refused memory, in the reader or in analyzer_init. */
  predicate FailsCreation(step: Step) {
    step == Do(RAlloc(false)) || step == Life(L.InitDone(ANALYZER, false))
  }

  lemma StepCrashes(s: State, step: Step)
    requires Enabled(s, step)
    ensures
      var c := Apply(s, step).client;
      && c.layout == s.client.layout
      && (c.crashed <==> s.client.crashed || (FailsCreation(step) && CreationCrashes(s.client.layout)))
  {
    if step.Life? {
      assert forall ids ::
          && LifeApply(s.client, step.step, ids).crashed == LifeApply(s.client, step.step, []).crashed
          && LifeApply(s.client, step.step, ids).layout == s.client.layout;
    }
  }

  lemma {:induction false} CrashedIff(s: State, steps: seq<Step>)
    requires Runs(s, steps)
    ensures After(s, steps).client.crashed <==>
              s.client.crashed
              || (CreationCrashes(s.client.layout) && exists j | 0 <= j < |steps| :: FailsCreation(steps[j]))
    decreases |steps|
  {
    if steps == [] {
    } else {
      StepCrashes(s, steps[0]);
      CrashedIff(Apply(s, steps[0]), steps[1..]);
      assert forall j | 0 < j < |steps| :: steps[j] == steps[1..][j - 1];
    }
  }

  /** With a good layout a run faults exactly if an array creation fails in it. */
  lemma {:induction false} FaultsIff(s: State, steps: seq<Step>)
    requires Initial(s) && GoodLayout(s.client.layout) && Runs(s, steps)
    ensures Faulted(After(s, steps).client) <==> exists j | 0 <= j < |steps| :: FailsCreation(steps[j])
  {
    InitialInv(s);
    InvAlong(s, steps);
    ReportsFollowStream(After(s, steps));
    CrashedIff(s, steps);
  }

  /** At every moment of every run: no buffer was used after its free or freed twice, no queue was
      used after its destroy, and while the queues exist every live buffer has exactly one owner. */
  lemma {:induction false} EveryBufferHasOneOwner(s: State, steps: seq<Step>, x: Id)
    requires Initial(s) && GoodLayout(s.client.layout) && Runs(s, steps)
    ensures
      var s' := After(s, steps);
      && !s'.client.mem.fault
      && s'.input.phase.Keys == USERS && s'.output.phase.Keys == USERS
      && Owners(s'.client, s'.input, s'.output, x) == (if x in s'.client.mem.live then 1 else 0)
      && s'.client.mem.freed[x] == (if x < s'.client.mem.next && x !in s'.client.mem.live then 1 else 0)
  {
    InitialInv(s);
    InvAlong(s, steps);
  }

  lemma AllFreedAtExit(s: State)
    requires Inv(s) && s.life.main.Exited?
    ensures
      var m := s.client.mem;
      m.live == map[] && forall x: Id :: m.freed[x] == if x < m.next then 1 else 0
  {
    forall x: Id ensures x !in s.client.mem.live {
      OnlyQueuesOwn(s, x);
      assert Owners(s.client, s.input, s.output, x) == Live(s.client.mem, x);
    }
    assert s.client.mem.live == map[];
  }

  /** Once main has joined the workers and destroyed the queues, every buffer that was ever
      allocated has been freed exactly once. */
  lemma {:induction false} EverythingIsFreedOnce(s: State, steps: seq<Step>)
    requires Initial(s) && GoodLayout(s.client.layout) && Runs(s, steps)
    requires After(s, steps).life.main.Exited?
    ensures
      var m := After(s, steps).client.mem;
      m.live == map[] && forall x: Id :: m.freed[x] == if x < m.next then 1 else 0
  {
    InitialInv(s);
    InvAlong(s, steps);
    AllFreedAtExit(After(s, steps));
  }
}
