/** Every moment at which a queue operation takes effect, and every step of the workers' life cycle and
    of the shutdown, keeps the invariant of PipelineInvariant. */
module PipelineProof {
  import opened Common
  import opened QueueCalls
  import opened CpuUsage
  import opened UsageStream
  import opened Pipeline
  import opened PipelineInvariant
  import opened PipelineBodies
  import AQ = AtomicQueue
  import L = Lifecycle

  // ---------- the moments at which queue operations take effect ----------

  lemma HeadCounts(items: seq<Id>, x: Id)
    requires items != []
    ensures multiset(items)[x] == Is(true, items[0], x) + multiset(items[1..])[x]
  {
    assert items == [items[0]] + items[1..];
  }

  lemma TailCounts(items: seq<Id>, d: Id, x: Id)
    ensures multiset(items + [d])[x] == multiset(items)[x] + Is(true, d, x)
  {
  }

  /** Only the two ends of a queue ever decide on it. */
  lemma WhoDecides(s: State, which: Which, t: Tid, result: Result)
    requires Links(s) && Enabled(s, Decide(which, t, result))
    ensures if which.Input? then t == READER || t == ANALYZER else t == ANALYZER || t == PRINTER
    ensures Open(s.life.main, Input) && Open(s.life.main, Output)
    ensures
      var op := Queue(s, which).phase[t].op;
      && AQ.Allowed(Queue(s, which).items, op, result)
      && Apply(s, Decide(which, t, result)) ==
           SetQueue(s, which, AQ.State(AQ.Effect(Queue(s, which).items, op, result),
                                       Queue(s, which).phase[t := AQ.Decided(op, result)]))
             .(client := Accept(s.client, which, op, result))
  {
    if s.client.reader.RInPush? { QueuesAreOpen(s.life, READER); }
    if s.client.analyzer.at.AInFetch? || s.client.analyzer.at.AInPush? { QueuesAreOpen(s.life, ANALYZER); }
    if s.client.printer.PInFetch? { QueuesAreOpen(s.life, PRINTER); }
  }

  /** A queue operation takes effect: `s'` differs in one queue, and in what was accepted. */
  ghost predicate Decided(s: State, which: Which, t: Tid, result: Result, s': State) {
    var q := Queue(s, which);
    && t in q.phase && q.phase[t].Pending? && AQ.Allowed(q.items, q.phase[t].op, result)
    && var op := q.phase[t].op;
    s' == SetQueue(s, which, AQ.State(AQ.Effect(q.items, op, result), q.phase[t := AQ.Decided(op, result)]))
            .(client := Accept(s.client, which, op, result))
  }

  lemma DecisionKeepsLinks(s: State, which: Which, t: Tid, result: Result, s': State)
    requires Links(s) && Decided(s, which, t, result, s')
    ensures Links(s')
  {
  }

  /** The reader's push takes effect: the snapshot goes from the reader into the queue. */
  lemma ReaderPushKeepsOwners(s: State, result: Result, s': State)
    requires Links(s) && SingleOwners(s.client, s.input, s.output)
    requires Decided(s, Input, READER, result, s') && Links(s')
    ensures SingleOwners(s'.client, s'.input, s'.output)
  {
    forall x: Id ensures Owners(s'.client, s'.input, s'.output, x) == Live(s.client.mem, x) {
      assert Owners(s.client, s.input, s.output, x) == Live(s.client.mem, x);
      if result.Pushed? { TailCounts(s.input.items, s.client.reader.data, x); }
    }
  }

  lemma ReaderPushKeepsStream(s: State, result: Result, s': State)
    requires QueueLinks(s.client, s.input, s.output) && StreamPart(s)
    requires Decided(s, Input, READER, result, s') && QueueLinks(s'.client, s'.input, s'.output)
    ensures StreamPart(s')
  {
    var c := s.client;
    if result.Pushed? {
      var d := c.reader.data;
      assert InIds(s'.input) == InIds(s.input) + [d];
      AcceptKeepsStream(c, s'.client, d, InIds(s.input), OutIds(c, s.output));
    } else {
      assert s'.client == c && InIds(s'.input) == InIds(s.input);
    }
  }

  lemma AcceptKeepsStream(c: Client, c': Client, d: Id, ins: seq<Id>, outs: seq<Id>)
    requires StreamOk(c, ins, outs, true, true) && AnalyzerOk(c) && IsStats(c.mem, d, c.layout)
    requires c' == c.(accepted := c.accepted + [c.mem.live[d].grid])
    ensures StreamOk(c', ins + [d], outs, true, true) && AnalyzerOk(c')
  {
    forall i | 0 <= i < |ins + [d]| ensures Holds(c.mem, Some((ins + [d])[i]), c'.accepted[c.taken + i]) {
      if i < |ins| {
        assert Holds(c.mem, Some(ins[i]), c.accepted[c.taken + i]);
      }
    }
    StreamFrame(c.accepted, c'.accepted, c.dropped, c.dropped, Paired(c), c.layout);
  }

  /** The analyzer's fetch takes effect: the oldest snapshot leaves the queue. */
  lemma AnalyzerPopKeeps(s: State, result: Result, s': State)
    requires Flowing(s) && Decided(s, Input, ANALYZER, result, s') && Links(s')
    ensures SingleOwners(s'.client, s'.input, s'.output) && StreamPart(s')
  {
    assert InIds(s'.input) == InIds(s.input);
    forall x: Id ensures Owners(s'.client, s'.input, s'.output, x) == Live(s.client.mem, x) {
      assert Owners(s.client, s.input, s.output, x) == Live(s.client.mem, x);
      if result.Got? { HeadCounts(s.input.items, x); }
    }
  }

  /** The analyzer's push takes effect: the result goes from the analyzer into the queue. */
  lemma AnalyzerPushKeepsOwners(s: State, result: Result, s': State)
    requires Links(s) && SingleOwners(s.client, s.input, s.output)
    requires Decided(s, Output, ANALYZER, result, s') && Links(s')
    ensures SingleOwners(s'.client, s'.input, s'.output)
  {
    forall x: Id ensures Owners(s'.client, s'.input, s'.output, x) == Live(s.client.mem, x) {
      assert Owners(s.client, s.input, s.output, x) == Live(s.client.mem, x);
      if result.Pushed? { TailCounts(s.output.items, s.client.analyzer.result.value, x); }
    }
  }

  lemma AnalyzerPushKeepsStream(s: State, result: Result, s': State)
    requires QueueLinks(s.client, s.input, s.output) && StreamPart(s)
    requires Decided(s, Output, ANALYZER, result, s') && QueueLinks(s'.client, s'.input, s'.output)
    ensures StreamPart(s')
  {
    assert s'.client == s.client && s'.input == s.input;
    assert OutIds(s'.client, s'.output) == OutIds(s.client, s.output);
  }

  /** The printer's fetch takes effect: the oldest result leaves the queue. */
  lemma PrinterPopKeepsOwners(s: State, result: Result, s': State)
    requires QueueLinks(s.client, s.input, s.output) && SingleOwners(s.client, s.input, s.output)
    requires Decided(s, Output, PRINTER, result, s') && QueueLinks(s'.client, s'.input, s'.output)
    ensures SingleOwners(s'.client, s'.input, s'.output)
  {
    forall x: Id ensures Owners(s'.client, s'.input, s'.output, x) == Live(s.client.mem, x) {
      assert Owners(s.client, s.input, s.output, x) == Live(s.client.mem, x);
      if result.Got? { HeadCounts(s.output.items, x); }
    }
  }

  lemma PrinterPopKeepsStream(s: State, result: Result, s': State)
    requires Links(s) && StreamPart(s)
    requires Decided(s, Output, PRINTER, result, s') && Links(s')
    ensures StreamPart(s')
  {
    assert s'.client == s.client && s'.input == s.input;
    assert OutIds(s'.client, s'.output) == OutIds(s.client, s.output);
  }

  lemma DecideKeeps(s: State, which: Which, t: Tid, result: Result)
    requires Flowing(s) && Enabled(s, Decide(which, t, result))
    ensures Flowing(Apply(s, Decide(which, t, result)))
  {
    var s' := Apply(s, Decide(which, t, result));
    WhoDecides(s, which, t, result);
    DecisionKeepsLinks(s, which, t, result, s');
    if which.Input? {
      if t == READER {
        ReaderPushKeepsOwners(s, result, s');
        ReaderPushKeepsStream(s, result, s');
      } else {
        AnalyzerPopKeeps(s, result, s');
      }
    } else {
      if t == ANALYZER {
        AnalyzerPushKeepsOwners(s, result, s');
        AnalyzerPushKeepsStream(s, result, s');
      } else {
        PrinterPopKeepsOwners(s, result, s');
        PrinterPopKeepsStream(s, result, s');
      }
    }
  }

  // ---------- the life cycle ----------

  /** A life cycle step other than a destroy: the life cycle and the client move, the queues do not. */
  ghost predicate Lived(s: State, l: L.Step, s': State) {
    && L.Wf(s.life) && L.Enabled(s.life, l) && LifeEnabled(s.client, l) && !l.Destroy?
    && s' == s.(life := L.Apply(s.life, l), client := LifeApply(s.client, l, []))
  }

  lemma LifeKeepsQueueLinks(s: State, l: L.Step, s': State)
    requires L.Wf(s.life) && QueueLinks(s.client, s.input, s.output) && LifeLinks(s.life, s.client) && Lived(s, l, s')
    ensures QueueLinks(s'.client, s'.input, s'.output)
  {
  }

  lemma LifeKeepsLifeLinks(s: State, l: L.Step, s': State)
    requires L.Wf(s.life) && LifeLinks(s.life, s.client) && Lived(s, l, s') && L.Wf(s'.life)
    ensures LifeLinks(s'.life, s'.client)
  {
  }

  lemma LifeKeepsLinks(s: State, l: L.Step, s': State)
    requires Links(s) && Lived(s, l, s')
    ensures Links(s')
  {
    L.ShutdownInvStep(s.life, l);
    LifeKeepsQueueLinks(s, l, s');
    LifeKeepsLifeLinks(s, l, s');
  }

  /** The steps that only start or end a frame body, or do not concern the pipeline at all. */
  predicate Light(l: L.Step) {
    !l.Destroy? && (l.InitDone? || l.CleanUp? ==> l.i != ANALYZER)
  }

  lemma LightStepChangesNoOwner(s: State, l: L.Step, s': State, x: Id)
    requires Links(s) && Lived(s, l, s') && Light(l) && Links(s')
    ensures Owners(s'.client, s'.input, s'.output, x) == Owners(s.client, s.input, s.output, x)
    ensures s'.client.mem == s.client.mem
  {
  }

  predicate ReaderRests(r: Reader) { r.RIdle? || r.ROpening? || r.RDone? }

  predicate AnalyzerRests(at: AnalyzerAt) { at.AIdle? || at.ATesting? || at.ADone? }

  predicate PrinterRests(p: Printer) { p.PIdle? || p.PFetching? || p.PDone? }

  /** A frame body is left alone, or goes from one point at which it holds nothing to another. */
  predicate OnlyRests(c: Client, c': Client) {
    && c' == c.(reader := c'.reader, analyzer := c.analyzer.(at := c'.analyzer.at), printer := c'.printer)
    && (c'.reader == c.reader || (ReaderRests(c.reader) && ReaderRests(c'.reader)))
    && (c'.analyzer.at == c.analyzer.at || (AnalyzerRests(c.analyzer.at) && AnalyzerRests(c'.analyzer.at)))
    && (c'.printer == c.printer || (PrinterRests(c.printer) && PrinterRests(c'.printer)))
  }

  lemma LightStepOnlyRests(s: State, l: L.Step, s': State)
    requires L.Wf(s.life) && LifeLinks(s.life, s.client) && Lived(s, l, s') && Light(l)
    ensures OnlyRests(s.client, s'.client)
  {
  }

  lemma RestsKeepPointers(c: Client, c': Client, handing: AQ.Phase, pushing: AQ.Phase)
    requires OnlyRests(c, c') && ReaderOk(c, handing) && AnalyzerOk(c)
    ensures ReaderOk(c', handing) && AnalyzerOk(c')
    ensures c'.printer.PPrinting? <==> c.printer.PPrinting?
    ensures c'.printer.PPrinting? ==> c'.printer == c.printer
    ensures Paired(c') == Paired(c) && (HasResult(c'.analyzer) <==> HasResult(c.analyzer))
    ensures PendingIds(c'.analyzer, pushing) == PendingIds(c.analyzer, pushing)
  {
  }

  lemma LightStepKeepsStream(s: State, l: L.Step, s': State)
    requires Links(s) && StreamPart(s) && Lived(s, l, s') && Light(l) && Links(s')
    ensures StreamPart(s')
  {
    LightStepOnlyRests(s, l, s');
    RestsKeepPointers(s.client, s'.client, s.input.phase[READER], s.output.phase[ANALYZER]);
    assert OutIds(s'.client, s'.output) == OutIds(s.client, s.output);
    StreamSurvives(s.client, s'.client, InIds(s.input), OutIds(s.client, s.output));
  }

  lemma LightStepKeeps(s: State, l: L.Step, s': State)
    requires Flowing(s) && Lived(s, l, s') && Light(l)
    ensures Flowing(s')
  {
    LifeKeepsLinks(s, l, s');
    forall x: Id ensures Owners(s'.client, s'.input, s'.output, x) == Live(s'.client.mem, x) {
      assert Owners(s.client, s.input, s.output, x) == Live(s.client.mem, x);
      LightStepChangesNoOwner(s, l, s', x);
    }
    LightStepChangesNoOwner(s, l, s', 0);
    LightStepKeepsStream(s, l, s');
  }

  lemma InitKeepsOwners(s: State, l: L.Step, s': State)
    requires Links(s) && MemOk(s.client.mem) && SingleOwners(s.client, s.input, s.output)
    requires Lived(s, l, s') && l.InitDone? && l.i == ANALYZER && Links(s')
    ensures MemOk(s'.client.mem) && SingleOwners(s'.client, s'.input, s'.output)
  {
    NewMoves(s.client.mem, FreshStats(s.client.layout), 0);
    forall x: Id ensures Owners(s'.client, s'.input, s'.output, x) == Live(s'.client.mem, x) {
      assert Owners(s.client, s.input, s.output, x) == Live(s.client.mem, x);
      NewMoves(s.client.mem, FreshStats(s.client.layout), x);
    }
  }

  lemma InitKeepsStream(s: State, l: L.Step, s': State)
    requires Links(s) && MemOk(s.client.mem) && StreamPart(s)
    requires Lived(s, l, s') && l.InitDone? && l.i == ANALYZER && Links(s')
    ensures StreamPart(s')
  {
    assert OutIds(s'.client, s'.output) == OutIds(s.client, s.output);
    StreamSurvives(s.client, s'.client, InIds(s.input), OutIds(s.client, s.output));
  }

  /** Freeing the two, or the one, that the analyzer still has. */
  lemma FreesBoth(m: Memory, prev: Option<Id>, delta: Id, x: Id)
    requires MemOk(m) && delta in m.live && (prev.Some? ==> prev.value in m.live && prev.value != delta)
    ensures
      var m' := FreeIf(FreeIf(m, prev), Some(delta));
      MemOk(m') && Live(m', x) + IsOpt(true, prev, x) + Is(true, delta, x) == Live(m, x)
  {
    var m1 := FreeIf(m, prev);
    if prev.Some? { FreeMoves(m, prev.value, x); }
    FreeMoves(m1, delta, x);
  }

  lemma CleanupOwners(s: State, l: L.Step, s': State, x: Id)
    requires QueueLinks(s.client, s.input, s.output) && Lived(s, l, s') && l == L.CleanUp(ANALYZER)
    requires s'.output.phase.Keys == USERS
    requires s.client.analyzer.at.AIdle? && s.client.analyzer.delta.Some?
    ensures Owners(s.client, s.input, s.output, x)
         == Owners(s'.client, s'.input, s'.output, x)
            + IsOpt(true, s.client.analyzer.prev, x) + Is(true, s.client.analyzer.delta.value, x)
  {
  }

  /** analyzer_cleanup frees prev, if there is one, and delta. */
  lemma CleanupKeepsOwners(s: State, l: L.Step, s': State)
    requires Links(s) && MemOk(s.client.mem) && SingleOwners(s.client, s.input, s.output) && AnalyzerOk(s.client)
    requires Lived(s, l, s') && l == L.CleanUp(ANALYZER) && Links(s')
    ensures MemOk(s'.client.mem) && SingleOwners(s'.client, s'.input, s'.output)
  {
    var a := s.client.analyzer;
    AnalyzerOwnsAlone(s, a.delta.value);
    forall x: Id
      ensures MemOk(s'.client.mem) && Owners(s'.client, s'.input, s'.output, x) == Live(s'.client.mem, x)
    {
      assert Owners(s.client, s.input, s.output, x) == Live(s.client.mem, x);
      CleanupOwners(s, l, s', x);
      FreesBoth(s.client.mem, a.prev, a.delta.value, x);
    }
  }

  lemma FreesNoOther(m: Memory, prev: Option<Id>, delta: Option<Id>, x: Id)
    requires prev != Some(x) && delta != Some(x)
    ensures Same(m, FreeIf(FreeIf(m, prev), delta), x)
  {
  }

  lemma CleanupLeavesWays(s: State)
    requires Links(s) && SingleOwners(s.client, s.input, s.output) && AnalyzerOk(s.client)
    requires s.client.analyzer.at.AIdle? && s.client.analyzer.delta.Some?
    ensures LeavesWays(s, FreeIf(FreeIf(s.client.mem, s.client.analyzer.prev), s.client.analyzer.delta))
  {
    hide Owners, MemOk;
    var a := s.client.analyzer;
    AnalyzerOwnsAlone(s, a.delta.value);
    if a.prev.Some? { AnalyzerOwnsAlone(s, a.prev.value); }
    forall x: Id | a.prev != Some(x) && a.delta != Some(x)
      ensures Same(s.client.mem, FreeIf(FreeIf(s.client.mem, a.prev), a.delta), x)
    {
      FreesNoOther(s.client.mem, a.prev, a.delta, x);
    }
  }

  lemma CleanupChanges(s: State, l: L.Step, s': State)
    requires Links(s) && Lived(s, l, s') && l == L.CleanUp(ANALYZER)
    ensures s.client.analyzer.at.AIdle? && s.client.analyzer.delta.Some? && s'.input == s.input && s'.output == s.output
    ensures s'.client == s.client.(
              mem := FreeIf(FreeIf(s.client.mem, s.client.analyzer.prev), s.client.analyzer.delta),
              analyzer := s.client.analyzer.(at := ACleaned))
  {
  }

  lemma CleanedKeepsStream(c: Client, c': Client, input: AQ.State, output: AQ.State)
    requires input.phase.Keys == USERS && output.phase.Keys == USERS && c.analyzer.at.AIdle?
    requires StreamOk(c, InIds(input), OutIds(c, output), true, true) && AnalyzerOk(c)
    requires c' == c.(mem := c'.mem, analyzer := c.analyzer.(at := ACleaned))
    requires SameIn(c.mem, c'.mem, InIds(input)) && SameIn(c.mem, c'.mem, WayOut(c.printer, output))
    ensures StreamOk(c', InIds(input), OutIds(c', output), true, true) && AnalyzerOk(c')
  {
    assert OutIds(c', output) == WayOut(c.printer, output) == OutIds(c, output);
    StreamSurvives(c, c', InIds(input), OutIds(c, output));
  }

  lemma CleanupKeepsStream(s: State, l: L.Step, s': State)
    requires Links(s) && StreamPart(s) && SingleOwners(s.client, s.input, s.output)
    requires Lived(s, l, s') && l == L.CleanUp(ANALYZER) && Links(s')
    ensures StreamPart(s')
  {
    CleanupChanges(s, l, s');
    CleanupLeavesWays(s);
    CleanedKeepsStream(s.client, s'.client, s.input, s.output);
  }

  lemma LifeKeeps(s: State, l: L.Step)
    requires Flowing(s) && Enabled(s, Life(l)) && !l.Destroy?
    ensures Flowing(Apply(s, Life(l)))
  {
    var s' := Apply(s, Life(l));
    if Light(l) {
      LightStepKeeps(s, l, s');
    } else {
      LifeKeepsLinks(s, l, s');
      if l.InitDone? {
        InitKeepsOwners(s, l, s');
        InitKeepsStream(s, l, s');
      } else {
        CleanupKeepsOwners(s, l, s');
        CleanupKeepsStream(s, l, s');
      }
    }
  }

  // ---------- shutdown ----------

  /** When main destroys the queues, every body is at rest and every phase idle. */
  lemma AtRest(s: State)
    requires Links(s) && (s.life.main.Destroying? || s.life.main.Exited?)
    ensures s.client.reader.RIdle? && s.client.printer.PIdle?
    ensures s.client.analyzer.at.ACleaned? || (s.client.analyzer.at.AIdle? && s.client.analyzer.delta.None?)
    ensures forall t | t in USERS :: s.input.phase[t].Idle? && s.output.phase[t].Idle?
  {
    assert s.life.workers[ANALYZER].Ended? && s.life.workers[READER].Ended? && s.life.workers[PRINTER].Ended?;
  }

  /** So nothing but the life cycle moves any more. */
  lemma OnlyLifeMoves(s: State, step: Step)
    requires Links(s) && (s.life.main.Destroying? || s.life.main.Exited?) && Enabled(s, step)
    ensures step.Life?
  {
    AtRest(s);
  }

  /** Only the two queues own anything then. */
  lemma OnlyQueuesOwn(s: State, x: Id)
    requires Links(s) && (s.life.main.Destroying? || s.life.main.Exited?)
    ensures Owners(s.client, s.input, s.output, x) == multiset(s.input.items)[x] + multiset(s.output.items)[x]
  {
    AtRest(s);
  }

  lemma {:induction false} FreeAllMoves(m: Memory, ids: seq<Id>, x: Id)
    requires MemOk(m) && forall y: Id :: multiset(ids)[y] <= Live(m, y)
    ensures MemOk(FreeAll(m, ids)) && Live(FreeAll(m, ids), x) + multiset(ids)[x] == Live(m, x)
    decreases |ids|
  {
    if ids == [] {
    } else {
      var m' := Free(m, ids[0]);
      HeadCounts(ids, ids[0]);
      forall y: Id ensures multiset(ids[1..])[y] <= Live(m', y) {
        HeadCounts(ids, y);
        FreeMoves(m, ids[0], y);
      }
      HeadCounts(ids, x);
      FreeMoves(m, ids[0], x);
      FreeAllMoves(m', ids[1..], x);
    }
  }

  /** main destroys a queue, its deleter frees what is left in it, once each. */
  lemma DestroyKeepsOwners(s: State, which: Which, s': State)
    requires Links(s) && MemOk(s.client.mem) && SingleOwners(s.client, s.input, s.output)
    requires s.life.main == L.Destroying(if which.Input? then 0 else 1)
    requires s' == Apply(s, Life(L.Destroy)) && Enabled(s, Life(L.Destroy)) && Links(s')
    ensures MemOk(s'.client.mem) && SingleOwners(s'.client, s'.input, s'.output)
  {
    var ids: seq<Id> := Queue(s, which).items;
    forall y: Id ensures multiset(ids)[y] <= Live(s.client.mem, y) {
      assert Owners(s.client, s.input, s.output, y) == Live(s.client.mem, y);
    }
    forall x: Id ensures Owners(s'.client, s'.input, s'.output, x) == Live(s'.client.mem, x) && MemOk(s'.client.mem) {
      assert Owners(s.client, s.input, s.output, x) == Live(s.client.mem, x);
      OnlyQueuesOwn(s, x);
      OnlyQueuesOwn(s', x);
      FreeAllMoves(s.client.mem, ids, x);
    }
    FreeAllMoves(s.client.mem, ids, 0);
  }

  lemma DestroyKeepsLinks(s: State)
    requires Links(s) && Enabled(s, Life(L.Destroy))
    ensures Links(Apply(s, Life(L.Destroy)))
  {
    AtRest(s);
    L.ShutdownInvStep(s.life, L.Destroy);
  }

  lemma ClosingDestroy(s: State)
    requires Closing(s) && Enabled(s, Life(L.Destroy))
    ensures Closing(Apply(s, Life(L.Destroy)))
  {
    DestroyKeepsLinks(s);
    if s.life.main == L.Destroying(1) {
      DestroyKeepsOwners(s, Output, Apply(s, Life(L.Destroy)));
    }
  }

  lemma ClosingInterrupt(s: State, s': State)
    requires Closing(s) && Lived(s, L.Interrupted, s')
    ensures Closing(s')
  {
    LifeKeepsLinks(s, L.Interrupted, s');
  }

  lemma ClosingStep(s: State, step: Step)
    requires Closing(s) && Enabled(s, step)
    ensures Closing(Apply(s, step))
  {
    OnlyLifeMoves(s, step);
    if step.step.Destroy? {
      ClosingDestroy(s);
    } else {
      assert forall i | 0 <= i < L.WORKERS :: s.life.workers[i].Ended?;
      assert step.step.Interrupted?;
      ClosingInterrupt(s, Apply(s, step));
    }
  }

  lemma FirstDestroy(s: State)
    requires Flowing(s) && Open(s.life.main, Input) && Enabled(s, Life(L.Destroy))
    ensures Closing(Apply(s, Life(L.Destroy)))
  {
    DestroyKeepsLinks(s);
    DestroyKeepsOwners(s, Input, Apply(s, Life(L.Destroy)));
    DestroyKeepsReports(s, Apply(s, Life(L.Destroy)));
  }

  lemma DestroyKeepsReports(s: State, s': State)
    requires Flowing(s) && Enabled(s, Life(L.Destroy)) && s' == Apply(s, Life(L.Destroy))
    ensures CountsOk(s'.client) && (forall k: nat | k in s'.client.dropped :: k < Paired(s'.client))
    ensures s'.client.reports <= Stream(s'.client.accepted, s'.client.dropped, Paired(s'.client), s'.client.layout)
  {
    DestroyChangesMemory(s, s');
    ReportsArePrefix(s.client, s'.client, InIds(s.input), OutIds(s.client, s.output));
  }

  lemma DestroyChangesMemory(s: State, s': State)
    requires Enabled(s, Life(L.Destroy)) && s' == Apply(s, Life(L.Destroy))
    ensures s'.client == s.client.(mem := s'.client.mem)
  {
  }

  lemma ReportsArePrefix(c: Client, c': Client, ins: seq<Id>, outs: seq<Id>)
    requires StreamOk(c, ins, outs, true, true) && c' == c.(mem := c'.mem)
    ensures CountsOk(c') && (forall k: nat | k in c'.dropped :: k < Paired(c'))
    ensures c'.reports <= Stream(c'.accepted, c'.dropped, Paired(c'), c'.layout)
  {
  }
}
