/** Every statement of the three frame bodies keeps the invariant of PipelineInvariant. */
module PipelineBodies {
  import opened Common
  import opened QueueCalls
  import opened CpuUsage
  import opened UsageStream
  import opened Pipeline
  import opened PipelineInvariant
  import AQ = AtomicQueue
  import L = Lifecycle

  // ---------- one statement of a frame body ----------

  /** The worker's phase on a queue after a statement: called, returned, or as it was. */
  function PhaseNext(c: Client, b: Body, which: Which, phase: AQ.Phase): AQ.Phase
    requires BodyEnabled(c, b)
  {
    match CallOf(c, b)
    case Some((w, op)) => if w == which then AQ.Pending(op) else phase
    case None =>
      match ReturnOf(b)
      case Some((w, _)) => if w == which then AQ.Idle else phase
      case None => phase
  }

  /** Worker `b` may execute its statement, as far as its own phases go. */
  predicate Ready(s: State, b: Body) {
    var w := WorkerOf(b);
    && L.Wf(s.life) && s.life.workers[w].Looping?
    && w in s.input.phase && w in s.output.phase
    && BodyEnabled(s.client, b)
    && (b.RPushed? || b.AFetched? ==> s.input.phase[w].Decided? && s.input.phase[w].result == b.result)
    && (b.APushed? || b.PFetched? ==> s.output.phase[w].Decided? && s.output.phase[w].result == b.result)
  }

  /** A statement changes the client as BodyApply says, the worker's own phases, and nothing else. */
  ghost predicate Moved(s: State, b: Body, s': State) {
    var w := WorkerOf(b);
    && Ready(s, b)
    && s'.life == s.life && s'.client == BodyApply(s.client, b)
    && s'.input == AQ.State(s.input.items, s.input.phase[w := PhaseNext(s.client, b, Input, s.input.phase[w])])
    && s'.output == AQ.State(s.output.items, s.output.phase[w := PhaseNext(s.client, b, Output, s.output.phase[w])])
  }

  lemma QueuesAreOpen(life: L.State, i: nat)
    requires L.Wf(life) && L.ShutdownInv(life) && i < L.WORKERS && !life.workers[i].Ended?
    ensures Open(life.main, Input) && Open(life.main, Output)
  {
  }

  lemma DoMoves(s: State, b: Body)
    requires Links(s) && Enabled(s, Do(b))
    ensures Moved(s, b, Apply(s, Do(b)))
  {
    QueuesAreOpen(s.life, WorkerOf(b));
    var s' := Apply(s, Do(b));
    assert s'.client == BodyApply(s.client, b);
  }

  function NewBy(b: Body, newId: Id, x: Id): nat {
    if ((b.RAlloc? && b.ok) || (b.AAlloc? && b.ok)) && x == newId then 1 else 0
  }

  function FreedBy(c: Client, b: Body, x: Id): nat
    requires BodyEnabled(c, b)
  {
    match b
    case RDiscard => Is(true, c.reader.data, x)
    case AFree => IsOpt(true, c.analyzer.prev, x)
    case ADrop => IsOpt(true, c.analyzer.result, x)
    case PFree => Is(true, c.printer.data, x)
    case _ => 0
  }

  lemma ReaderKeepsLinks(s: State, b: Body, s': State)
    requires Links(s) && Moved(s, b, s') && OfReader(b)
    ensures Links(s')
  {
  }

  lemma PrinterKeepsLinks(s: State, b: Body, s': State)
    requires Links(s) && Moved(s, b, s') && OfPrinter(b)
    ensures Links(s')
  {
  }

  lemma AnalyzerKeepsLinks(s: State, b: Body, s': State)
    requires Links(s) && AnalyzerOk(s.client) && Moved(s, b, s') && !OfReader(b) && !OfPrinter(b)
    ensures Links(s')
  {
  }

  lemma ReaderMovesOwners(s: State, b: Body, s': State, x: Id)
    requires QueueLinks(s.client, s.input, s.output) && Moved(s, b, s') && OfReader(b)
    ensures
      ReaderOwns(s'.client.reader, s'.input.phase[READER], x) + FreedBy(s.client, b, x)
      == ReaderOwns(s.client.reader, s.input.phase[READER], x) + NewBy(b, s.client.mem.next, x)
  {
  }

  lemma PrinterMovesOwners(s: State, b: Body, s': State, x: Id)
    requires QueueLinks(s.client, s.input, s.output) && Moved(s, b, s') && OfPrinter(b)
    ensures
      HandOwns(s'.output.phase[PRINTER], x) + PrinterOwns(s'.client.printer, x) + FreedBy(s.client, b, x)
      == HandOwns(s.output.phase[PRINTER], x) + PrinterOwns(s.client.printer, x)
  {
  }

  lemma AnalyzerMovesOwners(s: State, b: Body, s': State, x: Id)
    requires Links(s) && Moved(s, b, s') && !OfReader(b) && !OfPrinter(b) && AnalyzerOk(s.client)
    ensures
      HandOwns(s'.input.phase[ANALYZER], x)
      + AnalyzerOwns(s'.client.analyzer, s'.output.phase[ANALYZER], x) + FreedBy(s.client, b, x)
      == HandOwns(s.input.phase[ANALYZER], x)
         + AnalyzerOwns(s.client.analyzer, s.output.phase[ANALYZER], x) + NewBy(b, s.client.mem.next, x)
  {
  }

  function Live(m: Memory, x: Id): nat {
    if x in m.live then 1 else 0
  }

  lemma NewMoves(m: Memory, b: Buffer, x: Id)
    requires MemOk(m)
    ensures MemOk(New(m, b)) && Live(New(m, b), x) == Live(m, x) + Is(true, m.next, x)
  {
  }

  lemma FreeMoves(m: Memory, id: Id, x: Id)
    requires MemOk(m) && id in m.live
    ensures MemOk(Free(m, id)) && Live(Free(m, id), x) + Is(true, id, x) == Live(m, x)
  {
  }

  lemma StoreMoves(m: Memory, id: Id, b: Buffer)
    requires MemOk(m) && id in m.live
    ensures MemOk(Store(m, id, b)) && Store(m, id, b).live.Keys == m.live.Keys
  {
  }

  lemma ComputeMoves(c: Client)
    requires MemOk(c.mem) && AnalyzerOk(c) && c.analyzer.at.AComputing? && c.analyzer.delta.Some?
    requires AllFit(c.accepted, c.layout) && c.layout.columns >= 8
    ensures MemOk(Compute(c.mem, c.layout, c.analyzer))
    ensures Compute(c.mem, c.layout, c.analyzer).live.Keys == c.mem.live.Keys
  {
  }

  /** What a statement touches is live. */
  predicate TouchesLive(c: Client) {
    && (c.reader.RReading? || c.reader.RDiscarding? ==> c.reader.data in c.mem.live)
    && (c.printer.PFreeing? ==> c.printer.data in c.mem.live)
    && (c.printer.PPrinting? ==> IsShares(c.mem, c.printer.data, c.layout))
    && (c.analyzer.at.AFreeing? ==> c.analyzer.prev.Some? && c.analyzer.prev.value in c.mem.live)
    && (c.analyzer.at.ADropping? ==> c.analyzer.result.Some? && c.analyzer.result.value in c.mem.live)
  }

  /** What a statement does to memory. */
  lemma MemoryMoves(c: Client, b: Body, x: Id)
    requires BodyEnabled(c, b) && MemOk(c.mem) && TouchesLive(c) && AnalyzerOk(c)
    requires c.analyzer.at.AComputing? ==> c.analyzer.delta.Some?
    requires AllFit(c.accepted, c.layout) && c.layout.rows >= 1 && c.layout.columns >= 8
    ensures MemOk(MemNext(c, b))
    ensures Live(MemNext(c, b), x) + FreedBy(c, b, x) == Live(c.mem, x) + NewBy(b, c.mem.next, x)
  {
    match b
    case RAlloc(ok) => NewMoves(c.mem, FreshStats(c.layout), x);
    case AAlloc(ok) => NewMoves(c.mem, FreshShares(c.layout), x);
    case RRead(grid, _) => StoreMoves(c.mem, c.reader.data, Stats(grid));
    case ACompute => ComputeMoves(c);
    case RDiscard => FreeMoves(c.mem, c.reader.data, x);
    case PFree => FreeMoves(c.mem, c.printer.data, x);
    case AFree => FreeMoves(c.mem, c.analyzer.prev.value, x);
    case ADrop => FreeMoves(c.mem, c.analyzer.result.value, x);
    case _ =>
  }

  /** What is owned is live, so what a statement touches is. */
  lemma OwnedIsLive(s: State)
    requires Links(s) && SingleOwners(s.client, s.input, s.output) && AnalyzerOk(s.client)
    requires s.client.printer.PPrinting? ==> IsShares(s.client.mem, s.client.printer.data, s.client.layout)
    ensures TouchesLive(s.client) && (s.client.analyzer.at.AComputing? ==> s.client.analyzer.delta.Some?)
  {
    var c := s.client;
    if c.reader.RReading? || c.reader.RDiscarding? {
      assert Owners(c, s.input, s.output, c.reader.data) >= 1;
    }
    if c.printer.PFreeing? {
      assert Owners(c, s.input, s.output, c.printer.data) >= 1;
    }
    if c.analyzer.at.ADropping? {
      assert Owners(c, s.input, s.output, c.analyzer.result.value) >= 1;
    }
  }

  lemma MoveKeepsOwner(s: State, b: Body, s': State, x: Id)
    requires Links(s) && Moved(s, b, s') && Links(s') && AnalyzerOk(s.client)
    ensures Owners(s'.client, s'.input, s'.output, x) + FreedBy(s.client, b, x)
            == Owners(s.client, s.input, s.output, x) + NewBy(b, s.client.mem.next, x)
  {
    if OfReader(b) {
      ReaderMovesOwners(s, b, s', x);
    } else if OfPrinter(b) {
      PrinterMovesOwners(s, b, s', x);
    } else {
      AnalyzerMovesOwners(s, b, s', x);
    }
  }

  lemma MoveKeepsOwners(s: State, b: Body, s': State)
    requires Links(s) && Moved(s, b, s') && Links(s')
    requires MemOk(s.client.mem) && SingleOwners(s.client, s.input, s.output)
    requires TouchesLive(s.client) && AnalyzerOk(s.client)
    requires s.client.analyzer.at.AComputing? ==> s.client.analyzer.delta.Some?
    requires AllFit(s.client.accepted, s.client.layout) && s.client.layout.rows >= 1 && s.client.layout.columns >= 8
    ensures MemOk(s'.client.mem) && SingleOwners(s'.client, s'.input, s'.output)
  {
    hide Owners, MemNext, TouchesLive, AnalyzerOk, FreedBy, NewBy, MemOk;
    MemoryMoves(s.client, b, 0);
    forall x
      ensures Owners(s'.client, s'.input, s'.output, x) == Live(s'.client.mem, x)
    {
      assert Owners(s.client, s.input, s.output, x) == Live(s.client.mem, x);
      MemoryMoves(s.client, b, x);
      MoveKeepsOwner(s, b, s', x);
    }
  }

  // ---------- what a statement leaves alone ----------

  /** The contents of the buffers in `ids` are the same in both memories. */
  ghost predicate SameIn(m: Memory, m': Memory, ids: seq<Id>) {
    forall i | 0 <= i < |ids| && ids[i] in m.live :: ids[i] in m'.live && m'.live[ids[i]] == m.live[ids[i]]
  }

  predicate Same(m: Memory, m': Memory, id: Id) {
    id in m.live ==> id in m'.live && m'.live[id] == m.live[id]
  }

  predicate SameOpt(m: Memory, m': Memory, id: Option<Id>) {
    id.Some? ==> Same(m, m', id.value)
  }

  /** The analyzer's own buffers are as they were. */
  predicate SameForAnalyzer(m: Memory, m': Memory, a: Analyzer) {
    && (OwnsPrev(a.at) ==> SameOpt(m, m', a.prev)) && (OwnsCurr(a.at) ==> SameOpt(m, m', a.curr))
    && (a.at.AComputing? ==> SameOpt(m, m', a.result)) && (!a.at.ACleaned? ==> SameOpt(m, m', a.delta))
  }

  predicate Other(owned: bool, id: Option<Id>, x: Id) {
    owned ==> id != Some(x)
  }

  /** Buffer `x` is none of those on the way to the analyzer or to the terminal. */
  ghost predicate ApartFromQueues(c: Client, input: AQ.State, output: AQ.State, x: Id)
    requires input.phase.Keys == USERS && output.phase.Keys == USERS
  {
    && (forall i | 0 <= i < |InIds(input)| :: InIds(input)[i] != x)
    && (forall i | 0 <= i < |OutIds(c, output)| :: OutIds(c, output)[i] != x)
  }

  predicate ApartFromAnalyzer(a: Analyzer, x: Id) {
    && Other(OwnsPrev(a.at), a.prev, x) && Other(OwnsCurr(a.at), a.curr, x)
    && Other(a.at.AComputing?, a.result, x) && Other(!a.at.ACleaned?, a.delta, x)
  }

  lemma NoOwnersMeansApart(c: Client, input: AQ.State, output: AQ.State, x: Id)
    requires input.phase.Keys == USERS && output.phase.Keys == USERS
    requires multiset(input.items)[x] == 0 && multiset(output.items)[x] == 0
    requires HandOwns(input.phase[ANALYZER], x) == 0 && HandOwns(output.phase[PRINTER], x) == 0
    requires c.printer.PPrinting? ==> c.printer.data != x
    requires x !in PendingIds(c.analyzer, output.phase[ANALYZER])
    ensures ApartFromQueues(c, input, output, x)
  {
    assert x !in input.items && x !in output.items;
  }

  lemma ReaderDataIsApart(s: State)
    requires QueueLinks(s.client, s.input, s.output) && SingleOwners(s.client, s.input, s.output)
    requires ReaderOwnsData(s.client.reader, s.input.phase[READER])
    ensures ApartFromQueues(s.client, s.input, s.output, s.client.reader.data)
    ensures ApartFromAnalyzer(s.client.analyzer, s.client.reader.data)
  {
    var x := s.client.reader.data;
    assert Owners(s.client, s.input, s.output, x) <= 1;
    NoOwnersMeansApart(s.client, s.input, s.output, x);
  }

  lemma PrinterDataIsApart(s: State)
    requires Links(s) && SingleOwners(s.client, s.input, s.output) && s.client.printer.PFreeing?
    ensures ApartFromQueues(s.client, s.input, s.output, s.client.printer.data)
    ensures ApartFromAnalyzer(s.client.analyzer, s.client.printer.data)
    ensures ReaderOwnsData(s.client.reader, s.input.phase[READER]) ==> s.client.reader.data != s.client.printer.data
  {
    var x := s.client.printer.data;
    assert Owners(s.client, s.input, s.output, x) <= 1;
    NoOwnersMeansApart(s.client, s.input, s.output, x);
  }

  /** Everything but `x` is as it was. */
  ghost predicate SameBut(m: Memory, m': Memory, x: Id) {
    forall id: Id | id in m.live && id != x :: id in m'.live && m'.live[id] == m.live[id]
  }

  lemma ApartMeansSame(s: State, m': Memory, x: Id)
    requires QueueLinks(s.client, s.input, s.output) && SameBut(s.client.mem, m', x)
    requires ApartFromQueues(s.client, s.input, s.output, x) && ApartFromAnalyzer(s.client.analyzer, x)
    ensures SameIn(s.client.mem, m', InIds(s.input)) && SameIn(s.client.mem, m', OutIds(s.client, s.output))
    ensures SameForAnalyzer(s.client.mem, m', s.client.analyzer)
  {
  }

  lemma LinesSame(m: Memory, m': Memory, ids: seq<Id>, layout: Layout)
    requires SameIn(m, m', ids) && forall i | 0 <= i < |ids| :: IsShares(m, ids[i], layout)
    ensures Lines(m', ids) == Lines(m, ids) && forall i | 0 <= i < |ids| :: IsShares(m', ids[i], layout)
  {
    forall i | 0 <= i < |ids| ensures LineAt(m', ids[i]) == LineAt(m, ids[i]) && IsShares(m', ids[i], layout) {
      assert IsShares(m, ids[i], layout);
    }
  }

  lemma InsSurvive(m: Memory, m': Memory, accepted: seq<Grid>, taken: nat, ins: seq<Id>)
    requires taken <= |accepted| && InsOk(m, accepted, taken, ins, true) && SameIn(m, m', ins)
    ensures InsOk(m', accepted, taken, ins, true)
  {
    forall i | 0 <= i < |ins| ensures Holds(m', Some(ins[i]), accepted[taken + i]) {
      assert Holds(m, Some(ins[i]), accepted[taken + i]);
    }
  }

  /** A step that moves no snapshot and no result and leaves their contents alone. */
  lemma StreamSurvives(c: Client, c': Client, ins: seq<Id>, outs: seq<Id>)
    requires StreamOk(c, ins, outs, true, true)
    requires c'.layout == c.layout && c'.accepted == c.accepted && c'.taken == c.taken && c'.dropped == c.dropped
    requires c'.reports == c.reports && Paired(c') == Paired(c) && (HasResult(c'.analyzer) ==> HasResult(c.analyzer))
    requires SameIn(c.mem, c'.mem, ins) && SameIn(c.mem, c'.mem, outs)
    ensures StreamOk(c', ins, outs, true, true)
  {
    LinesSame(c.mem, c'.mem, outs, c.layout);
    InsSurvive(c.mem, c'.mem, c.accepted, c.taken, ins);
  }

  lemma AnalyzerSurvives(c: Client, c': Client)
    requires AnalyzerOk(c) && c'.analyzer == c.analyzer && c'.taken == c.taken && c'.accepted == c.accepted
    requires c'.layout == c.layout && SameForAnalyzer(c.mem, c'.mem, c.analyzer)
    ensures AnalyzerOk(c')
  {
  }

  lemma ReaderKeepsContents(s: State, b: Body, s': State)
    requires QueueLinks(s.client, s.input, s.output) && MemOk(s.client.mem) && SingleOwners(s.client, s.input, s.output)
    requires Moved(s, b, s') && OfReader(b) && QueueLinks(s'.client, s'.input, s'.output)
    ensures SameIn(s.client.mem, s'.client.mem, InIds(s.input))
    ensures SameIn(s.client.mem, s'.client.mem, OutIds(s.client, s.output))
    ensures SameForAnalyzer(s.client.mem, s'.client.mem, s.client.analyzer)
    ensures InIds(s'.input) == InIds(s.input) && OutIds(s'.client, s'.output) == OutIds(s.client, s.output)
  {
    if b.RRead? || b.RDiscard? {
      ReaderDataIsApart(s);
      ApartMeansSame(s, s'.client.mem, s.client.reader.data);
    }
  }

  lemma ReaderStaysOk(s: State, b: Body, s': State)
    requires QueueLinks(s.client, s.input, s.output) && ReaderOk(s.client, s.input.phase[READER])
    requires Moved(s, b, s') && OfReader(b) && QueueLinks(s'.client, s'.input, s'.output)
    ensures ReaderOk(s'.client, s'.input.phase[READER])
  {
  }

  lemma ReaderKeepsStream(s: State, b: Body, s': State)
    requires Flowing(s) && Moved(s, b, s') && OfReader(b) && QueueLinks(s'.client, s'.input, s'.output)
    ensures StreamPart(s')
  {
    ReaderKeepsContents(s, b, s');
    ReaderStaysOk(s, b, s');
    StreamSurvives(s.client, s'.client, InIds(s.input), OutIds(s.client, s.output));
    AnalyzerSurvives(s.client, s'.client);
  }

  // The printer.

  lemma PrinterKeepsReader(s: State, b: Body, s': State)
    requires Links(s) && SingleOwners(s.client, s.input, s.output) && ReaderOk(s.client, s.input.phase[READER])
    requires Moved(s, b, s') && OfPrinter(b)
    ensures ReaderOk(s'.client, s'.input.phase[READER])
  {
    if b.PFree? {
      PrinterDataIsApart(s);
    }
  }

  lemma SameLiveMeansSame(c: Client, input: AQ.State, output: AQ.State, m': Memory)
    requires input.phase.Keys == USERS && output.phase.Keys == USERS && m'.live == c.mem.live
    ensures SameIn(c.mem, m', InIds(input)) && SameIn(c.mem, m', OutIds(c, output))
    ensures SameForAnalyzer(c.mem, m', c.analyzer)
  {
  }

  /** What the printer does to the memory: it frees the line it has printed, and nothing else. */
  lemma PrinterMemory(c: Client, b: Body)
    requires BodyEnabled(c, b) && OfPrinter(b)
    ensures if b.PFree? then BodyApply(c, b).mem == Free(c.mem, c.printer.data) else BodyApply(c, b).mem.live == c.mem.live
  {
  }

  lemma PrinterKeepsContents(s: State, b: Body, s': State)
    requires Links(s) && SingleOwners(s.client, s.input, s.output)
    requires Moved(s, b, s') && OfPrinter(b)
    ensures SameIn(s.client.mem, s'.client.mem, InIds(s.input))
    ensures SameIn(s.client.mem, s'.client.mem, OutIds(s.client, s.output))
    ensures SameForAnalyzer(s.client.mem, s'.client.mem, s.client.analyzer)
    ensures s'.input == s.input
  {
    PrinterMemory(s.client, b);
    if b.PFree? {
      PrinterDataIsApart(s);
      ApartMeansSame(s, s'.client.mem, s.client.printer.data);
    } else {
      SameLiveMeansSame(s.client, s.input, s.output, s'.client.mem);
    }
  }

  /** Printing moves the first line on the way into the reports. */
  lemma PrintingMovesLine(s: State, s': State)
    requires QueueLinks(s.client, s.input, s.output) && Moved(s, PPrint, s')
    requires OutsOk(s.client.mem, s.client.layout, OutIds(s.client, s.output)) && s.client.layout.rows >= 1
    ensures
      var outs := OutIds(s.client, s.output);
      && s'.output.phase == s.output.phase
      && outs != [] && OutIds(s'.client, s'.output) == outs[1..]
      && s'.client.reports == s.client.reports + [LineAt(s.client.mem, outs[0])]
  {
    assert IsShares(s.client.mem, OutIds(s.client, s.output)[0], s.client.layout);
  }

  /** Everything else the printer does leaves the lines on the way, and the reports, alone. */
  lemma PrinterLeavesLines(s: State, b: Body, s': State)
    requires QueueLinks(s.client, s.input, s.output) && Moved(s, b, s') && OfPrinter(b) && !b.PPrint?
    ensures s'.output.phase.Keys == USERS
    ensures OutIds(s'.client, s'.output) == OutIds(s.client, s.output) && s'.client.reports == s.client.reports
  {
    assert s'.client.analyzer == s.client.analyzer && s'.output.phase[ANALYZER] == s.output.phase[ANALYZER];
    assert WayOut(s'.client.printer, s'.output) == WayOut(s.client.printer, s.output);
  }

  lemma LinesSplit(m: Memory, ids: seq<Id>)
    requires ids != []
    ensures Lines(m, ids) == [LineAt(m, ids[0])] + Lines(m, ids[1..])
  {
  }

  lemma PrintedLine(c: Client, c': Client, ins: seq<Id>, outs: seq<Id>)
    requires StreamOk(c, ins, outs, true, true) && outs != []
    requires c' == c.(printer := c'.printer, reports := c.reports + [LineAt(c.mem, outs[0])])
    ensures StreamOk(c', ins, outs[1..], true, true)
  {
    LinesSplit(c.mem, outs);
    assert c.reports + ([LineAt(c.mem, outs[0])] + Lines(c.mem, outs[1..])) == c'.reports + Lines(c.mem, outs[1..]);
  }

  lemma PrintingKeepsStream(s: State, s': State)
    requires QueueLinks(s.client, s.input, s.output) && StreamPart(s) && Moved(s, PPrint, s')
    ensures StreamOk(s'.client, InIds(s.input), OutIds(s'.client, s'.output), true, true)
  {
    var outs := OutIds(s.client, s.output);
    PrintingMovesLine(s, s');
    assert IsShares(s.client.mem, outs[0], s.client.layout);
    PrintedLine(s.client, s'.client, InIds(s.input), outs);
  }

  lemma PrinterKeepsStream(s: State, b: Body, s': State)
    requires Flowing(s) && Moved(s, b, s') && OfPrinter(b) && Links(s')
    ensures StreamPart(s')
  {
    PrinterKeepsReader(s, b, s');
    PrinterKeepsContents(s, b, s');
    AnalyzerSurvives(s.client, s'.client);
    if b.PPrint? {
      PrintingKeepsStream(s, s');
    } else {
      PrinterLeavesLines(s, b, s');
      StreamSurvives(s.client, s'.client, InIds(s.input), OutIds(s.client, s.output));
    }
  }

  // The analyzer. What a statement does to the two ways is one lemma, what it does to the
  // balance another.

  /** A statement of the analyzer takes a snapshot off the way in, or puts a result on the way
      out or off it. */
  predicate Ways(c: Client, b: Body, ins: seq<Id>, ins': seq<Id>, outs: seq<Id>, outs': seq<Id>) {
    && (if b.AFetched? && b.result.Got? then ins != [] && ins[0] == b.result.message && ins' == ins[1..]
        else ins' == ins)
    && (if b.ACompute? && c.analyzer.result.Some? then outs' == outs + [c.analyzer.result.value]
        else if b.ADrop? && c.analyzer.result.Some? then outs == outs' + [c.analyzer.result.value]
        else outs' == outs)
  }

  lemma AnalyzerWays(s: State, b: Body, s': State)
    requires Links(s) && Moved(s, b, s') && !OfReader(b) && !OfPrinter(b) && Links(s')
    ensures Ways(s.client, b, InIds(s.input), InIds(s'.input), OutIds(s.client, s.output), OutIds(s'.client, s'.output))
    ensures s'.input.phase[READER] == s.input.phase[READER]
  {
  }

  lemma FetchKeepsStream(c: Client, c': Client, m: Id, ins: seq<Id>, outs: seq<Id>)
    requires StreamOk(c, ins, outs, true, true) && AnalyzerOk(c)
    requires BodyEnabled(c, AFetched(Got(m))) && c' == BodyApply(c, AFetched(Got(m)))
    requires ins != [] && ins[0] == m
    ensures StreamOk(c', ins[1..], outs, true, true) && AnalyzerOk(c')
  {
    assert Holds(c.mem, Some(ins[0]), c.accepted[c.taken + 0]);
    forall i | 0 <= i < |ins[1..]| ensures Holds(c.mem, Some(ins[1..][i]), c.accepted[c.taken + 1 + i]) {
      assert Holds(c.mem, Some(ins[i + 1]), c.accepted[c.taken + (i + 1)]);
    }
  }

  /** What the analyzer owns, nobody else does. */
  lemma AnalyzerOwnsAlone(s: State, x: Id)
    requires Links(s) && SingleOwners(s.client, s.input, s.output)
    requires AnalyzerOwns(s.client.analyzer, s.output.phase[ANALYZER], x) >= 1
    ensures AnalyzerOwns(s.client.analyzer, s.output.phase[ANALYZER], x) == 1
    ensures x !in InIds(s.input) && x !in WayOut(s.client.printer, s.output)
    ensures ReaderOwnsData(s.client.reader, s.input.phase[READER]) ==> s.client.reader.data != x
  {
    assert Owners(s.client, s.input, s.output, x) <= 1;
    assert x !in s.input.items && x !in s.output.items;
  }

  lemma AllocKeepsStream(c: Client, c': Client, ins: seq<Id>, outs: seq<Id>)
    requires StreamOk(c, ins, outs, true, true) && AnalyzerOk(c) && MemOk(c.mem)
    requires BodyEnabled(c, AAlloc(true)) && c' == BodyApply(c, AAlloc(true))
    ensures StreamOk(c', ins, outs, true, true) && AnalyzerOk(c')
  {
    StreamSurvives(c, c', ins, outs);
  }

  lemma FailedAllocKeepsStream(c: Client, c': Client, ins: seq<Id>, outs: seq<Id>)
    requires StreamOk(c, ins, outs, true, true) && AnalyzerOk(c)
    requires BodyEnabled(c, AAlloc(false)) && c' == BodyApply(c, AAlloc(false))
    ensures StreamOk(c', ins, outs, true, true) && AnalyzerOk(c')
  {
    StreamFrame(c.accepted, c.accepted, c.dropped, c'.dropped, Paired(c), c.layout);
  }

  /** The result of a pair is the next element of the stream. */
  lemma ComputeKeepsStream(c: Client, c': Client, ins: seq<Id>, outs: seq<Id>)
    requires StreamOk(c, ins, outs, true, true) && AnalyzerOk(c)
    requires BodyEnabled(c, ACompute) && c' == BodyApply(c, ACompute)
    requires c.analyzer.delta.Some? && SameIn(c.mem, c'.mem, ins) && SameIn(c.mem, c'.mem, outs)
    requires c.analyzer.delta != c.analyzer.result
    requires c.analyzer.curr != c.analyzer.delta && c.analyzer.curr != c.analyzer.result
    requires c.analyzer.prev != c.analyzer.delta && c.analyzer.prev != c.analyzer.result
    ensures StreamOk(c', ins, outs + [c.analyzer.result.value], true, true) && AnalyzerOk(c')
  {
    var id := c.analyzer.result.value;
    LinesSame(c.mem, c'.mem, outs, c.layout);
    InsSurvive(c.mem, c'.mem, c.accepted, c.taken, ins);
    var usage := Usage(c.accepted[c.taken - 2], c.accepted[c.taken - 1], c.layout);
    assert c'.mem.live[id] == Shares(usage);
    assert Lines(c'.mem, outs + [id]) == Lines(c'.mem, outs) + [usage];
    assert c.reports + (Lines(c.mem, outs) + [usage]) == c.reports + Lines(c.mem, outs) + [usage];
  }

  lemma FreeKeepsStream(c: Client, c': Client, ins: seq<Id>, outs: seq<Id>)
    requires StreamOk(c, ins, outs, true, true) && AnalyzerOk(c)
    requires BodyEnabled(c, AFree) && c' == BodyApply(c, AFree)
    requires SameIn(c.mem, c'.mem, ins) && SameIn(c.mem, c'.mem, outs)
    requires c.analyzer.delta != c.analyzer.prev && c.analyzer.curr != c.analyzer.prev
    ensures StreamOk(c', ins, outs, true, true) && AnalyzerOk(c')
  {
    StreamSurvives(c, c', ins, outs);
  }

  /** A result whose push failed leaves the stream: its pair is dropped. */
  lemma DropKeepsStream(c: Client, c': Client, ins: seq<Id>, outs: seq<Id>)
    requires AnalyzerOk(c) && BodyEnabled(c, ADrop) && c' == BodyApply(c, ADrop)
    requires StreamOk(c, ins, outs + [c.analyzer.result.value], true, true)
    requires SameIn(c.mem, c'.mem, ins) && SameIn(c.mem, c'.mem, outs)
    requires c.analyzer.delta != c.analyzer.result && c.analyzer.curr != c.analyzer.result
    ensures StreamOk(c', ins, outs, true, true) && AnalyzerOk(c')
  {
    var id := c.analyzer.result.value;
    var all := outs + [id];
    var n := Paired(c);
    assert forall i | 0 <= i < |outs| :: outs[i] == all[i];
    assert OutsOk(c.mem, c.layout, outs);
    LinesSame(c.mem, c'.mem, outs, c.layout);
    InsSurvive(c.mem, c'.mem, c.accepted, c.taken, ins);
    assert Lines(c.mem, all) == Lines(c.mem, outs) + [LineAt(c.mem, id)];
    assert (c.reports + Lines(c.mem, all))[..|c.reports + Lines(c.mem, all)| - 1] == c.reports + Lines(c.mem, outs);
    StreamFrame(c.accepted, c.accepted, c.dropped, c'.dropped, n - 1, c.layout);
  }

  lemma ShiftKeepsStream(c: Client, c': Client, ins: seq<Id>, outs: seq<Id>)
    requires StreamOk(c, ins, outs, true, true) && AnalyzerOk(c)
    requires BodyEnabled(c, AShift) && c' == BodyApply(c, AShift)
    ensures StreamOk(c', ins, outs, true, true) && AnalyzerOk(c')
  {
    StreamSurvives(c, c', ins, outs);
  }

  /** The statements that touch neither memory nor the two ways. */
  predicate Quiet(b: Body) {
    b.ATest? || b.AFetch? || (b.AFetched? && !b.result.Got?) || b.APush? || b.APushed?
  }

  lemma QuietKeepsStream(c: Client, b: Body, c': Client, ins: seq<Id>, outs: seq<Id>)
    requires StreamOk(c, ins, outs, true, true) && AnalyzerOk(c) && Quiet(b) && BodyEnabled(c, b)
    requires c' == c.(analyzer := AnalyzerNext(c.analyzer, b, c.mem.next))
    ensures StreamOk(c', ins, outs, true, true) && AnalyzerOk(c')
  {
    assert Paired(c') == Paired(c);
    assert HasResult(c'.analyzer) ==> HasResult(c.analyzer);
    StreamSurvives(c, c', ins, outs);
  }

  /** The analyzer's statements leave alone the buffers on the two ways, and those of its own that
      they do not mean. */
  predicate Untangled(c: Client, b: Body) {
    var a := c.analyzer;
    && (b.ACompute? ==> a.delta.Some? && a.result.Some? && a.result != a.delta && a.result != a.curr
                        && a.prev != a.delta && a.prev != a.result && a.curr != a.delta)
    && (b.AFree? ==> a.prev.Some? && a.prev != a.delta && a.prev != a.curr)
    && (b.ADrop? ==> a.result.Some? && a.result != a.delta && a.result != a.curr)
  }

  lemma StatementKeepsStream(
      c: Client, b: Body, c': Client, ins: seq<Id>, ins': seq<Id>, outs: seq<Id>, outs': seq<Id>)
    requires StreamOk(c, ins, outs, true, true) && AnalyzerOk(c) && MemOk(c.mem)
    requires !OfReader(b) && !OfPrinter(b) && BodyEnabled(c, b) && c' == BodyApply(c, b)
    requires Ways(c, b, ins, ins', outs, outs') && Untangled(c, b)
    requires b.ACompute? || b.AFree? || b.ADrop? ==>
               SameIn(c.mem, c'.mem, ins) && SameIn(c.mem, c'.mem, if b.ADrop? then outs' else outs)
    ensures StreamOk(c', ins', outs', true, true) && AnalyzerOk(c')
  {
    match b
    case AFetched(result) =>
      if result.Got? { FetchKeepsStream(c, c', result.message, ins, outs); }
      else { QuietKeepsStream(c, b, c', ins, outs); }
    case AAlloc(ok) =>
      if ok { AllocKeepsStream(c, c', ins, outs); } else { FailedAllocKeepsStream(c, c', ins, outs); }
    case ACompute => ComputeKeepsStream(c, c', ins, outs);
    case AFree => FreeKeepsStream(c, c', ins, outs);
    case ADrop => DropKeepsStream(c, c', ins, outs');
    case AShift => ShiftKeepsStream(c, c', ins, outs);
    case _ => QuietKeepsStream(c, b, c', ins, outs);
  }

  ghost predicate LeavesWays(s: State, m': Memory) {
    && s.input.phase.Keys == USERS && s.output.phase.Keys == USERS
    && SameIn(s.client.mem, m', InIds(s.input)) && SameIn(s.client.mem, m', WayOut(s.client.printer, s.output))
    && (ReaderOwnsData(s.client.reader, s.input.phase[READER]) ==> Same(s.client.mem, m', s.client.reader.data))
  }

  lemma ComputeLeavesWays(s: State)
    requires Links(s) && SingleOwners(s.client, s.input, s.output) && AnalyzerOk(s.client)
    requires s.client.analyzer.at.AComputing?
    ensures LeavesWays(s, MemNext(s.client, ACompute)) && Untangled(s.client, ACompute)
  {
    var a := s.client.analyzer;
    AnalyzerOwnsAlone(s, a.delta.value);
    AnalyzerOwnsAlone(s, a.result.value);
  }

  lemma FreeLeavesWays(s: State)
    requires Links(s) && SingleOwners(s.client, s.input, s.output) && AnalyzerOk(s.client)
    requires s.client.analyzer.at.AFreeing?
    ensures LeavesWays(s, MemNext(s.client, AFree)) && Untangled(s.client, AFree)
    ensures SameIn(s.client.mem, MemNext(s.client, AFree), OutIds(s.client, s.output))
  {
    AnalyzerOwnsAlone(s, s.client.analyzer.prev.value);
  }

  lemma DropLeavesWays(s: State)
    requires Links(s) && SingleOwners(s.client, s.input, s.output) && AnalyzerOk(s.client)
    requires s.client.analyzer.at.ADropping?
    ensures LeavesWays(s, MemNext(s.client, ADrop)) && Untangled(s.client, ADrop)
  {
    AnalyzerOwnsAlone(s, s.client.analyzer.result.value);
  }

  lemma AnalyzerKeepsReader(s: State, b: Body, s': State)
    requires QueueLinks(s.client, s.input, s.output) && ReaderOk(s.client, s.input.phase[READER])
    requires Moved(s, b, s') && QueueLinks(s'.client, s'.input, s'.output)
    requires MemOk(s.client.mem) && !OfReader(b) && !OfPrinter(b)
    requires b.ACompute? || b.AFree? || b.ADrop? ==> LeavesWays(s, s'.client.mem)
    ensures ReaderOk(s'.client, s'.input.phase[READER])
  {
  }

  /** The statements of the analyzer that write or free leave the two ways alone. */
  lemma AnalyzerLeavesWays(s: State, b: Body, s': State)
    requires Links(s) && SingleOwners(s.client, s.input, s.output) && AnalyzerOk(s.client)
    requires Moved(s, b, s') && !OfReader(b) && !OfPrinter(b) && Links(s')
    ensures Untangled(s.client, b)
    ensures b.ACompute? || b.AFree? || b.ADrop? ==> LeavesWays(s, s'.client.mem)
    ensures b.ACompute? || b.AFree? ==> SameIn(s.client.mem, s'.client.mem, OutIds(s.client, s.output))
    ensures b.ADrop? ==> OutIds(s'.client, s'.output) == WayOut(s.client.printer, s.output)
  {
    if b.ACompute? {
      ComputeLeavesWays(s);
    } else if b.AFree? {
      FreeLeavesWays(s);
    } else if b.ADrop? {
      DropLeavesWays(s);
    }
  }

  lemma AnalyzerKeepsStream(s: State, b: Body, s': State)
    requires Flowing(s) && Moved(s, b, s') && !OfReader(b) && !OfPrinter(b) && Links(s')
    ensures StreamPart(s')
  {
    AnalyzerWays(s, b, s');
    AnalyzerLeavesWays(s, b, s');
    AnalyzerKeepsReader(s, b, s');
    StatementKeepsStream(s.client, b, s'.client, InIds(s.input), InIds(s'.input),
                         OutIds(s.client, s.output), OutIds(s'.client, s'.output));
  }

  lemma DoKeepsLinks(s: State, b: Body)
    requires Flowing(s) && Enabled(s, Do(b))
    ensures Moved(s, b, Apply(s, Do(b))) && Links(Apply(s, Do(b)))
  {
    var s' := Apply(s, Do(b));
    DoMoves(s, b);
    if OfReader(b) {
      ReaderKeepsLinks(s, b, s');
    } else if OfPrinter(b) {
      PrinterKeepsLinks(s, b, s');
    } else {
      AnalyzerKeepsLinks(s, b, s');
    }
  }

  lemma MoveKeepsStream(s: State, b: Body, s': State)
    requires Flowing(s) && Moved(s, b, s') && Links(s')
    ensures StreamPart(s')
  {
    if OfReader(b) {
      ReaderKeepsStream(s, b, s');
    } else if OfPrinter(b) {
      PrinterKeepsStream(s, b, s');
    } else {
      AnalyzerKeepsStream(s, b, s');
    }
  }

  lemma MoveKeepsMemory(s: State, b: Body, s': State)
    requires Flowing(s) && Moved(s, b, s') && Links(s')
    ensures MemOk(s'.client.mem) && SingleOwners(s'.client, s'.input, s'.output)
  {
    if s.client.printer.PPrinting? {
      assert OutIds(s.client, s.output)[0] == s.client.printer.data;
    }
    OwnedIsLive(s);
    MoveKeepsOwners(s, b, s');
  }

  /** One statement of any frame body. */
  lemma DoKeeps(s: State, b: Body)
    requires Flowing(s) && Enabled(s, Do(b))
    ensures Flowing(Apply(s, Do(b)))
  {
    var s' := Apply(s, Do(b));
    DoKeepsLinks(s, b);
    MoveKeepsMemory(s, b, s');
    MoveKeepsStream(s, b, s');
  }
}
