/** What every run of the pipeline keeps: each buffer has exactly one owner, no step reads, writes
    or frees a buffer that is not live, and the reports follow one function of the snapshots. */
module PipelineInvariant {
  import opened Common
  import opened QueueCalls
  import opened CpuUsage
  import opened UsageStream
  import opened Pipeline
  import AQ = AtomicQueue
  import L = Lifecycle

  // ---------- memory and owners ----------

  /** No fault; a buffer that is not live any more was freed exactly once, a live one never. */
  ghost predicate MemOk(m: Memory) {
    && !m.fault
    && (forall id: Id | id in m.live :: id < m.next)
    && (forall id: Id :: m.freed[id] == if id < m.next && id !in m.live then 1 else 0)
  }

  function Is(owned: bool, id: Id, x: Id): nat {
    if owned && id == x then 1 else 0
  }

  function IsOpt(owned: bool, id: Option<Id>, x: Id): nat {
    if owned && id == Some(x) then 1 else 0
  }

  /** A message that a pop has taken out of the queue and not yet returned. */
  function Hand(phase: AQ.Phase): seq<Id> {
    if phase.Decided? && phase.result.Got? then [phase.result.message] else []
  }

  predicate HasPushed(phase: AQ.Phase) {
    phase.Decided? && phase.result.Pushed?
  }

  predicate ReaderOwnsData(r: Reader, phase: AQ.Phase) {
    r.RReading? || r.RDiscarding? || r.RPushing? || (r.RInPush? && !HasPushed(phase))
  }

  function ReaderOwns(r: Reader, phase: AQ.Phase, x: Id): nat {
    if ReaderOwnsData(r, phase) && r.data == x then 1 else 0
  }

  function HandOwns(phase: AQ.Phase, x: Id): nat {
    if phase.Decided? && phase.result == Got(x) then 1 else 0
  }

  predicate OwnsPrev(at: AnalyzerAt) {
    !at.APushing? && !at.AInPush? && !at.ADropping? && !at.AShifting? && !at.ACleaned?
  }

  predicate OwnsCurr(at: AnalyzerAt) {
    at.AAllocating? || at.AComputing? || at.AFreeing? || at.APushing? || at.AInPush? || at.ADropping? || at.AShifting?
  }

  predicate OwnsResult(at: AnalyzerAt, phase: AQ.Phase) {
    at.AComputing? || at.AFreeing? || at.APushing? || at.ADropping? || (at.AInPush? && !HasPushed(phase))
  }

  /** prev and curr alias from the end of an iteration to the next fetch: counted once. */
  function AnalyzerOwns(a: Analyzer, push: AQ.Phase, x: Id): nat {
    IsOpt(OwnsPrev(a.at), a.prev, x) + IsOpt(OwnsCurr(a.at), a.curr, x)
    + IsOpt(OwnsResult(a.at, push), a.result, x) + IsOpt(!a.at.ACleaned?, a.delta, x)
  }

  function PrinterOwns(p: Printer, x: Id): nat {
    if (p.PPrinting? || p.PFreeing?) && p.data == x then 1 else 0
  }

  /** How many owners buffer `x` has: the reader, a queue, the analyzer or the printer, a message
      that a pop has taken out and not yet returned included. */
  function Owners(c: Client, input: AQ.State, output: AQ.State, x: Id): nat
    requires input.phase.Keys == USERS && output.phase.Keys == USERS
  {
    ReaderOwns(c.reader, input.phase[READER], x)
    + multiset(input.items)[x]
    + HandOwns(input.phase[ANALYZER], x) + AnalyzerOwns(c.analyzer, output.phase[ANALYZER], x)
    + multiset(output.items)[x]
    + HandOwns(output.phase[PRINTER], x) + PrinterOwns(c.printer, x)
  }

  /** Every live buffer has exactly one owner, and nobody owns anything else. */
  ghost predicate SingleOwners(c: Client, input: AQ.State, output: AQ.State)
    requires input.phase.Keys == USERS && output.phase.Keys == USERS
  {
    forall x: Id :: Owners(c, input, output, x) == if x in c.mem.live then 1 else 0
  }

  // ---------- who is where ----------

  predicate PhaseIs(phase: AQ.Phase, op: Op) {
    (phase.Pending? || phase.Decided?) && phase.op == op && (phase.Decided? ==> QueueCalls.Fits(op, phase.result))
  }

  /** A thread is inside a queue operation exactly when its body says so. */
  predicate QueueLinks(c: Client, input: AQ.State, output: AQ.State) {
    && input.phase.Keys == USERS && output.phase.Keys == USERS
    && (if c.reader.RInPush? then PhaseIs(input.phase[READER], Push(Some(c.reader.data))) else input.phase[READER].Idle?)
    && (if c.analyzer.at.AInFetch? then PhaseIs(input.phase[ANALYZER], PopWaitT) else input.phase[ANALYZER].Idle?)
    && input.phase[PRINTER].Idle?
    && output.phase[READER].Idle?
    && (if c.analyzer.at.AInPush? then PhaseIs(output.phase[ANALYZER], Push(c.analyzer.result))
        else output.phase[ANALYZER].Idle?)
    && (if c.printer.PInFetch? then PhaseIs(output.phase[PRINTER], PopWaitT) else output.phase[PRINTER].Idle?)
  }

  /** A body is active exactly while its worker is in frame.loop. */
  predicate LifeLinks(life: L.State, c: Client)
    requires L.Wf(life)
  {
    && (life.workers[READER].Looping? <==> !c.reader.RIdle?)
    && (life.workers[PRINTER].Looping? <==> !c.printer.PIdle?)
    && (life.workers[ANALYZER].Looping? <==> !c.analyzer.at.AIdle? && !c.analyzer.at.ACleaned?)
    && (c.analyzer.at.ACleaned? <==> life.workers[ANALYZER] == L.Ended(0))
    && (c.analyzer.delta.Some? <==> L.Initialised(life.workers[ANALYZER]))
    && (c.analyzer.delta.None? ==> c.analyzer.prev.None? && c.taken == 0)
  }

  predicate Holds(m: Memory, id: Option<Id>, g: Grid) {
    id.Some? && id.value in m.live && m.live[id.value] == Stats(g)
  }

  predicate ReaderOk(c: Client, phase: AQ.Phase) {
    ReaderOwnsData(c.reader, phase) ==> IsStats(c.mem, c.reader.data, c.layout)
  }

  /** Which pointers the analyzer has at each point, and what they point to, in terms of the
      `taken` snapshots it has received so far. */
  predicate AnalyzerOk(c: Client) {
    var a := c.analyzer;
    && c.taken <= |c.accepted|
    && (a.delta.Some? && !a.at.ACleaned? ==> IsStats(c.mem, a.delta.value, c.layout))
    && (if OwnsCurr(a.at) then
          && c.taken >= 1 && Holds(c.mem, a.curr, c.accepted[c.taken - 1])
          && (!a.at.AShifting? ==> c.taken >= 2)
          && (OwnsPrev(a.at) ==> Holds(c.mem, a.prev, c.accepted[c.taken - 2]))
          && (a.at.AComputing? || a.at.APushing? || a.at.AInPush? || a.at.ADropping? ==> a.result.Some?)
          && (a.at.AComputing? ==> IsShares(c.mem, a.result.value, c.layout))
        else a.at.ACleaned? || (if c.taken == 0 then a.prev.None? else Holds(c.mem, a.prev, c.accepted[c.taken - 1])))
  }

  // ---------- the stream of reports ----------

  function LineAt(m: Memory, id: Id): seq<real> {
    if id in m.live && m.live[id].Shares? then m.live[id].line else []
  }

  function Lines(m: Memory, ids: seq<Id>): seq<seq<real>> {
    seq(|ids|, i requires 0 <= i < |ids| => LineAt(m, ids[i]))
  }

  predicate HasResult(a: Analyzer) {
    (a.at.AFreeing? && a.result.Some?) || a.at.APushing? || a.at.AInPush? || a.at.ADropping?
  }

  /** The snapshots on their way to the analyzer. */
  function InIds(input: AQ.State): seq<Id>
    requires input.phase.Keys == USERS
  {
    Hand(input.phase[ANALYZER]) + input.items
  }

  /** A result that is computed, and not yet in the queue or given up. */
  function PendingIds(a: Analyzer, phase: AQ.Phase): seq<Id> {
    if !a.at.AComputing? && OwnsResult(a.at, phase) && a.result.Some? then [a.result.value] else []
  }

  /** The results that have left the analyzer and are not printed yet, in order. */
  function WayOut(p: Printer, output: AQ.State): seq<Id>
    requires output.phase.Keys == USERS
  {
    (if p.PPrinting? then [p.data] else []) + Hand(output.phase[PRINTER]) + output.items
  }

  function OutIds(c: Client, output: AQ.State): seq<Id>
    requires output.phase.Keys == USERS
  {
    WayOut(c.printer, output) + PendingIds(c.analyzer, output.phase[ANALYZER])
  }

  /** How many pairs of snapshots the analyzer is through with. */
  function Paired(c: Client): nat {
    var n := if c.analyzer.at.AAllocating? || c.analyzer.at.AComputing? then c.taken - 2 else c.taken - 1;
    if n < 0 then 0 else n
  }

  predicate CountsOk(c: Client) {
    && c.layout.rows >= 1 && c.layout.columns >= 8
    && AllFit(c.accepted, c.layout)
    && c.taken <= |c.accepted|
  }

  /** The buffers on the way to the analyzer hold the snapshots it has not received yet, in order. */
  ghost predicate InsOk(m: Memory, accepted: seq<Grid>, taken: nat, ins: seq<Id>, open: bool)
    requires taken <= |accepted|
  {
    && (if open then |accepted| == taken + |ins| else ins == [])
    && forall i | 0 <= i < |ins| :: Holds(m, Some(ins[i]), accepted[taken + i])
  }

  ghost predicate OutsOk(m: Memory, layout: Layout, outs: seq<Id>) {
    forall i | 0 <= i < |outs| :: IsShares(m, outs[i], layout)
  }

  /** What is printed, followed by what is on the way to the terminal, is the stream so far. */
  ghost predicate Balanced(c: Client, outs: seq<Id>, open: bool)
    requires CountsOk(c)
  {
    && (forall k: nat | k in c.dropped :: k < Paired(c))
    && (HasResult(c.analyzer) ==> c.taken - 2 !in c.dropped)
    && var stream := Stream(c.accepted, c.dropped, Paired(c), c.layout);
    && if open then c.reports + Lines(c.mem, outs) == stream else c.reports <= stream
  }

  ghost predicate StreamOk(c: Client, ins: seq<Id>, outs: seq<Id>, inputOpen: bool, outputOpen: bool) {
    && CountsOk(c)
    && InsOk(c.mem, c.accepted, c.taken, ins, inputOpen)
    && OutsOk(c.mem, c.layout, outs)
    && Balanced(c, outs, outputOpen)
  }

  ghost predicate Links(s: State) {
    L.Wf(s.life) && L.ShutdownInv(s.life) && QueueLinks(s.client, s.input, s.output) && LifeLinks(s.life, s.client)
  }

  ghost predicate StreamPart(s: State)
    requires s.input.phase.Keys == USERS && s.output.phase.Keys == USERS
  {
    && ReaderOk(s.client, s.input.phase[READER]) && AnalyzerOk(s.client)
    && StreamOk(s.client, InIds(s.input), OutIds(s.client, s.output), true, true)
  }

  /** The parts of the invariant that a statement of a frame body needs. */
  ghost predicate Flowing(s: State) {
    Links(s) && MemOk(s.client.mem) && SingleOwners(s.client, s.input, s.output) && StreamPart(s)
  }

  /** After main has destroyed the first queue: the workers have ended, nobody but the second
      queue owns anything, and the reports are a prefix of the stream. */
  ghost predicate Closing(s: State) {
    && Links(s) && (s.life.main.Destroying? || s.life.main.Exited?)
    && MemOk(s.client.mem) && SingleOwners(s.client, s.input, s.output)
    && s.input.items == [] && (s.life.main != L.Destroying(1) ==> s.output.items == [])
    && CountsOk(s.client)
    && (forall k: nat | k in s.client.dropped :: k < Paired(s.client))
    && s.client.reports <= Stream(s.client.accepted, s.client.dropped, Paired(s.client), s.client.layout)
  }

  ghost predicate Inv(s: State) {
    L.Wf(s.life) && if Open(s.life.main, Input) then Flowing(s) else Closing(s)
  }
}
