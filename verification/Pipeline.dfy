/** reader.c, analyzer.c and printer.c around the two message queues, inside the worker life cycle
    of Lifecycle. The queues are atomic here; System puts the real ones in their place.
    Every statement that touches shared memory or a queue is a step of its own. Buffers are
    numbered in the order of their allocation and never reuse a number. */
module Pipeline {
  import opened Common
  import opened QueueCalls
  import opened CpuUsage
  import AQ = AtomicQueue
  import L = Lifecycle

  const READER: Tid := 0
  const ANALYZER: Tid := 1
  const PRINTER: Tid := 2
  const LOGGER: Tid := 3
  const USERS: set<Tid> := {READER, ANALYZER, PRINTER}

  // ---------- memory ----------

  type Id = Message

  datatype Buffer = Stats(grid: Grid) | Shares(line: seq<real>)

  /** `freed` counts how often each buffer was freed. `fault` goes up, for good, when a buffer
      that is not live is read, written or freed, or a queue is used after its destroy. */
  datatype Memory = Memory(live: map<Id, Buffer>, next: Id, freed: multiset<Id>, fault: bool)

  function New(m: Memory, b: Buffer): Memory {
    m.(live := m.live[m.next := b], next := m.next + 1)
  }

  function Free(m: Memory, id: Id): Memory {
    if id in m.live then m.(live := m.live - {id}, freed := m.freed + multiset{id}) else m.(fault := true)
  }

  function FreeIf(m: Memory, id: Option<Id>): Memory {
    if id.Some? then Free(m, id.value) else m
  }

  function FreeAll(m: Memory, ids: seq<Id>): Memory
    decreases |ids|
  {
    if ids == [] then m else FreeAll(Free(m, ids[0]), ids[1..])
  }

  function Store(m: Memory, id: Id, b: Buffer): Memory {
    if id in m.live then m.(live := m.live[id := b]) else m.(fault := true)
  }

  predicate IsStats(m: Memory, id: Id, layout: Layout) {
    id in m.live && m.live[id].Stats? && CpuUsage.Fits(m.live[id].grid, layout)
  }

  predicate IsShares(m: Memory, id: Id, layout: Layout) {
    id in m.live && m.live[id].Shares? && |m.live[id].line| == layout.rows
  }

  function Zeros(n: nat): seq<real> { seq(n, _ => 0.0) }

  function FreshStats(layout: Layout): Buffer { Stats(seq(layout.rows, _ => Zeros(layout.columns))) }

  function FreshShares(layout: Layout): Buffer { Shares(Zeros(layout.rows)) }

  // ---------- the three frame bodies ----------

  datatype Reader =
    | RIdle                   // outside reader_loop
    | ROpening
    | RAllocating
    | RReading(data: Id)
    | RDiscarding(data: Id)   // read or push failed
    | RPushing(data: Id)
    | RInPush(data: Id)
    | RSleeping
    | RDone(code: int)        // about to return

  datatype AnalyzerAt =
    | AIdle                   // outside analyzer_loop
    | ATesting                // at the loop test
    | AFetching
    | AInFetch
    | AAllocating             // curr and prev are there
    | AComputing
    | AFreeing                // about to free prev
    | APushing
    | AInPush
    | ADropping               // push failed
    | AShifting               // about to do prev = curr
    | ADone
    | ACleaned                // after analyzer_cleanup

  /** `domain->stack`, with the local `result`. */
  datatype Analyzer = Analyzer(
    at: AnalyzerAt, prev: Option<Id>, curr: Option<Id>, delta: Option<Id>, result: Option<Id>)

  datatype Printer =
    | PIdle
    | PFetching
    | PInFetch
    | PPrinting(data: Id)
    | PFreeing(data: Id)
    | PSleeping
    | PDone

  /** Everything but the life cycle and the queues. `crashed` goes up, for good, when
      stat_cpu_array_create_l is refused memory and stores through the NULL. `accepted`, `dropped` and
      `reports` are history: the snapshots pushed with success, the positions among them whose
      result was lost, and what was printed. */
  datatype Client = Client(
    layout: Layout,
    mem: Memory,
    crashed: bool,
    reader: Reader,
    analyzer: Analyzer,
    printer: Printer,
    accepted: seq<Grid>,
    taken: nat,
    dropped: set<nat>,
    reports: seq<seq<real>>)

  datatype Body =
    | ROpen(ok: bool)
    | RAlloc(ok: bool)
    | RRead(grid: Grid, ok: bool)
    | RDiscard
    | RPush
    | RPushed(result: Result)
    | RSleep
    | ATest(more: bool)
    | AFetch
    | AFetched(result: Result)
    | AAlloc(ok: bool)
    | ACompute
    | AFree
    | APush
    | APushed(result: Result)
    | ADrop
    | AShift
    | PFetch
    | PFetched(result: Result)
    | PPrint
    | PFree
    | PSleep

  predicate OfReader(b: Body) {
    b.ROpen? || b.RAlloc? || b.RRead? || b.RDiscard? || b.RPush? || b.RPushed? || b.RSleep?
  }

  predicate OfPrinter(b: Body) {
    b.PFetch? || b.PFetched? || b.PPrint? || b.PFree? || b.PSleep?
  }

  function WorkerOf(b: Body): Tid {
    if OfReader(b) then READER else if OfPrinter(b) then PRINTER else ANALYZER
  }

  predicate BodyEnabled(c: Client, b: Body) {
    match b
    case ROpen(_) => c.reader.ROpening?
    case RAlloc(_) => c.reader.RAllocating?
    case RRead(grid, _) => c.reader.RReading? && CpuUsage.Fits(grid, c.layout)
    case RDiscard => c.reader.RDiscarding?
    case RPush => c.reader.RPushing?
    case RPushed(_) => c.reader.RInPush?
    case RSleep => c.reader.RSleeping?
    case ATest(_) => c.analyzer.at.ATesting?
    case AFetch => c.analyzer.at.AFetching?
    case AFetched(_) => c.analyzer.at.AInFetch?
    case AAlloc(_) => c.analyzer.at.AAllocating?
    case ACompute => c.analyzer.at.AComputing?
    case AFree => c.analyzer.at.AFreeing?
    case APush => c.analyzer.at.APushing?
    case APushed(_) => c.analyzer.at.AInPush?
    case ADrop => c.analyzer.at.ADropping?
    case AShift => c.analyzer.at.AShifting?
    case PFetch => c.printer.PFetching?
    case PFetched(_) => c.printer.PInFetch?
    case PPrint => c.printer.PPrinting?
    case PFree => c.printer.PFreeing?
    case PSleep => c.printer.PSleeping?
  }

  /** Where the reader goes; `newId` is the number of a buffer allocated in this step. */
  function ReaderNext(r: Reader, b: Body, newId: Id): Reader
    requires OfReader(b)
  {
    match b
    case ROpen(ok) => if ok then RAllocating else RDone(-1)
    case RAlloc(ok) => if ok then RReading(newId) else RDone(0)
    case RRead(_, ok) => if !r.RReading? then r else if ok then RPushing(r.data) else RDiscarding(r.data)
    case RDiscard => RSleeping
    case RPush => if r.RPushing? then RInPush(r.data) else r
    case RPushed(result) => if result.Pushed? || !r.RInPush? then RSleeping else RDiscarding(r.data)
    case RSleep => RDone(0)
  }

  /** Where the analyzer goes, and what its four pointers become. */
  function AnalyzerNext(a: Analyzer, b: Body, newId: Id): Analyzer {
    match b
    case ATest(more) => a.(at := if more then AFetching else ADone)
    case AFetch => a.(at := AInFetch)
    case AFetched(result) =>
      if !result.Got? then a.(at := ATesting, curr := None)
      else a.(at := if a.prev.Some? then AAllocating else AShifting, curr := Some(result.message))
    case AAlloc(ok) =>
      if ok then a.(at := AComputing, result := Some(newId)) else a.(at := AFreeing, result := None)
    case ACompute => a.(at := AFreeing)
    case AFree => a.(at := if a.result.Some? then APushing else AShifting)
    case APush => a.(at := AInPush)
    case APushed(result) => a.(at := if result.Pushed? then AShifting else ADropping)
    case ADrop => a.(at := AShifting)
    case AShift => a.(at := ATesting, prev := a.curr)
    case _ => a
  }

  function PrinterNext(p: Printer, b: Body): Printer
    requires OfPrinter(b)
  {
    match b
    case PFetch => PInFetch
    case PFetched(result) => if result.Got? then PPrinting(result.message) else PDone
    case PPrint => if p.PPrinting? then PFreeing(p.data) else p
    case PFree => PSleeping
    case PSleep => PDone
  }

  /** stat_cpu_array_delta and stat_cpu_percentage_array_calculate: read prev and curr, write
      delta and result. */
  function Compute(m: Memory, layout: Layout, a: Analyzer): Memory {
    if && (layout.rows == 0 || layout.columns >= 8)
       && a.prev.Some? && a.curr.Some? && a.delta.Some? && a.result.Some?
       && IsStats(m, a.prev.value, layout) && IsStats(m, a.curr.value, layout)
       && IsStats(m, a.delta.value, layout) && IsShares(m, a.result.value, layout)
    then
      var delta := GridDelta(m.live[a.prev.value].grid, m.live[a.curr.value].grid, layout);
      Store(Store(m, a.delta.value, Stats(delta)), a.result.value, Shares(Percentages(delta, layout)))
    else m.(fault := true)
  }

  /** The printer reads every element of the line, and element 0 in any case. */
  predicate Printable(m: Memory, id: Id) {
    id in m.live && m.live[id].Shares? && m.live[id].line != []
  }

  /** stat_cpu_array_create_l tests neither malloc. Refused the outer block, it stores the first row
      through NULL; refused a row, it leaves NULL for the row's first access, which counts here at
      once. Only without rows is there nothing to store, and NULL comes out. */
  predicate CreationCrashes(layout: Layout) { layout.rows >= 1 }

  /** A NULL pointer was stored through, a dead buffer touched, or a destroyed queue used. */
  predicate Faulted(c: Client) { c.mem.fault || c.crashed }

  function MemNext(c: Client, b: Body): Memory
    requires BodyEnabled(c, b)
  {
    match b
    case RAlloc(ok) => if ok then New(c.mem, FreshStats(c.layout)) else c.mem
    case RRead(grid, _) => Store(c.mem, c.reader.data, Stats(grid))
    case RDiscard => Free(c.mem, c.reader.data)
    case AAlloc(ok) => if ok then New(c.mem, FreshShares(c.layout)) else c.mem
    case ACompute => Compute(c.mem, c.layout, c.analyzer)
    case AFree => FreeIf(c.mem, c.analyzer.prev)
    case ADrop => FreeIf(c.mem, c.analyzer.result)
    case PPrint => if Printable(c.mem, c.printer.data) then c.mem else c.mem.(fault := true)
    case PFree => Free(c.mem, c.printer.data)
    case _ => c.mem
  }

  function BodyApply(c: Client, b: Body): Client
    requires BodyEnabled(c, b)
  {
    var mem := MemNext(c, b);
    if OfReader(b) then
      c.(mem := mem, reader := ReaderNext(c.reader, b, c.mem.next),
         crashed := c.crashed || (b == RAlloc(false) && CreationCrashes(c.layout)))
    else if OfPrinter(b) then
      c.(mem := mem, printer := PrinterNext(c.printer, b),
         reports := if b.PPrint? && Printable(c.mem, c.printer.data)
                    then c.reports + [c.mem.live[c.printer.data].line] else c.reports)
    else
      c.(mem := mem, analyzer := AnalyzerNext(c.analyzer, b, c.mem.next),
         taken := if b.AFetched? && b.result.Got? then c.taken + 1 else c.taken,
         dropped := if (b.ADrop? || (b.AAlloc? && !b.ok)) && c.taken >= 2 then c.dropped + {c.taken - 2} else c.dropped)
  }

  // ---------- the life cycle, seen from the bodies ----------

  predicate LifeEnabled(c: Client, step: L.Step) {
    match step
    case InitDone(i, ok) => i != ANALYZER ==> ok
    case LoopDone(i, broke) =>
      && (i == READER ==> c.reader == RDone(if broke then -1 else 0))
      && (i == ANALYZER ==> c.analyzer.at.ADone? && !broke)
      && (i == PRINTER ==> c.printer.PDone? && !broke)
      && (i == LOGGER ==> !broke)
    case _ => true
  }

  /** `leftover` is what the queue that main is about to destroy still holds. */
  function LifeApply(c: Client, step: L.Step, leftover: seq<Id>): Client {
    match step
    case InitDone(i, ok) =>
      if i != ANALYZER then c
      else if !ok then
        c.(analyzer := Analyzer(AIdle, None, None, None, None), crashed := c.crashed || CreationCrashes(c.layout))
      else
        c.(mem := New(c.mem, FreshStats(c.layout)),
           analyzer := Analyzer(AIdle, None, None, Some(c.mem.next), None))
    case Report(i) =>
      if i == READER then c.(reader := ROpening)
      else if i == ANALYZER then c.(analyzer := c.analyzer.(at := ATesting))
      else if i == PRINTER then c.(printer := PFetching)
      else c
    case LoopDone(i, _) =>
      if i == READER then c.(reader := RIdle)
      else if i == ANALYZER then c.(analyzer := c.analyzer.(at := AIdle))
      else if i == PRINTER then c.(printer := PIdle)
      else c
    case CleanUp(i) =>
      if i != ANALYZER then c
      else
        c.(mem := FreeIf(FreeIf(c.mem, c.analyzer.prev), c.analyzer.delta),
           analyzer := c.analyzer.(at := ACleaned))
    case Destroy => c.(mem := FreeAll(c.mem, leftover))
    case _ => c
  }

  // ---------- the whole ----------

  datatype Which = Input | Output

  datatype State = State(life: L.State, client: Client, input: AQ.State, output: AQ.State)

  datatype Step =
    | Life(step: L.Step)
    | Do(body: Body)
    | Decide(which: Which, t: Tid, result: Result)

  /** The call a body step makes on a queue, or the return it takes from it. */
  function CallOf(c: Client, b: Body): Option<(Which, Op)>
    requires BodyEnabled(c, b)
  {
    match b
    case RPush => Some((Input, Push(Some(c.reader.data))))
    case AFetch => Some((Input, PopWaitT))
    case APush => Some((Output, Push(c.analyzer.result)))
    case PFetch => Some((Output, PopWaitT))
    case _ => None
  }

  function ReturnOf(b: Body): Option<(Which, Result)> {
    match b
    case RPushed(result) => Some((Input, result))
    case AFetched(result) => Some((Input, result))
    case APushed(result) => Some((Output, result))
    case PFetched(result) => Some((Output, result))
    case _ => None
  }

  /** main destroys the unprocessed queue first, then the processed one, then the log. */
  predicate Open(main: L.Main, which: Which) {
    match which
    case Input => !main.Exited? && !(main.Destroying? && main.i >= 1)
    case Output => !main.Exited? && !(main.Destroying? && main.i >= 2)
  }

  function Queue(s: State, which: Which): AQ.State {
    if which.Input? then s.input else s.output
  }

  function SetQueue(s: State, which: Which, q: AQ.State): State {
    if which.Input? then s.(input := q) else s.(output := q)
  }

  function Fault(c: Client): Client { c.(mem := c.mem.(fault := true)) }

  /** The queue main is about to destroy, if any. */
  function Doomed(main: L.Main): Option<Which> {
    if main == L.Destroying(0) then Some(Input) else if main == L.Destroying(1) then Some(Output) else None
  }

  predicate Enabled(s: State, step: Step) {
    && L.Wf(s.life)
    && match step
       case Life(l) => L.Enabled(s.life, l) && LifeEnabled(s.client, l)
       case Do(b) =>
         && s.life.workers[WorkerOf(b)].Looping?
         && BodyEnabled(s.client, b)
         && (match CallOf(s.client, b)
             case Some((which, op)) => AQ.Enabled(Queue(s, which), AQ.Call(WorkerOf(b), op))
             case None => true)
         && (match ReturnOf(b)
             case Some((which, result)) =>
               && AQ.Enabled(Queue(s, which), AQ.Return(WorkerOf(b)))
               && Queue(s, which).phase[WorkerOf(b)].result == result
             case None => true)
       case Decide(which, t, result) => AQ.Enabled(Queue(s, which), AQ.Decide(t, result))
  }

  /** A push into the unprocessed queue that takes effect is remembered. */
  function Accept(c: Client, which: Which, op: Op, result: Result): Client {
    if which.Input? && result.Pushed? && op.Push? && op.message.Some?
       && op.message.value in c.mem.live && c.mem.live[op.message.value].Stats?
    then c.(accepted := c.accepted + [c.mem.live[op.message.value].grid])
    else c
  }

  function Apply(s: State, step: Step): State
    requires Enabled(s, step)
  {
    match step
    case Life(l) =>
      var doomed := if l.Destroy? then Doomed(s.life.main) else None;
      var leftover := if doomed.Some? then Queue(s, doomed.value).items else [];
      var s' := s.(life := L.Apply(s.life, l), client := LifeApply(s.client, l, leftover));
      if doomed.Some? then SetQueue(s', doomed.value, Queue(s', doomed.value).(items := [])) else s'
    case Do(b) =>
      var s' := s.(client := BodyApply(s.client, b));
      (match CallOf(s.client, b)
       case Some((which, op)) =>
         var s'' := SetQueue(s', which, AQ.Apply(Queue(s, which), AQ.Call(WorkerOf(b), op)));
         if Open(s.life.main, which) then s'' else s''.(client := Fault(s''.client))
       case None =>
         match ReturnOf(b)
         case Some((which, _)) => SetQueue(s', which, AQ.Apply(Queue(s, which), AQ.Return(WorkerOf(b))))
         case None => s')
    case Decide(which, t, result) =>
      var op := Queue(s, which).phase[t].op;
      var s' := SetQueue(s, which, AQ.Apply(Queue(s, which), AQ.Decide(t, result)));
      var c := Accept(s.client, which, op, result);
      s'.(client := if Open(s.life.main, which) then c else Fault(c))
  }

  function InitialClient(layout: Layout): Client {
    Client(layout, Memory(map[], 0, multiset{}, false), false, RIdle, Analyzer(AIdle, None, None, None, None), PIdle,
           [], 0, {}, [])
  }

  predicate Initial(s: State) {
    && L.Initial(s.life)
    && s.client == InitialClient(s.client.layout)
    && s.input == AQ.State([], map t | t in USERS :: AQ.Idle)
    && s.output == AQ.State([], map t | t in USERS :: AQ.Idle)
  }

  predicate Runs(s: State, steps: seq<Step>)
    decreases |steps|
  {
    steps == [] || (Enabled(s, steps[0]) && Runs(Apply(s, steps[0]), steps[1..]))
  }

  function After(s: State, steps: seq<Step>): State
    requires Runs(s, steps)
    decreases |steps|
  {
    if steps == [] then s else After(Apply(s, steps[0]), steps[1..])
  }
}
