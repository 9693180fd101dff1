/** Which snapshots enter the first queue, told from the statements of the reader alone: what a read that
    succeeded has stored, if the push after it succeeds. */
module PipelineReads {
  import opened Common
  import opened QueueCalls
  import opened CpuUsage
  import opened UsageStream
  import opened Pipeline
  import opened PipelineInvariant
  import opened PipelineBodies
  import opened PipelineProof
  import opened PipelineRuns
  import AQ = AtomicQueue
  import L = Lifecycle

  /** `handed` are the grids read whose push has returned success, in order; `read` is what the last read
      brought, if it succeeded and its push has not returned. */
  datatype Account = Account(handed: seq<Grid>, read: Option<Grid>)

  const NOTHING := Account([], None)

  function Noted(a: Account, b: Body): Account {
    match b
    case RRead(grid, ok) => a.(read := if ok then Some(grid) else None)
    case RPushed(result) =>
      Account(if result.Pushed? && a.read.Some? then a.handed + [a.read.value] else a.handed, None)
    case _ => a
  }

  function NotedStep(a: Account, step: Step): Account {
    if step.Do? then Noted(a, step.body) else a
  }

  function NotedAlong(a: Account, steps: seq<Step>): Account
    decreases |steps|
  {
    if steps == [] then a else NotedAlong(NotedStep(a, steps[0]), steps[1..])
  }

  /** The reader's push has taken effect and not returned yet. */
  predicate InFlight(r: Reader, phase: AQ.Phase) {
    r.RInPush? && HasPushed(phase)
  }

  /** The grids handed over, that of a push in flight included. */
  function Handed(a: Account, inFlight: bool): seq<Grid> {
    if inFlight && a.read.Some? then a.handed + [a.read.value] else a.handed
  }

  /** What the reader is about to push is what it read, and what was accepted is what was handed over. */
  predicate Accounts(c: Client, phase: AQ.Phase, a: Account) {
    && (c.reader.RPushing? || c.reader.RInPush? ==>
          a.read.Some? && (HasPushed(phase) || Holds(c.mem, Some(c.reader.data), a.read.value)))
    && c.accepted == Handed(a, InFlight(c.reader, phase))
  }

  // ---------- what the steps do to that ----------

  lemma ReaderAccounts(s: State, b: Body, s': State, a: Account)
    requires QueueLinks(s.client, s.input, s.output) && ReaderOk(s.client, s.input.phase[READER])
    requires Moved(s, b, s') && OfReader(b)
    requires Accounts(s.client, s.input.phase[READER], a)
    ensures Accounts(s'.client, s'.input.phase[READER], Noted(a, b))
  {
  }

  /** Somebody else has moved, and left what the reader holds alone. */
  lemma OthersAccount(c: Client, c': Client, phase: AQ.Phase, a: Account)
    requires Accounts(c, phase, a) && c'.accepted == c.accepted && c'.reader == c.reader
    requires ReaderOwnsData(c.reader, phase) ==> Same(c.mem, c'.mem, c.reader.data)
    ensures Accounts(c', phase, a)
  {
  }

  lemma AnalyzerLeavesReader(s: State, b: Body, s': State)
    requires Flowing(s) && Moved(s, b, s') && !OfReader(b) && !OfPrinter(b) && Links(s')
    requires ReaderOwnsData(s.client.reader, s.input.phase[READER])
    ensures Same(s.client.mem, s'.client.mem, s.client.reader.data)
  {
    AnalyzerLeavesWays(s, b, s');
  }

  lemma PrinterLeavesReader(s: State, b: Body, s': State)
    requires Flowing(s) && Moved(s, b, s') && OfPrinter(b)
    requires ReaderOwnsData(s.client.reader, s.input.phase[READER])
    ensures Same(s.client.mem, s'.client.mem, s.client.reader.data)
  {
    PrinterMemory(s.client, b);
    if b.PFree? {
      PrinterDataIsApart(s);
    }
  }

  lemma DoAccounts(s: State, b: Body, a: Account)
    requires Flowing(s) && Enabled(s, Do(b)) && Accounts(s.client, s.input.phase[READER], a)
    ensures
      var s' := Apply(s, Do(b));
      READER in s'.input.phase && Accounts(s'.client, s'.input.phase[READER], Noted(a, b))
  {
    var s' := Apply(s, Do(b));
    DoKeepsLinks(s, b);
    if OfReader(b) {
      ReaderAccounts(s, b, s', a);
    } else {
      if ReaderOwnsData(s.client.reader, s.input.phase[READER]) {
        if OfPrinter(b) {
          PrinterLeavesReader(s, b, s');
        } else {
          AnalyzerLeavesReader(s, b, s');
        }
      }
      OthersAccount(s.client, s'.client, s.input.phase[READER], a);
    }
  }

  lemma DecideAccounts(s: State, which: Which, t: Tid, result: Result, a: Account)
    requires Flowing(s) && Enabled(s, Decide(which, t, result)) && Accounts(s.client, s.input.phase[READER], a)
    ensures
      var s' := Apply(s, Decide(which, t, result));
      READER in s'.input.phase && Accounts(s'.client, s'.input.phase[READER], a)
  {
    WhoDecides(s, which, t, result);
  }

  lemma CleanupLeavesReader(s: State, s': State)
    requires Flowing(s) && Lived(s, L.CleanUp(ANALYZER), s') && ReaderOwnsData(s.client.reader, s.input.phase[READER])
    ensures s'.client.reader == s.client.reader && Same(s.client.mem, s'.client.mem, s.client.reader.data)
  {
    hide MemOk, SingleOwners, StreamPart, Lived, LeavesWays;
    CleanupChanges(s, L.CleanUp(ANALYZER), s');
    FlowingHasAnalyzer(s);
    CleanupLeavesWays(s);
    WaysLeaveReader(s, FreeIf(FreeIf(s.client.mem, s.client.analyzer.prev), s.client.analyzer.delta));
  }

  lemma FlowingHasAnalyzer(s: State)
    requires Flowing(s)
    ensures AnalyzerOk(s.client)
  {
  }

  lemma WaysLeaveReader(s: State, m': Memory)
    requires LeavesWays(s, m') && ReaderOwnsData(s.client.reader, s.input.phase[READER])
    ensures Same(s.client.mem, m', s.client.reader.data)
  {
  }

  lemma LifeLeavesReader(s: State, l: L.Step, s': State)
    requires Flowing(s) && Lived(s, l, s') && ReaderOwnsData(s.client.reader, s.input.phase[READER])
    ensures s'.client.reader == s.client.reader && Same(s.client.mem, s'.client.mem, s.client.reader.data)
  {
    hide SingleOwners, StreamPart;
    if l == L.CleanUp(ANALYZER) {
      CleanupLeavesReader(s, s');
    }
  }

  lemma LifeAccounts(s: State, l: L.Step, a: Account)
    requires Flowing(s) && Enabled(s, Life(l)) && !l.Destroy? && Accounts(s.client, s.input.phase[READER], a)
    ensures
      var s' := Apply(s, Life(l));
      READER in s'.input.phase && Accounts(s'.client, s'.input.phase[READER], a)
  {
    var s' := Apply(s, Life(l));
    if ReaderOwnsData(s.client.reader, s.input.phase[READER]) {
      LifeLeavesReader(s, l, s');
    }
  }

  /** At rest the reader is about to push nothing. */
  lemma RestAccounts(c: Client, c': Client, phase: AQ.Phase, phase': AQ.Phase, a: Account)
    requires Accounts(c, phase, a) && c.reader.RIdle? && c'.reader.RIdle? && c'.accepted == c.accepted
    ensures Accounts(c', phase', a)
  {
  }

  lemma ClosingAccounts(s: State, step: Step, a: Account)
    requires Links(s) && (s.life.main.Destroying? || s.life.main.Exited?) && Enabled(s, step)
    requires Accounts(s.client, s.input.phase[READER], a)
    ensures
      var s' := Apply(s, step);
      READER in s'.input.phase && Accounts(s'.client, s'.input.phase[READER], NotedStep(a, step))
  {
    OnlyLifeMoves(s, step);
    AtRest(s);
    var s' := Apply(s, step);
    assert s'.client.reader.RIdle? && s'.client.accepted == s.client.accepted by {
      assert forall ids :: LifeApply(s.client, step.step, ids).accepted == s.client.accepted;
    }
    RestAccounts(s.client, s'.client, s.input.phase[READER], s'.input.phase[READER], a);
  }

  lemma StepAccounts(s: State, step: Step, a: Account)
    requires Inv(s) && Enabled(s, step) && READER in s.input.phase && Accounts(s.client, s.input.phase[READER], a)
    ensures
      var s' := Apply(s, step);
      READER in s'.input.phase && Accounts(s'.client, s'.input.phase[READER], NotedStep(a, step))
  {
    if s.life.main.Destroying? || s.life.main.Exited? {
      ClosingAccounts(s, step, a);
    } else {
      match step
      case Do(b) => DoAccounts(s, b, a);
      case Decide(which, t, result) => DecideAccounts(s, which, t, result, a);
      case Life(l) => LifeAccounts(s, l, a);
    }
  }

  lemma {:induction false} AccountsAlong(s: State, steps: seq<Step>, a: Account)
    requires Inv(s) && Runs(s, steps) && READER in s.input.phase && Accounts(s.client, s.input.phase[READER], a)
    ensures
      var s' := After(s, steps);
      READER in s'.input.phase && Accounts(s'.client, s'.input.phase[READER], NotedAlong(a, steps))
    decreases |steps|
  {
    if steps == [] {
    } else {
      StepKeeps(s, steps[0]);
      StepAccounts(s, steps[0], a);
      AccountsAlong(Apply(s, steps[0]), steps[1..], NotedStep(a, steps[0]));
    }
  }

  // ---------- the main result ----------

  /** End to end: what is printed is a prefix of the usage of consecutive pairs of the grids that the reader
      read with success and pushed with success, in that order, without the dropped pairs. */
  lemma {:induction false} ReportsArePrefixOfReads(s: State, steps: seq<Step>)
    requires Initial(s) && GoodLayout(s.client.layout) && Runs(s, steps)
    ensures
      var s' := After(s, steps);
      var c := s'.client;
      && READER in s'.input.phase
      && var grids := Handed(NotedAlong(NOTHING, steps), InFlight(c.reader, s'.input.phase[READER]));
      && c.accepted == grids
      && AllFit(grids, c.layout) && GoodLayout(c.layout)
      && (forall k: nat | k in c.dropped :: k < Pairs(grids))
      && c.reports <= Stream(grids, c.dropped, Pairs(grids), c.layout)
  {
    InitialInv(s);
    AccountsAlong(s, steps, NOTHING);
    ReportsArePrefixOfStream(s, steps);
  }
}
