/** In which order the threads of the program do things, told from the moves of a run alone: the life cycle
    is that of Lifecycle, and inside an iteration each statement is followed by the one the code has next. */
module ThreadOrder {
  import opened Common
  import opened QueueCalls
  import CpuUsage
  import opened Pipeline
  import opened System
  import S = System
  import PI = PipelineInvariant
  import PP = PipelineProof
  import L = Lifecycle
  import LO = LifecycleOrder

  // ---------- the life cycle ----------

  /** The life cycle steps of a run. */
  function LifeOf(moves: seq<Move>): seq<L.Step> {
    if moves == [] then [] else
    if moves[0].Live? then [moves[0].step] + LifeOf(moves[1..]) else LifeOf(moves[1..])
  }

  /** They are a run of Lifecycle, so what Lifecycle and LifecycleOrder say of runs holds in the program. */
  lemma {:induction false} ProgramLives(s: Program, moves: seq<Move>)
    requires L.Wf(s.life) && S.Runs(s, moves)
    ensures L.Runs(s.life, LifeOf(moves)) && L.After(s.life, LifeOf(moves)) == S.After(s, moves).life
    decreases |moves|
  {
    if moves == [] {
    } else {
      ProgramLives(Moved(s, moves[0]), moves[1..]);
      if moves[0].Live? {
        assert LifeOf(moves)[1..] == LifeOf(moves[1..]);
      }
    }
  }

  // ---------- waiting ----------

  predicate OfThread(move: Move, w: nat) {
    match move
    case Live(l) => LO.OfWorker(l, w)
    case Execute(b) => WorkerOf(b) == w
    case Inside(_, _) => false
  }

  /** Where worker `w` stands is the same in both. */
  predicate Stands(s: Program, s': Program, w: nat) {
    && L.Wf(s.life) && L.Wf(s'.life) && w < L.WORKERS && s'.life.workers[w] == s.life.workers[w]
    && (w == READER ==> s'.client.reader == s.client.reader)
    && (w == ANALYZER ==> s'.client.analyzer == s.client.analyzer)
    && (w == PRINTER ==> s'.client.printer == s.client.printer)
  }

  lemma ExecuteLeavesOthers(s: Program, b: Body, w: nat)
    requires CanMove(s, Execute(b)) && WorkerOf(b) != w && w < L.WORKERS
    ensures Stands(s, Moved(s, Execute(b)), w)
  {
    assert Moved(s, Execute(b)).client.reader == BodyApply(s.client, b).reader;
  }

  lemma LiveLeavesOthers(s: Program, l: L.Step, w: nat)
    requires CanMove(s, Live(l)) && !LO.OfWorker(l, w) && w < L.WORKERS && !s.life.workers[w].NotStarted?
    ensures Stands(s, Moved(s, Live(l)), w)
  {
    LiveMoves(s, l);
  }

  lemma LiveMoves(s: Program, l: L.Step)
    requires CanMove(s, Live(l))
    ensures
      var c, c' := LifeApply(s.client, l, []), Moved(s, Live(l)).client;
      c'.reader == c.reader && c'.analyzer == c.analyzer && c'.printer == c.printer
    ensures Moved(s, Live(l)).life == L.Apply(s.life, l)
  {
    assert forall ids ::
        && LifeApply(s.client, l, ids).reader == LifeApply(s.client, l, []).reader
        && LifeApply(s.client, l, ids).analyzer == LifeApply(s.client, l, []).analyzer
        && LifeApply(s.client, l, ids).printer == LifeApply(s.client, l, []).printer;
  }

  lemma OthersMove(s: Program, move: Move, w: nat)
    requires CanMove(s, move) && !OfThread(move, w) && w < L.WORKERS && !s.life.workers[w].NotStarted?
    ensures Stands(s, Moved(s, move), w)
  {
    match move
    case Live(l) => LiveLeavesOthers(s, l, w);
    case Execute(b) => ExecuteLeavesOthers(s, b, w);
    case Inside(_, _) =>
  }

  /** Worker `w` makes no move strictly between positions `k` and `m`. */
  predicate Pauses(moves: seq<Move>, w: nat, k: int, m: nat)
    requires m <= |moves|
  {
    forall j | 0 <= j < m && k < j :: !OfThread(moves[j], w)
  }

  lemma PausesLater(moves: seq<Move>, w: nat, k: int, m: nat)
    requires 0 < m <= |moves| && Pauses(moves, w, k, m)
    ensures Pauses(moves[1..], w, k - 1, m - 1)
  {
    forall j | 0 <= j < m - 1 && k - 1 < j ensures !OfThread(moves[1..][j], w) {
      assert moves[1..][j] == moves[j + 1];
    }
  }

  lemma StandsStill(s: Program, s': Program, s'': Program, w: nat)
    requires Stands(s, s', w) && Stands(s', s'', w)
    ensures Stands(s, s'', w)
  {
  }

  /** A worker that pauses up to position `m` stands there where it stood. */
  lemma {:induction false} Waits(s: Program, moves: seq<Move>, w: nat, m: nat) returns (at: Program)
    requires L.Wf(s.life) && w < L.WORKERS && !s.life.workers[w].NotStarted?
    requires S.Runs(s, moves) && m < |moves| && Pauses(moves, w, -1, m)
    ensures CanMove(at, moves[m]) && Stands(s, at, w)
    decreases m
  {
    hide CanMove, Moved;
    if m == 0 {
      at := s;
    } else {
      OthersMove(s, moves[0], w);
      PausesLater(moves, w, -1, m);
      at := Waits(Moved(s, moves[0]), moves[1..], w, m - 1);
      StandsStill(s, Moved(s, moves[0]), at, w);
    }
  }

  lemma ExecuteMoves(s: Program, b: Body)
    requires CanMove(s, Execute(b))
    ensures BodyEnabled(s.client, b)
    ensures
      var c, c' := BodyApply(s.client, b), Moved(s, Execute(b)).client;
      && c'.reader == c.reader && c'.analyzer == c.analyzer && c'.printer == c.printer
      && L.Wf(s.life) && Moved(s, Execute(b)).life == s.life && s.life.workers[WorkerOf(b)].Looping?
  {
  }

  // ---------- what comes next ----------

  /** The move after a statement of reader_loop. */
  predicate ReaderFollows(b: Body, next: Move) {
    match b
    case ROpen(ok) => if ok then next.Execute? && next.body.RAlloc? else next == Live(L.LoopDone(READER, true))
    case RAlloc(ok) => if ok then next.Execute? && next.body.RRead? else next == Live(L.LoopDone(READER, false))
    case RRead(_, ok) => next == Execute(if ok then RPush else RDiscard)
    case RDiscard => next == Execute(RSleep)
    case RPush => next.Execute? && next.body.RPushed?
    case RPushed(result) => next == Execute(if result.Pushed? then RSleep else RDiscard)
    case RSleep => next == Live(L.LoopDone(READER, false))
    case _ => false
  }

  /** The move after a statement of printer_loop. */
  predicate PrinterFollows(b: Body, next: Move) {
    match b
    case PFetch => next.Execute? && next.body.PFetched?
    case PFetched(result) => next == if result.Got? then Execute(PPrint) else Live(L.LoopDone(PRINTER, false))
    case PPrint => next == Execute(PFree)
    case PFree => next == Execute(PSleep)
    case PSleep => next == Live(L.LoopDone(PRINTER, false))
    case _ => false
  }

  /** The move after a statement of analyzer_loop; `again` says whether it has fetched a snapshot before, and
      `granted` whether it was given memory for a result last. */
  predicate AnalyzerFollows(b: Body, again: bool, granted: bool, next: Move) {
    match b
    case ATest(more) => next == if more then Execute(AFetch) else Live(L.LoopDone(ANALYZER, false))
    case AFetch => next.Execute? && next.body.AFetched?
    case AFetched(result) =>
      next.Execute? && if !result.Got? then next.body.ATest? else if again then next.body.AAlloc? else next.body.AShift?
    case AAlloc(ok) => next == Execute(if ok then ACompute else AFree)
    case ACompute => next == Execute(AFree)
    case AFree => next == Execute(if granted then APush else AShift)
    case APush => next.Execute? && next.body.APushed?
    case APushed(result) => next == Execute(if result.Pushed? then AShift else ADrop)
    case ADrop => next == Execute(AShift)
    case AShift => next.Execute? && next.body.ATest?
    case _ => false
  }

  /** What a worker's iteration begins with. */
  predicate Starts(w: nat, next: Move) {
    if w == LOGGER then next == Live(L.LoopDone(LOGGER, false))
    else next.Execute? && (w == READER ==> next.body.ROpen?) && (w == ANALYZER ==> next.body.ATest?)
         && (w == PRINTER ==> next.body.PFetch?)
  }

  /** A move that a worker can make in the middle of an iteration. */
  predicate InIteration(c: Client, next: Move, w: nat) {
    match next
    case Live(l) => l.LoopDone? && l.i == w && LifeEnabled(c, l)
    case Execute(b) => WorkerOf(b) == w && BodyEnabled(c, b)
    case Inside(_, _) => false
  }

  lemma LoopsOn(at: Program, next: Move, w: nat)
    requires CanMove(at, next) && OfThread(next, w) && w < L.WORKERS && at.life.workers[w].Looping?
    ensures InIteration(at.client, next, w)
  {
  }

  lemma ReaderGoesOn(c: Client, b: Body, c': Client, next: Move)
    requires BodyEnabled(c, b) && OfReader(b) && c'.reader == BodyApply(c, b).reader && InIteration(c', next, READER)
    ensures ReaderFollows(b, next)
  {
  }

  lemma PrinterGoesOn(c: Client, b: Body, c': Client, next: Move)
    requires BodyEnabled(c, b) && OfPrinter(b) && c'.printer == BodyApply(c, b).printer && InIteration(c', next, PRINTER)
    ensures PrinterFollows(b, next)
  {
  }

  lemma AnalyzerGoesOn(c: Client, b: Body, c': Client, next: Move)
    requires BodyEnabled(c, b) && WorkerOf(b) == ANALYZER && InIteration(c', next, ANALYZER)
    requires c'.analyzer == BodyApply(c, b).analyzer
    ensures AnalyzerFollows(b, c.analyzer.prev.Some?, c.analyzer.result.Some?, next)
  {
  }

  lemma IterationStarts(before: Program, at: Program, next: Move, w: nat)
    requires CanMove(before, Live(L.Report(w))) && CanMove(at, next) && OfThread(next, w) && w < L.WORKERS
    requires Stands(Moved(before, Live(L.Report(w))), at, w)
    ensures Starts(w, next)
  {
    LoopsOn(at, next, w);
  }

  // ---------- what the analyzer remembers ----------

  function FetchedBy(move: Move): nat {
    if move.Execute? && move.body.AFetched? && move.body.result.Got? then 1 else 0
  }

  /** How many snapshots were fetched in the first `k` moves. */
  function Fetches(moves: seq<Move>, k: nat): nat
    requires k <= |moves|
  {
    if k == 0 then 0 else FetchedBy(moves[0]) + Fetches(moves[1..], k - 1)
  }

  function GrantedBy(before: bool, move: Move): bool {
    if move.Execute? && move.body.AAlloc? then move.body.ok else before
  }

  /** Whether the last result asked for in the first `k` moves was granted, `before` holding at the start. */
  function Granted(before: bool, moves: seq<Move>, k: nat): bool
    requires k <= |moves|
    decreases k
  {
    if k == 0 then before else Granted(GrantedBy(before, moves[0]), moves[1..], k - 1)
  }

  /** The state before move number `k`. */
  function StateAt(s: Program, moves: seq<Move>, k: nat): Program
    requires S.Runs(s, moves) && k <= |moves|
    decreases k
  {
    if k == 0 then s else StateAt(Moved(s, moves[0]), moves[1..], k - 1)
  }

  lemma MoveTakes(s: Program, move: Move)
    requires CanMove(s, move)
    ensures Moved(s, move).client.taken == s.client.taken + FetchedBy(move)
  {
    if move.Live? {
      assert forall ids :: LifeApply(s.client, move.step, ids).taken == s.client.taken;
    }
  }

  lemma {:induction false} TakenAt(s: Program, moves: seq<Move>, k: nat)
    requires S.Runs(s, moves) && k <= |moves|
    ensures StateAt(s, moves, k).client.taken == s.client.taken + Fetches(moves, k)
    decreases k
  {
    hide CanMove, Moved;
    if k == 0 {
    } else {
      MoveTakes(s, moves[0]);
      TakenAt(Moved(s, moves[0]), moves[1..], k - 1);
    }
  }

  /** The analyzer has a result if it was granted one. */
  predicate ResultIs(a: Analyzer, granted: bool) {
    (a.at.AComputing? ==> granted) && (a.at.AComputing? || a.at.AFreeing? ==> (a.result.Some? <==> granted))
  }

  lemma StatementGrants(c: Client, b: Body, granted: bool)
    requires BodyEnabled(c, b) && ResultIs(c.analyzer, granted)
    ensures ResultIs(BodyApply(c, b).analyzer, GrantedBy(granted, Execute(b)))
  {
  }

  lemma LifeGrants(c: Client, l: L.Step, granted: bool)
    requires ResultIs(c.analyzer, granted)
    ensures ResultIs(LifeApply(c, l, []).analyzer, granted)
  {
  }

  lemma MoveGrants(s: Program, move: Move, granted: bool)
    requires CanMove(s, move) && ResultIs(s.client.analyzer, granted)
    ensures ResultIs(Moved(s, move).client.analyzer, GrantedBy(granted, move))
  {
    hide ResultIs;
    match move
    case Live(l) => LiveMoves(s, l); LifeGrants(s.client, l, granted);
    case Execute(b) => ExecuteMoves(s, b); StatementGrants(s.client, b, granted);
    case Inside(_, _) =>
  }

  lemma {:induction false} GrantedAt(s: Program, moves: seq<Move>, k: nat, granted: bool)
    requires S.Runs(s, moves) && k <= |moves| && ResultIs(s.client.analyzer, granted)
    ensures ResultIs(StateAt(s, moves, k).client.analyzer, Granted(granted, moves, k))
    decreases k
  {
    hide CanMove, Moved, ResultIs;
    if k == 0 {
    } else {
      MoveGrants(s, moves[0], granted);
      GrantedAt(Moved(s, moves[0]), moves[1..], k - 1, GrantedBy(granted, moves[0]));
    }
  }

  lemma {:induction false} InvAt(s: Program, moves: seq<Move>, k: nat)
    requires S.Inv(s) && S.Runs(s, moves) && k <= |moves|
    ensures S.Inv(StateAt(s, moves, k))
    decreases k
  {
    hide CanMove, Moved, S.Inv;
    if k == 0 {
    } else {
      S.MoveKeeps(s, moves[0]);
      InvAt(Moved(s, moves[0]), moves[1..], k - 1);
    }
  }

  /** Between two fetches the analyzer has a snapshot exactly if it ever fetched one. */
  lemma PrevMeansTaken(s: Program)
    requires S.Inv(s) && s.client.analyzer.at.AInFetch?
    ensures s.client.analyzer.prev.Some? <==> s.client.taken > 0
  {
    var a := S.Abstract(s);
    if !Open(s.life.main, Input) {
      PP.AtRest(a);
      assert false;
    }
    assert PI.AnalyzerOk(a.client);
  }

  // ---------- the main results ----------

  lemma {:induction false} RemembersFetch(s: Program, moves: seq<Move>, k: nat)
    requires S.Start(s) && S.Runs(s, moves) && k <= |moves| && StateAt(s, moves, k).client.analyzer.at.AInFetch?
    ensures StateAt(s, moves, k).client.analyzer.prev.Some? <==> Fetches(moves, k) > 0
  {
    hide S.Inv, CanMove, Moved;
    S.StartIsSound(s);
    InvAt(s, moves, k);
    TakenAt(s, moves, k);
    PrevMeansTaken(StateAt(s, moves, k));
  }

  lemma {:induction false} RemembersGrant(s: Program, moves: seq<Move>, k: nat)
    requires S.Start(s) && S.Runs(s, moves) && k <= |moves| && StateAt(s, moves, k).client.analyzer.at.AFreeing?
    ensures StateAt(s, moves, k).client.analyzer.result.Some? <==> Granted(false, moves, k)
  {
    hide CanMove, Moved;
    GrantedAt(s, moves, k, false);
  }

  lemma StaysInIteration(s: Program, move: Move, w: nat)
    requires CanMove(s, move) && w < L.WORKERS
    requires (move.Execute? && WorkerOf(move.body) == w) || move == Live(L.Report(w))
    ensures L.Wf(Moved(s, move).life) && Moved(s, move).life.workers[w].Looping?
  {
  }

  /** Before a later move of a worker it stands where its move number `k` has brought it. */
  lemma {:induction false} Around(s: Program, moves: seq<Move>, w: nat, k: nat, m: nat) returns (at: Program)
    requires S.Runs(s, moves) && w < L.WORKERS && k < m < |moves| && Pauses(moves, w, k, m)
    requires (moves[k].Execute? && WorkerOf(moves[k].body) == w) || moves[k] == Live(L.Report(w))
    ensures CanMove(StateAt(s, moves, k), moves[k]) && CanMove(at, moves[m])
    ensures Stands(Moved(StateAt(s, moves, k), moves[k]), at, w)
    decreases k
  {
    hide CanMove, Moved;
    PausesLater(moves, w, k, m);
    if k == 0 {
      StaysInIteration(s, moves[0], w);
      at := Waits(Moved(s, moves[0]), moves[1..], w, m - 1);
    } else {
      at := Around(Moved(s, moves[0]), moves[1..], w, k - 1, m - 1);
    }
  }

  /** The same around a statement: where the client stands before the next move. */
  lemma {:induction false} AroundStatement(s: Program, moves: seq<Move>, b: Body, k: nat, m: nat) returns (c': Client)
    requires S.Runs(s, moves) && k < m < |moves| && moves[k] == Execute(b)
    requires OfThread(moves[m], WorkerOf(b)) && Pauses(moves, WorkerOf(b), k, m)
    ensures BodyEnabled(StateAt(s, moves, k).client, b) && InIteration(c', moves[m], WorkerOf(b))
    ensures OfReader(b) ==> c'.reader == BodyApply(StateAt(s, moves, k).client, b).reader
    ensures OfPrinter(b) ==> c'.printer == BodyApply(StateAt(s, moves, k).client, b).printer
    ensures WorkerOf(b) == ANALYZER ==> c'.analyzer == BodyApply(StateAt(s, moves, k).client, b).analyzer
  {
    hide CanMove, Moved;
    var at := Around(s, moves, WorkerOf(b), k, m);
    ExecuteMoves(StateAt(s, moves, k), b);
    LoopsOn(at, moves[m], WorkerOf(b));
    c' := at.client;
  }

  // ---------- the main results ----------

  /** Two moves of the reader with none of its own in between, the first a statement of an iteration: the
      second is the statement that the code has next, or the end of the iteration with the code returned. */
  lemma {:induction false} NextOfReader(s: Program, moves: seq<Move>, b: Body, k: nat, m: nat)
    requires S.Runs(s, moves) && k < m < |moves| && moves[k] == Execute(b) && OfReader(b)
    requires OfThread(moves[m], READER) && Pauses(moves, READER, k, m)
    ensures ReaderFollows(b, moves[m])
  {
    var c' := AroundStatement(s, moves, b, k, m);
    ReaderGoesOn(StateAt(s, moves, k).client, b, c', moves[m]);
  }

  /** The same for the printer. */
  lemma {:induction false} NextOfPrinter(s: Program, moves: seq<Move>, b: Body, k: nat, m: nat)
    requires S.Runs(s, moves) && k < m < |moves| && moves[k] == Execute(b) && OfPrinter(b)
    requires OfThread(moves[m], PRINTER) && Pauses(moves, PRINTER, k, m)
    ensures PrinterFollows(b, moves[m])
  {
    var c' := AroundStatement(s, moves, b, k, m);
    PrinterGoesOn(StateAt(s, moves, k).client, b, c', moves[m]);
  }

  /** The same for the analyzer, which allocates a result exactly if it has fetched a snapshot before, and
      pushes one exactly if it was granted one. */
  lemma {:induction false} NextOfAnalyzer(s: Program, moves: seq<Move>, b: Body, k: nat, m: nat)
    requires S.Start(s) && S.Runs(s, moves) && k < m < |moves| && moves[k] == Execute(b) && WorkerOf(b) == ANALYZER
    requires OfThread(moves[m], ANALYZER) && Pauses(moves, ANALYZER, k, m)
    ensures AnalyzerFollows(b, Fetches(moves, k) > 0, Granted(false, moves, k), moves[m])
  {
    var c' := AroundStatement(s, moves, b, k, m);
    AnalyzerGoesOn(StateAt(s, moves, k).client, b, c', moves[m]);
    if b.AFetched? { RemembersFetch(s, moves, k); }
    if b.AFree? { RemembersGrant(s, moves, k); }
  }

  /** An iteration begins with the first statement of its frame. */
  lemma {:induction false} FirstOfIteration(s: Program, moves: seq<Move>, w: nat, k: nat, m: nat)
    requires S.Runs(s, moves) && w < L.WORKERS && k < m < |moves| && moves[k] == Live(L.Report(w))
    requires OfThread(moves[m], w) && Pauses(moves, w, k, m)
    ensures Starts(w, moves[m])
  {
    var at := Around(s, moves, w, k, m);
    IterationStarts(StateAt(s, moves, k), at, moves[m], w);
  }

  lemma {:induction false} MoveIsAllowed(s: Program, moves: seq<Move>, k: nat)
    requires S.Runs(s, moves) && k < |moves|
    ensures CanMove(StateAt(s, moves, k), moves[k])
    decreases k
  {
    hide CanMove, Moved;
    if k == 0 {
    } else {
      MoveIsAllowed(Moved(s, moves[0]), moves[1..], k - 1);
    }
  }

  /** Of the four frames only the analyzer's init can fail, and only the reader's iteration. */
  lemma {:induction false} WhoFails(s: Program, moves: seq<Move>, k: nat, i: nat)
    requires S.Runs(s, moves) && k < |moves|
    ensures moves[k] == Live(L.InitDone(i, false)) ==> i == ANALYZER
    ensures moves[k] == Live(L.LoopDone(i, true)) ==> i == READER
  {
    MoveIsAllowed(s, moves, k);
    if moves[k] == Live(L.LoopDone(i, true)) {
      assert i < L.WORKERS;
    }
  }

  /** The same statement, with another answer of fopen, malloc, fscanf or the clock. */
  predicate SameStatement(b: Body, b': Body, layout: CpuUsage.Layout) {
    || (b.ROpen? && b'.ROpen?) || (b.RAlloc? && b'.RAlloc?) || (b.AAlloc? && b'.AAlloc?) || (b.ATest? && b'.ATest?)
    || (b.RRead? && b'.RRead? && CpuUsage.Fits(b'.grid, layout))
  }

  /** Whatever a statement is answered, it might have been answered otherwise; and a signal may come at any
      time before main exits. */
  lemma AnswersAreFree(s: Program, b: Body, b': Body)
    requires CanMove(s, Execute(b)) && SameStatement(b, b', s.client.layout)
    ensures CanMove(s, Execute(b')) && (!s.life.main.Exited? ==> CanMove(s, Live(L.Interrupted)))
  {
  }
}
