/** The program: the pipeline with the two real message queues, list nodes, lock, condition
    variable and all. Every run of it is a run of Pipeline, so what Pipeline keeps it keeps. */
module System {
  import opened Common
  import opened QueueCalls
  import opened CpuUsage
  import opened Pipeline
  import PI = PipelineInvariant
  import PP = PipelineProof
  import US = UsageStream
  import PR = PipelineRuns
  import RD = PipelineReads
  import MQ = MessageQueue
  import MP = MessageQueueProof
  import MR = MessageQueueRuns
  import AQ = AtomicQueue
  import L = Lifecycle

  datatype Program = Program(life: L.State, client: Client, input: MQ.State, output: MQ.State)

  /** A life cycle step, a statement of a frame body, or a step inside a queue operation. */
  datatype Move = Live(step: L.Step) | Execute(body: Body) | Inside(which: Which, inner: MQ.Step)

  function QueueOf(s: Program, which: Which): MQ.State {
    if which.Input? then s.input else s.output
  }

  function WithQueue(s: Program, which: Which, q: MQ.State): Program {
    if which.Input? then s.(input := q) else s.(output := q)
  }

  predicate CanMove(s: Program, move: Move) {
    && L.Wf(s.life)
    && match move
       case Live(l) => L.Enabled(s.life, l) && LifeEnabled(s.client, l)
       case Execute(b) =>
         var w := WorkerOf(b);
         && s.life.workers[w].Looping?
         && BodyEnabled(s.client, b)
         && (match CallOf(s.client, b)
             case Some((which, op)) => MQ.Enabled(QueueOf(s, which), MQ.Invoke(w, op))
             case None => true)
         && (match ReturnOf(b)
             case Some((which, result)) =>
               && MQ.Enabled(QueueOf(s, which), MQ.Return(w))
               && QueueOf(s, which).pc[w].at.result == result
             case None => true)
       case Inside(which, step) => MQ.Enabled(QueueOf(s, which), step) && !step.Invoke? && !step.Return?
  }

  /** What queue_destroy hands to the deleter. */
  function Leftover(q: MQ.State): seq<Id> {
    MQ.FreeFrom(q.list.heap, q.list.front).values
  }

  function Moved(s: Program, move: Move): Program
    requires CanMove(s, move)
  {
    match move
    case Live(l) =>
      var doomed := if l.Destroy? then Doomed(s.life.main) else None;
      var leftover := if doomed.Some? then Leftover(QueueOf(s, doomed.value)) else [];
      var s' := s.(life := L.Apply(s.life, l), client := LifeApply(s.client, l, leftover));
      if doomed.Some? then WithQueue(s', doomed.value, MQ.Destroyed(QueueOf(s', doomed.value))) else s'
    case Execute(b) =>
      var w := WorkerOf(b);
      var s' := s.(client := BodyApply(s.client, b));
      (match CallOf(s.client, b)
       case Some((which, op)) =>
         var s'' := WithQueue(s', which, MQ.Apply(QueueOf(s, which), MQ.Invoke(w, op)));
         if Open(s.life.main, which) then s'' else s''.(client := Fault(s''.client))
       case None =>
         match ReturnOf(b)
         case Some((which, _)) => WithQueue(s', which, MQ.Apply(QueueOf(s, which), MQ.Return(w)))
         case None => s')
    case Inside(which, step) =>
      var q := QueueOf(s, which);
      var c := match MP.Effect(q, step)
        case Some(Decide(t, result)) => if q.pc[t].In? then Accept(s.client, which, q.pc[t].op, result) else s.client
        case _ => s.client;
      WithQueue(s, which, MQ.Apply(q, step)).(client := if Open(s.life.main, which) then c else Fault(c))
  }

  predicate Begins(s: Program) {
    && L.Initial(s.life) && s.client == InitialClient(s.client.layout)
    && s.input == MQ.Init(USERS) && s.output == MQ.Init(USERS)
  }

  predicate Start(s: Program) {
    Begins(s) && PR.GoodLayout(s.client.layout)
  }

  // ---------- refinement ----------

  ghost predicate Sound(s: Program) {
    MP.Inv(s.input) && MP.Inv(s.output) && MR.WakeInv(s.input) && MR.WakeInv(s.output)
  }

  ghost function Abstract(s: Program): State
    requires Sound(s)
  {
    State(s.life, s.client, MP.Abs(s.input), MP.Abs(s.output))
  }

  ghost predicate Inv(s: Program) {
    Sound(s) && PI.Inv(Abstract(s))
  }

  /** The step of Pipeline that a move amounts to, if any. */
  function Meaning(s: Program, move: Move): Option<Step>
    requires CanMove(s, move)
  {
    match move
    case Live(l) => Some(Life(l))
    case Execute(b) => Some(Do(b))
    case Inside(which, step) =>
      match MP.Effect(QueueOf(s, which), step)
      case Some(Decide(t, result)) => Some(Step.Decide(which, t, result))
      case _ => None
  }

  lemma PhaseHasOp(heap: map<MQ.Addr, MQ.Node>, pc: MQ.Pc)
    requires pc.In?
    ensures var phase := MP.PhaseOf(heap, pc); !phase.Idle? && phase.op == pc.op
  {
  }

  lemma IdleMeansOut(q: MQ.State)
    requires MP.Inv(q)
    ensures forall t | t in q.pc && MP.Abs(q).phase[t].Idle? :: q.pc[t].Out?
  {
    forall t | t in q.pc && MP.Abs(q).phase[t].Idle? ensures q.pc[t].Out? {
      if q.pc[t].In? {
        PhaseHasOp(q.list.heap, q.pc[t]);
      }
    }
  }

  /** When main destroys the queues, no thread is inside them. */
  lemma NobodyInside(s: Program, which: Which)
    requires Inv(s) && (s.life.main.Destroying? || s.life.main.Exited?)
    ensures forall t | t in QueueOf(s, which).pc :: QueueOf(s, which).pc[t].Out?
  {
    var a := Abstract(s);
    assert PI.Links(a);
    PP.AtRest(a);
    IdleMeansOut(QueueOf(s, which));
  }

  /** A thread inside a queue operation: the queues are there. */
  lemma InsideMeansOpen(s: Program, which: Which, t: Tid)
    requires Inv(s) && t in QueueOf(s, which).pc && QueueOf(s, which).pc[t].In?
    ensures Open(s.life.main, Input) && Open(s.life.main, Output)
  {
    if s.life.main.Destroying? || s.life.main.Exited? {
      NobodyInside(s, which);
      assert false;
    }
  }

  /** A step inside an operation is nothing to the atomic queue, or the moment of decision. */
  lemma InnerRefines(q: MQ.State, step: MQ.Step)
    requires MP.Inv(q) && MR.WakeInv(q) && MQ.Enabled(q, step) && !step.Invoke? && !step.Return?
    ensures
      var q' := MQ.Apply(q, step);
      && MP.Inv(q') && MR.WakeInv(q') && q.pc[step.t].In?
      && match MP.Effect(q, step)
         case None => MP.Abs(q') == MP.Abs(q)
         case Some(a) =>
           && a.Decide? && a.t == step.t && AQ.Enabled(MP.Abs(q), a) && MP.Abs(q') == AQ.Apply(MP.Abs(q), a)
           && MP.Abs(q).phase[a.t] == AQ.Pending(q.pc[a.t].op)
  {
    MP.Simulates(q, step);
    MR.WakeInvStep(q, step);
    assert MP.Abs(q).phase[step.t] == MP.PhaseOf(q.list.heap, q.pc[step.t]);
    PhaseHasOp(q.list.heap, q.pc[step.t]);
  }

  lemma InsideRefines(s: Program, which: Which, step: MQ.Step)
    requires Sound(s) && Open(s.life.main, which) && CanMove(s, Inside(which, step))
    ensures
      var s' := Moved(s, Inside(which, step));
      && Sound(s')
      && match Meaning(s, Inside(which, step))
         case None => Abstract(s') == Abstract(s)
         case Some(p) => Enabled(Abstract(s), p) && Abstract(s') == Apply(Abstract(s), p)
  {
    InnerRefines(QueueOf(s, which), step);
  }

  /** Going into a queue operation or out of it is the same on the real and on the atomic queue. */
  lemma DoorRefines(q: MQ.State, step: MQ.Step)
    requires MP.Inv(q) && MR.WakeInv(q) && MQ.Enabled(q, step) && (step.Invoke? || step.Return?)
    ensures
      var q' := MQ.Apply(q, step);
      var door := if step.Invoke? then AQ.Call(step.t, step.op) else AQ.Return(step.t);
      && MP.Inv(q') && MR.WakeInv(q')
      && AQ.Enabled(MP.Abs(q), door) && MP.Abs(q') == AQ.Apply(MP.Abs(q), door)
      && (step.Return? ==> MP.Abs(q).phase[step.t].result == q.pc[step.t].at.result)
  {
    MP.Simulates(q, step);
    MR.WakeInvStep(q, step);
  }

  lemma MovedByCall(s: Program, b: Body, which: Which, op: Op)
    requires CanMove(s, Execute(b)) && CallOf(s.client, b) == Some((which, op))
    ensures
      var c := BodyApply(s.client, b);
      Moved(s, Execute(b)) ==
        WithQueue(s.(client := if Open(s.life.main, which) then c else Fault(c)), which,
                  MQ.Apply(QueueOf(s, which), MQ.Invoke(WorkerOf(b), op)))
  {
  }

  lemma AppliedByCall(a: State, b: Body, which: Which, op: Op)
    requires L.Wf(a.life) && a.life.workers[WorkerOf(b)].Looping? && BodyEnabled(a.client, b)
    requires CallOf(a.client, b) == Some((which, op)) && AQ.Enabled(Queue(a, which), AQ.Call(WorkerOf(b), op))
    ensures Enabled(a, Do(b))
    ensures
      var c := BodyApply(a.client, b);
      Apply(a, Do(b)) ==
        SetQueue(a.(client := if Open(a.life.main, which) then c else Fault(c)), which,
                 AQ.Apply(Queue(a, which), AQ.Call(WorkerOf(b), op)))
  {
  }

  lemma CallRefines(s: Program, b: Body)
    requires Sound(s) && CanMove(s, Execute(b)) && CallOf(s.client, b).Some?
    ensures
      var s' := Moved(s, Execute(b));
      Sound(s') && Enabled(Abstract(s), Do(b)) && Abstract(s') == Apply(Abstract(s), Do(b))
  {
    var (which, op) := CallOf(s.client, b).value;
    DoorRefines(QueueOf(s, which), MQ.Invoke(WorkerOf(b), op));
    MovedByCall(s, b, which, op);
    AppliedByCall(Abstract(s), b, which, op);
  }

  lemma ReturnRefines(s: Program, b: Body)
    requires Sound(s) && CanMove(s, Execute(b)) && CallOf(s.client, b).None? && ReturnOf(b).Some?
    ensures
      var s' := Moved(s, Execute(b));
      Sound(s') && Enabled(Abstract(s), Do(b)) && Abstract(s') == Apply(Abstract(s), Do(b))
  {
    DoorRefines(QueueOf(s, ReturnOf(b).value.0), MQ.Return(WorkerOf(b)));
  }

  lemma ExecuteRefines(s: Program, b: Body)
    requires Sound(s) && CanMove(s, Execute(b))
    ensures
      var s' := Moved(s, Execute(b));
      Sound(s') && Enabled(Abstract(s), Do(b)) && Abstract(s') == Apply(Abstract(s), Do(b))
  {
    if CallOf(s.client, b).Some? {
      CallRefines(s, b);
    } else if ReturnOf(b).Some? {
      ReturnRefines(s, b);
    }
  }

  lemma NobodySleeps(q: MQ.State)
    requires MP.Inv(q) && forall t | t in q.pc :: q.pc[t].Out?
    ensures MR.WakeInv(q)
  {
    assert MR.Sleepers(q) == {};
  }

  lemma DestroyRefines(s: Program, which: Which)
    requires Sound(s) && CanMove(s, Live(L.Destroy)) && Doomed(s.life.main) == Some(which)
    requires forall t | t in QueueOf(s, which).pc :: QueueOf(s, which).pc[t].Out?
    ensures
      var s' := Moved(s, Live(L.Destroy));
      Sound(s') && Enabled(Abstract(s), Life(L.Destroy)) && Abstract(s') == Apply(Abstract(s), Life(L.Destroy))
  {
    var q := QueueOf(s, which);
    MP.DestroysAll(q);
    NobodySleeps(MQ.Destroyed(q));
  }

  lemma LiveRefines(s: Program, l: L.Step)
    requires Inv(s) && CanMove(s, Live(l))
    ensures
      var s' := Moved(s, Live(l));
      Sound(s') && Enabled(Abstract(s), Life(l)) && Abstract(s') == Apply(Abstract(s), Life(l))
  {
    if l.Destroy? && Doomed(s.life.main).Some? {
      NobodyInside(s, Doomed(s.life.main).value);
      DestroyRefines(s, Doomed(s.life.main).value);
    }
  }

  lemma MoveRefines(s: Program, move: Move)
    requires Inv(s) && CanMove(s, move)
    ensures
      var s' := Moved(s, move);
      && Sound(s')
      && match Meaning(s, move)
         case None => Abstract(s') == Abstract(s)
         case Some(p) => Enabled(Abstract(s), p) && Abstract(s') == Apply(Abstract(s), p)
  {
    match move
    case Live(l) => LiveRefines(s, l);
    case Execute(b) => ExecuteRefines(s, b);
    case Inside(which, step) => InsideMeansOpen(s, which, step.t); InsideRefines(s, which, step);
  }

  lemma MoveKeeps(s: Program, move: Move)
    requires Inv(s) && CanMove(s, move)
    ensures Inv(Moved(s, move))
  {
    MoveRefines(s, move);
    match Meaning(s, move)
    case None =>
    case Some(p) => PR.StepKeeps(Abstract(s), p);
  }

  lemma StartIsSound(s: Program)
    requires Start(s)
    ensures Inv(s) && Initial(Abstract(s))
  {
    MR.InitInv(USERS);
    PR.InitialInv(Abstract(s));
  }

  // ---------- runs ----------

  predicate Runs(s: Program, moves: seq<Move>)
    decreases |moves|
  {
    moves == [] || (CanMove(s, moves[0]) && Runs(Moved(s, moves[0]), moves[1..]))
  }

  function After(s: Program, moves: seq<Move>): Program
    requires Runs(s, moves)
    decreases |moves|
  {
    if moves == [] then s else After(Moved(s, moves[0]), moves[1..])
  }

  lemma {:induction false} InvAlong(s: Program, moves: seq<Move>)
    requires Inv(s) && Runs(s, moves)
    ensures Inv(After(s, moves))
    decreases |moves|
  {
    if moves == [] {
    } else {
      MoveKeeps(s, moves[0]);
      InvAlong(Moved(s, moves[0]), moves[1..]);
    }
  }

  /** The run of Pipeline that a run of the program amounts to. */
  function AbstractRun(s: Program, moves: seq<Move>): seq<Step>
    requires Runs(s, moves)
    decreases |moves|
  {
    if moves == [] then [] else
    var rest := AbstractRun(Moved(s, moves[0]), moves[1..]);
    match Meaning(s, moves[0])
    case Some(p) => [p] + rest
    case None => rest
  }

  /** Refinement: with every interleaving of the queues' micro-steps, a run of the program is a
      run of Pipeline with atomic queues. */
  lemma {:induction false} ProgramRefinesPipeline(s: Program, moves: seq<Move>)
    requires Inv(s) && Runs(s, moves)
    ensures
      var run := AbstractRun(s, moves);
      && Inv(After(s, moves))
      && Pipeline.Runs(Abstract(s), run) && Pipeline.After(Abstract(s), run) == Abstract(After(s, moves))
    decreases |moves|
  {
    if moves == [] {
    } else {
      MoveKeeps(s, moves[0]);
      MoveRefines(s, moves[0]);
      ProgramRefinesPipeline(Moved(s, moves[0]), moves[1..]);
      var run := AbstractRun(s, moves);
      if Meaning(s, moves[0]).Some? {
        assert run[1..] == AbstractRun(Moved(s, moves[0]), moves[1..]);
      }
    }
  }

  // ---------- the main results ----------

  function NotedMove(a: RD.Account, move: Move): RD.Account {
    if move.Execute? then RD.Noted(a, move.body) else a
  }

  function NotedMoves(a: RD.Account, moves: seq<Move>): RD.Account
    decreases |moves|
  {
    if moves == [] then a else NotedMoves(NotedMove(a, moves[0]), moves[1..])
  }

  /** The reader's push has taken effect on the queue and not returned yet. */
  predicate InFlight(s: Program) {
    READER in s.input.pc && RD.InFlight(s.client.reader, MP.PhaseOf(s.input.list.heap, s.input.pc[READER]))
  }

  ghost predicate Accounts(s: Program, a: RD.Account) {
    && Sound(s) && READER in s.input.pc
    && RD.Accounts(s.client, MP.Abs(s.input).phase[READER], a)
  }

  lemma MoveAccounts(s: Program, move: Move, a: RD.Account)
    requires Inv(s) && CanMove(s, move) && Accounts(s, a)
    ensures Accounts(Moved(s, move), NotedMove(a, move))
  {
    MoveRefines(s, move);
    match Meaning(s, move)
    case None =>
    case Some(p) => RD.StepAccounts(Abstract(s), p, a);
  }

  lemma {:induction false} AccountsAlong(s: Program, moves: seq<Move>, a: RD.Account)
    requires Inv(s) && Runs(s, moves) && Accounts(s, a)
    ensures Accounts(After(s, moves), NotedMoves(a, moves))
    decreases |moves|
  {
    if moves == [] {
    } else {
      MoveKeeps(s, moves[0]);
      MoveAccounts(s, moves[0], a);
      AccountsAlong(Moved(s, moves[0]), moves[1..], NotedMove(a, moves[0]));
    }
  }

  lemma AccountsSay(s: Program, a: RD.Account)
    requires Accounts(s, a)
    ensures s.client.accepted == RD.Handed(a, InFlight(s))
  {
  }

  lemma StartAccounts(s: Program)
    requires Start(s)
    ensures Inv(s) && Accounts(s, RD.NOTHING)
  {
    StartIsSound(s);
  }

  /** The grids that the reader read with success and pushed with success, in order, told from the moves
      alone, and that of a push that has taken effect and not returned yet. */
  function Read(s: Program, moves: seq<Move>): seq<Grid>
    requires Runs(s, moves)
  {
    RD.Handed(NotedMoves(RD.NOTHING, moves), InFlight(After(s, moves)))
  }

  /** What was accepted is what was read and pushed. */
  lemma {:induction false} AcceptedIsRead(s: Program, moves: seq<Move>)
    requires Start(s) && Runs(s, moves)
    ensures After(s, moves).client.accepted == Read(s, moves)
  {
    StartAccounts(s);
    AccountsAlong(s, moves, RD.NOTHING);
    AccountsSay(After(s, moves), NotedMoves(RD.NOTHING, moves));
  }

  lemma InvMeansStream(s: Program)
    requires Inv(s)
    ensures
      var c := s.client;
      && US.AllFit(c.accepted, c.layout) && PR.GoodLayout(c.layout)
      && (forall k: nat | k in c.dropped :: k < PR.Pairs(c.accepted))
      && c.reports <= US.Stream(c.accepted, c.dropped, PR.Pairs(c.accepted), c.layout)
  {
    PR.ReportsFollowStream(Abstract(s));
  }

  /** What the program prints is a prefix of the usage of the consecutive pairs of the grids read and
      pushed, in order, without the dropped pairs. */
  lemma {:induction false} ProgramReportsArePrefixOfStream(s: Program, moves: seq<Move>)
    requires Start(s) && Runs(s, moves)
    ensures
      var c := After(s, moves).client;
      var grids := Read(s, moves);
      && c.accepted == grids
      && US.AllFit(grids, c.layout) && PR.GoodLayout(c.layout)
      && (forall k: nat | k in c.dropped :: k < PR.Pairs(grids))
      && c.reports <= US.Stream(grids, c.dropped, PR.Pairs(grids), c.layout)
  {
    StartIsSound(s);
    InvAlong(s, moves);
    AcceptedIsRead(s, moves);
    InvMeansStream(After(s, moves));
  }

  /** What the user reads. Report number `i` belongs to the `i`-th pair of snapshots that was not dropped, and
      shows for every row the share of what is neither idle nor iowait in what the row counts from the one
      to the other. If the counters do not run backwards, every number is between 0 and 100; and if,
      besides, row 0 sums up the cores, the total lies between any bounds on the cores reported with it. */
  lemma {:induction false} ProgramReportsPercentages(s: Program, moves: seq<Move>, i: nat) returns (k: nat)
    requires Start(s) && Runs(s, moves) && i < |After(s, moves).client.reports|
    ensures
      var c := After(s, moves).client;
      && k < PR.Pairs(c.accepted) && k !in c.dropped && i == US.Kept(c.dropped, k)
      && |c.reports[i]| == s.client.layout.rows && ShowsUsage(c.reports[i], c.accepted[k], c.accepted[k + 1])
    ensures
      var c := After(s, moves).client;
      US.AllForwards(c.accepted, s.client.layout) ==>
        && (forall r | 0 <= r < |c.reports[i]| :: 0.0 <= c.reports[i][r] <= 100.0)
        && (US.AllWhole(c.accepted) && s.client.layout.rows >= 2 ==>
              forall lo, hi | US.CoresWithin(c.reports[i], lo, hi) :: lo <= c.reports[i][0] <= hi)
  {
    var c := After(s, moves).client;
    ProgramReportsArePrefixOfStream(s, moves);
    LayoutStays(s, moves);
    var stream := US.Stream(c.accepted, c.dropped, PR.Pairs(c.accepted), c.layout);
    assert c.reports[i] == stream[i];
    k := US.ReportIsUsage(c.accepted, c.dropped, PR.Pairs(c.accepted), c.layout, i);
    if US.AllForwards(c.accepted, s.client.layout) {
      US.ReportBounds(c.accepted, c.dropped, PR.Pairs(c.accepted), c.layout, c.reports[i]);
    }
  }

  lemma MoveLeavesLayout(s: Program, move: Move)
    requires CanMove(s, move)
    ensures Moved(s, move).client.layout == s.client.layout
  {
    if move.Live? {
      assert forall ids :: LifeApply(s.client, move.step, ids).layout == s.client.layout;
    }
  }

  lemma {:induction false} LayoutStays(s: Program, moves: seq<Move>)
    requires Runs(s, moves)
    ensures After(s, moves).client.layout == s.client.layout
    decreases |moves|
  {
    if moves == [] {
    } else {
      MoveLeavesLayout(s, moves[0]);
      LayoutStays(Moved(s, moves[0]), moves[1..]);
    }
  }

  /** The analyzer gives up a result: it cannot be allocated, or its push failed. */
  predicate Loses(move: Move) {
    move == Execute(AAlloc(false)) || move == Execute(ADrop)
  }

  /** The move at position `j` gives up the result of pair `k`: the last two of the snapshots received. */
  predicate LosesAt(s: Program, moves: seq<Move>, j: nat, k: nat)
    requires Runs(s, moves)
  {
    j < |moves| && Loses(moves[j]) && Runs(s, moves[..j]) && After(s, moves[..j]).client.taken - 2 == k
  }

  lemma LosingMoveHasPair(s: Program, b: Body)
    requires Inv(s) && CanMove(s, Execute(b)) && Loses(Execute(b))
    ensures s.client.taken >= 2
  {
    ExecuteRefines(s, b);
    PR.LossStep(Abstract(s), b);
  }

  lemma LosingMoveDrops(s: Program, b: Body)
    requires CanMove(s, Execute(b)) && Loses(Execute(b)) && s.client.taken >= 2
    ensures Moved(s, Execute(b)).client.dropped == s.client.dropped + {s.client.taken - 2}
  {
    assert Moved(s, Execute(b)).client == BodyApply(s.client, b);
    PR.DropsOne(s.client, b);
  }

  lemma OtherMoveDropsNothing(s: Program, move: Move)
    requires CanMove(s, move) && !Loses(move)
    ensures Moved(s, move).client.dropped == s.client.dropped
  {
    if move.Live? {
      assert forall ids :: LifeApply(s.client, move.step, ids).dropped == s.client.dropped;
    }
  }

  lemma MoveDrops(s: Program, move: Move, k: nat)
    requires CanMove(s, move) && (Loses(move) ==> s.client.taken >= 2)
    ensures k in Moved(s, move).client.dropped <==> k in s.client.dropped || (Loses(move) && s.client.taken - 2 == k)
  {
    if Loses(move) {
      LosingMoveDrops(s, move.body);
    } else {
      OtherMoveDropsNothing(s, move);
    }
  }

  lemma {:induction false} LosesLater(s: Program, moves: seq<Move>, j: nat, k: nat)
    requires moves != [] && Runs(s, moves)
    ensures LosesAt(s, moves, j + 1, k) <==> LosesAt(Moved(s, moves[0]), moves[1..], j, k)
    ensures LosesAt(s, moves, 0, k) <==> Loses(moves[0]) && s.client.taken - 2 == k
  {
    if j + 1 < |moves| {
      assert moves[..j + 1][0] == moves[0] && moves[..j + 1][1..] == moves[1..][..j];
    }
  }

  lemma {:induction false} LosesFirstOrLater(s: Program, moves: seq<Move>, k: nat)
    requires moves != [] && Runs(s, moves)
    ensures (exists j: nat :: LosesAt(s, moves, j, k)) <==>
              (Loses(moves[0]) && s.client.taken - 2 == k)
              || exists j: nat :: LosesAt(Moved(s, moves[0]), moves[1..], j, k)
  {
    LosesLater(s, moves, 0, k);
    if j: nat :| LosesAt(Moved(s, moves[0]), moves[1..], j, k) {
      LosesLater(s, moves, j, k);
      assert LosesAt(s, moves, j + 1, k);
    }
    if j: nat :| LosesAt(s, moves, j, k) && j > 0 {
      LosesLater(s, moves, j - 1, k);
      assert LosesAt(Moved(s, moves[0]), moves[1..], j - 1, k);
    }
  }

  lemma {:induction false} DroppedIff(s: Program, moves: seq<Move>, k: nat)
    requires Inv(s) && Runs(s, moves)
    ensures k in After(s, moves).client.dropped <==> k in s.client.dropped || exists j: nat :: LosesAt(s, moves, j, k)
    decreases |moves|
  {
    if moves == [] {
    } else {
      if Loses(moves[0]) {
        LosingMoveHasPair(s, moves[0].body);
      }
      MoveDrops(s, moves[0], k);
      MoveKeeps(s, moves[0]);
      DroppedIff(Moved(s, moves[0]), moves[1..], k);
      LosesFirstOrLater(s, moves, k);
    }
  }

  /** Which pairs are missing from the stream: exactly those whose result the analyzer gave up. */
  lemma {:induction false} ProgramDropsIff(s: Program, moves: seq<Move>, k: nat)
    requires Start(s) && Runs(s, moves)
    ensures k in After(s, moves).client.dropped <==> exists j: nat :: LosesAt(s, moves, j, k)
  {
    StartIsSound(s);
    DroppedIff(s, moves, k);
  }

  /** stat_cpu_array_create_l is refused memory, in the reader or in analyzer_init. */
  predicate FailsCreation(move: Move) {
    move == Execute(RAlloc(false)) || move == Live(L.InitDone(ANALYZER, false))
  }

  predicate SomeCreationFails(moves: seq<Move>) {
    exists j | 0 <= j < |moves| :: FailsCreation(moves[j])
  }

  lemma MoveCrashes(s: Program, move: Move)
    requires CanMove(s, move)
    ensures Moved(s, move).client.crashed <==>
              s.client.crashed || (FailsCreation(move) && CreationCrashes(s.client.layout))
  {
    if move.Live? {
      assert forall ids :: LifeApply(s.client, move.step, ids).crashed == LifeApply(s.client, move.step, []).crashed;
    }
  }

  lemma SomeFirstOrLater(moves: seq<Move>)
    requires moves != []
    ensures SomeCreationFails(moves) <==> FailsCreation(moves[0]) || SomeCreationFails(moves[1..])
  {
    forall j | 0 < j < |moves| ensures moves[j] == moves[1..][j - 1] {
    }
  }

  lemma {:induction false} CrashedIff(s: Program, moves: seq<Move>)
    requires Runs(s, moves)
    ensures After(s, moves).client.crashed <==>
              s.client.crashed || (CreationCrashes(s.client.layout) && SomeCreationFails(moves))
    decreases |moves|
  {
    if moves == [] {
    } else {
      MoveCrashes(s, moves[0]);
      MoveLeavesLayout(s, moves[0]);
      SomeFirstOrLater(moves);
      CrashedIff(Moved(s, moves[0]), moves[1..]);
    }
  }

  /** A bad pointer was followed, in a list or a buffer, something was freed twice, or a queue was used
      after its destroy. */
  predicate Faulty(s: Program) {
    Faulted(s.client) || s.input.fault || s.output.fault
  }

  /** Exactly the runs in which a creation fails follow a bad pointer, free anything twice or use a queue
      after its destroy; and when main exits every buffer has been freed exactly once and every list node
      has been freed. */
  lemma {:induction false} ProgramFreesEverythingOnce(s: Program, moves: seq<Move>)
    requires Start(s) && Runs(s, moves)
    ensures
      var s' := After(s, moves);
      var m := s'.client.mem;
      && (Faulty(s') <==> SomeCreationFails(moves))
      && !m.fault && !s'.input.fault && !s'.output.fault
      && (s'.life.main.Exited? ==>
            && m.live == map[] && (forall x: Id :: m.freed[x] == if x < m.next then 1 else 0)
            && s'.input.list.heap == map[] && s'.output.list.heap == map[])
  {
    StartIsSound(s);
    InvAlong(s, moves);
    CrashedIff(s, moves);
    NothingIsLeft(After(s, moves));
  }

  lemma NothingIsLeft(s: Program)
    requires Inv(s)
    ensures !s.client.mem.fault && !s.input.fault && !s.output.fault
    ensures s.life.main.Exited? ==>
              && s.client.mem.live == map[]
              && (forall x: Id :: s.client.mem.freed[x] == if x < s.client.mem.next then 1 else 0)
              && s.input.list.heap == map[] && s.output.list.heap == map[]
  {
    PR.ReportsFollowStream(Abstract(s));
    if s.life.main.Exited? {
      PR.AllFreedAtExit(Abstract(s));
      NoNodesLeft(s, Input);
      NoNodesLeft(s, Output);
    }
  }

  lemma NoNodesLeft(s: Program, which: Which)
    requires Inv(s) && s.life.main.Exited?
    ensures QueueOf(s, which).list.heap == map[]
  {
    var q := QueueOf(s, which);
    NobodyInside(s, which);
    assert q.lock.None?;
    assert |MP.Items(q.list)| == 0;
    assert q.list.heap.Keys == {};
  }

  lemma OneConsumerEach(c: Client, input: AQ.State, output: AQ.State)
    requires PI.QueueLinks(c, input, output)
    ensures forall t | t in USERS && t != ANALYZER && !input.phase[t].Idle? :: input.phase[t].op.Push?
    ensures forall t | t in USERS && t != PRINTER && !output.phase[t].Idle? :: output.phase[t].op.Push?
  {
  }

  lemma OthersOnlyPush(s: Program, which: Which)
    requires Sound(s) && PI.QueueLinks(s.client, MP.Abs(s.input), MP.Abs(s.output))
    ensures MR.SoleConsumer(QueueOf(s, which), if which.Input? then ANALYZER else PRINTER)
  {
    var q := QueueOf(s, which);
    OneConsumerEach(s.client, MP.Abs(s.input), MP.Abs(s.output));
    forall t | t in q.pc && t != (if which.Input? then ANALYZER else PRINTER) && q.pc[t].In?
      ensures q.pc[t].op.Push?
    {
      PhaseHasOp(q.list.heap, q.pc[t]);
      assert MP.Abs(q).phase[t] == MP.PhaseOf(q.list.heap, q.pc[t]);
    }
  }

  /** The analyzer is the only consumer of the first queue and the printer of the second: while one of
      them sleeps without a signal its queue holds a message exactly when a push has hung it in and not
      signalled it yet; in particular, while the lock is free, its queue is empty. */
  lemma {:induction false} SleepingConsumerMissesNothing(s: Program, moves: seq<Move>, which: Which)
    requires Start(s) && Runs(s, moves)
    ensures
      var q := QueueOf(After(s, moves), which);
      && MP.HasChain(q.list)
      && (MQ.Sleeps(q, if which.Input? then ANALYZER else PRINTER) ==>
            && (MP.Items(q.list) != [] <==> MR.OwesSignal(MP.Holder(q)))
            && (q.lock.None? ==> MP.Items(q.list) == []))
  {
    StartIsSound(s);
    InvAlong(s, moves);
    var s' := After(s, moves);
    var q := QueueOf(s', which);
    var consumer := if which.Input? then ANALYZER else PRINTER;
    if MQ.Sleeps(q, consumer) {
      InsideMeansOpen(s', which, consumer);
      assert PI.Links(Abstract(s'));
      OthersOnlyPush(s', which);
      MR.SoleSleeperFinds(q, consumer);
    }
  }
}
