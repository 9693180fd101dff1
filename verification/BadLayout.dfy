/** The layouts the program cannot cope with: for every layout without rows, or with fewer than eight
    columns, it has a run that reads outside a buffer although memory is never refused. main ignores what
    stat_layout_set_f returns, so nothing in the program keeps such a layout out. */
module BadLayout {
  import opened Common
  import opened QueueCalls
  import opened CpuUsage
  import opened Pipeline
  import PR = PipelineRuns
  import S = System
  import MQ = MessageQueue
  import MP = MessageQueueProof
  import MR = MessageQueueRuns
  import Alone = MessageQueueAlone
  import L = Lifecycle

  // ---------- one move more ----------

  lemma {:induction false} OneMore(start: S.Program, before: seq<S.Move>, s: S.Program, move: S.Move)
    requires S.Runs(start, before) && S.After(start, before) == s && S.CanMove(s, move)
    ensures S.Runs(start, before + [move]) && S.After(start, before + [move]) == S.Moved(s, move)
    decreases |before|
  {
    var all := before + [move];
    if before == [] {
      assert all[1..] == [];
    } else {
      OneMore(S.Moved(start, before[0]), before[1..], s, move);
      assert all[1..] == before[1..] + [move];
    }
  }

  /** Without rows a line of shares is empty. */
  ghost predicate LinesFit(c: Client) {
    c.layout.rows == 0 ==> forall id: Id | id in c.mem.live && c.mem.live[id].Shares? :: c.mem.live[id].line == []
  }

  /** No creation fails, and nothing is destroyed. */
  predicate Plain(moves: seq<S.Move>) {
    forall j | 0 <= j < |moves| :: !S.FailsCreation(moves[j]) && moves[j] != S.Live(L.Destroy)
  }

  /** main is still spawning. */
  predicate Early(s: S.Program) {
    L.Wf(s.life) && s.life.flag && s.life.main.Spawning?
  }

  /** Where a plain run has got to early on. */
  function Reached(start: S.Program, moves: seq<S.Move>): Option<S.Program> {
    if S.Runs(start, moves) && Plain(moves) && Early(S.After(start, moves)) then Some(S.After(start, moves)) else None
  }

  lemma BodyKeepsLines(c: Client, b: Body)
    requires BodyEnabled(c, b) && LinesFit(c)
    ensures LinesFit(BodyApply(c, b)) && BodyApply(c, b).layout == c.layout
  {
  }

  lemma LifeKeepsLines(c: Client, l: L.Step)
    requires LinesFit(c)
    ensures LinesFit(LifeApply(c, l, [])) && LifeApply(c, l, []).layout == c.layout
  {
  }

  lemma MoveKeepsLines(s: S.Program, move: S.Move)
    requires S.CanMove(s, move) && LinesFit(s.client) && move != S.Live(L.Destroy)
    ensures LinesFit(S.Moved(s, move).client) && S.Moved(s, move).client.layout == s.client.layout
  {
    match move
    case Live(l) => LifeKeepsLines(s.client, l);
    case Execute(b) => BodyKeepsLines(s.client, b);
    case Inside(_, _) =>
  }

  lemma {:induction false} LinesFitAlong(s: S.Program, moves: seq<S.Move>)
    requires S.Runs(s, moves) && Plain(moves) && LinesFit(s.client)
    ensures LinesFit(S.After(s, moves).client) && S.After(s, moves).client.layout == s.client.layout
    decreases |moves|
  {
    if moves == [] {
    } else {
      MoveKeepsLines(s, moves[0]);
      LinesFitAlong(S.Moved(s, moves[0]), moves[1..]);
    }
  }

  lemma MoveKeepsOrder(s: S.Program, move: S.Move, which: Which)
    requires S.CanMove(s, move) && MP.Inv(S.QueueOf(s, which)) && move != S.Live(L.Destroy)
    ensures MP.Inv(S.QueueOf(S.Moved(s, move), which))
  {
    var q := S.QueueOf(s, which);
    match move
    case Live(_) =>
    case Inside(w, step) => if w == which { MP.Keeps(q, step); }
    case Execute(b) =>
      if CallOf(s.client, b).Some? && CallOf(s.client, b).value.0 == which {
        MP.Keeps(q, MQ.Invoke(WorkerOf(b), CallOf(s.client, b).value.1));
      } else if CallOf(s.client, b).None? && ReturnOf(b).Some? && ReturnOf(b).value.0 == which {
        MP.Keeps(q, MQ.Return(WorkerOf(b)));
      }
  }

  /** The queues are in order at every moment of a plain run. */
  lemma {:induction false} InOrder(s: S.Program, moves: seq<S.Move>, which: Which)
    requires S.Runs(s, moves) && Plain(moves) && MP.Inv(S.QueueOf(s, which))
    ensures MP.Inv(S.QueueOf(S.After(s, moves), which))
    decreases |moves|
  {
    if moves == [] {
    } else {
      MoveKeepsOrder(s, moves[0], which);
      InOrder(S.Moved(s, moves[0]), moves[1..], which);
    }
  }

  lemma GoOn(start: S.Program, before: seq<S.Move>, s: S.Program, move: S.Move) returns (moves: seq<S.Move>, s': S.Program)
    requires Reached(start, before) == Some(s) && S.CanMove(s, move) && Early(S.Moved(s, move))
    requires !S.FailsCreation(move) && move != S.Live(L.Destroy)
    ensures Reached(start, moves) == Some(s') && s' == S.Moved(s, move)
  {
    OneMore(start, before, s, move);
    moves, s' := before + [move], S.Moved(s, move);
  }

  lemma GoLife(start: S.Program, before: seq<S.Move>, s: S.Program, l: L.Step) returns (moves: seq<S.Move>, s': S.Program)
    requires Reached(start, before) == Some(s) && L.Enabled(s.life, l) && LifeEnabled(s.client, l)
    requires !l.Destroy? && L.Apply(s.life, l).flag && L.Apply(s.life, l).main.Spawning?
    requires l != L.InitDone(ANALYZER, false)
    ensures Reached(start, moves) == Some(s')
    ensures s' == s.(life := L.Apply(s.life, l), client := LifeApply(s.client, l, []))
  {
    moves, s' := GoOn(start, before, s, S.Live(l));
  }

  lemma GoLocal(start: S.Program, before: seq<S.Move>, s: S.Program, b: Body) returns (moves: seq<S.Move>, s': S.Program)
    requires Reached(start, before) == Some(s) && s.life.workers[WorkerOf(b)].Looping? && BodyEnabled(s.client, b)
    requires CallOf(s.client, b).None? && ReturnOf(b).None? && b != RAlloc(false)
    ensures Reached(start, moves) == Some(s') && s' == s.(client := BodyApply(s.client, b))
  {
    moves, s' := GoOn(start, before, s, S.Execute(b));
  }

  /** A worker calls an operation. */
  lemma GoIn(start: S.Program, before: seq<S.Move>, s: S.Program, b: Body, which: Which, op: Op)
    returns (moves: seq<S.Move>, s': S.Program)
    requires Reached(start, before) == Some(s) && s.life.workers[WorkerOf(b)].Looping? && BodyEnabled(s.client, b)
    requires CallOf(s.client, b) == Some((which, op)) && ReturnOf(b).None?
    requires MQ.Enabled(S.QueueOf(s, which), MQ.Invoke(WorkerOf(b), op))
    ensures Reached(start, moves) == Some(s')
    ensures s' == S.WithQueue(s.(client := BodyApply(s.client, b)), which,
                              MQ.Apply(S.QueueOf(s, which), MQ.Invoke(WorkerOf(b), op)))
  {
    moves, s' := GoOn(start, before, s, S.Execute(b));
  }

  /** It returns. */
  lemma GoOut(start: S.Program, before: seq<S.Move>, s: S.Program, b: Body, which: Which, result: Result)
    returns (moves: seq<S.Move>, s': S.Program)
    requires Reached(start, before) == Some(s) && s.life.workers[WorkerOf(b)].Looping? && BodyEnabled(s.client, b)
    requires CallOf(s.client, b).None? && ReturnOf(b) == Some((which, result))
    requires MQ.Enabled(S.QueueOf(s, which), MQ.Return(WorkerOf(b)))
    requires S.QueueOf(s, which).pc[WorkerOf(b)].at.result == result
    ensures Reached(start, moves) == Some(s')
    ensures s' == S.WithQueue(s.(client := BodyApply(s.client, b)), which,
                              MQ.Apply(S.QueueOf(s, which), MQ.Return(WorkerOf(b))))
  {
    moves, s' := GoOn(start, before, s, S.Execute(b));
  }

  /** The client after what it does not see: a push may have taken effect. */
  predicate Unseen(c: Client, c': Client) { c' == c.(accepted := c'.accepted) }

  lemma GoInside(start: S.Program, before: seq<S.Move>, s: S.Program, which: Which, step: MQ.Step)
    returns (moves: seq<S.Move>, s': S.Program)
    requires Reached(start, before) == Some(s) && MQ.Enabled(S.QueueOf(s, which), step) && !step.Invoke? && !step.Return?
    ensures Reached(start, moves) == Some(s') && Unseen(s.client, s'.client)
    ensures s' == S.WithQueue(s, which, MQ.Apply(S.QueueOf(s, which), step)).(client := s'.client)
  {
    moves, s' := GoOn(start, before, s, S.Inside(which, step));
  }

  lemma {:induction false} GoThrough(start: S.Program, before: seq<S.Move>, s: S.Program, which: Which, steps: seq<MQ.Step>)
    returns (moves: seq<S.Move>, s': S.Program)
    requires Reached(start, before) == Some(s) && MQ.Runs(S.QueueOf(s, which), steps) && Alone.AllInside(steps)
    ensures Reached(start, moves) == Some(s') && Unseen(s.client, s'.client)
    ensures s' == S.WithQueue(s, which, MQ.After(S.QueueOf(s, which), steps)).(client := s'.client)
    decreases |steps|
  {
    if steps == [] {
      moves, s' := before, s;
    } else {
      moves, s' := GoInside(start, before, s, which, steps[0]);
      moves, s' := GoThrough(start, moves, s', which, steps[1..]);
    }
  }

  // ---------- whole operations ----------

  const OUTSIDE: map<Tid, MQ.Pc> := map t | t in USERS :: MQ.Out

  ghost function ItemsOf(q: MQ.State): seq<Message> {
    if MP.HasChain(q.list) then MP.Items(q.list) else []
  }

  lemma QueueInOrder(start: S.Program, moves: seq<S.Move>, s: S.Program, which: Which)
    requires S.Begins(start) && Reached(start, moves) == Some(s)
    ensures MP.Inv(S.QueueOf(s, which)) && MP.HasChain(S.QueueOf(s, which).list)
  {
    MR.InitInv(USERS);
    InOrder(start, moves, which);
  }

  /** Nobody but `t` is inside, and `t` is about to take the lock. */
  lemma CallReaches(q: MQ.State, t: Tid, op: Op)
    requires MP.Inv(q) && q.pc == OUTSIDE && t in USERS
    ensures MQ.Enabled(q, MQ.Invoke(t, op))
    ensures
      var q' := MQ.Apply(q, MQ.Invoke(t, op));
      Alone.Reaches(q', [], q', t, MQ.In(op, MQ.Locking)) && ItemsOf(q') == ItemsOf(q)
  {
    MP.Keeps(q, MQ.Invoke(t, op));
  }

  /** From outside through a whole push, up to its return. */
  lemma PushFrom(q: MQ.State, t: Tid, m: Message) returns (steps: seq<MQ.Step>, q': MQ.State)
    requires MP.Inv(q) && q.pc == OUTSIDE && t in USERS
    ensures MQ.Enabled(q, MQ.Invoke(t, Push(Some(m))))
    ensures
      var called := MQ.Apply(q, MQ.Invoke(t, Push(Some(m))));
      MQ.Runs(called, steps) && MQ.After(called, steps) == q' && Alone.AllInside(steps)
    ensures q'.pc == OUTSIDE[t := MQ.In(Push(Some(m)), MQ.Returning(Pushed))] && ItemsOf(q') == ItemsOf(q) + [m]
  {
    CallReaches(q, t, Push(Some(m)));
    steps, q' := Alone.PushAlone(MQ.Apply(q, MQ.Invoke(t, Push(Some(m)))), t, m);
  }

  /** From outside through a whole pop. */
  lemma PopFrom(q: MQ.State, t: Tid) returns (steps: seq<MQ.Step>, q': MQ.State)
    requires MP.Inv(q) && q.pc == OUTSIDE && t in USERS && ItemsOf(q) != []
    ensures MQ.Enabled(q, MQ.Invoke(t, PopWaitT))
    ensures
      var called := MQ.Apply(q, MQ.Invoke(t, PopWaitT));
      MQ.Runs(called, steps) && MQ.After(called, steps) == q' && Alone.AllInside(steps)
    ensures q'.pc == OUTSIDE[t := MQ.In(PopWaitT, MQ.Returning(Got(ItemsOf(q)[0])))] && ItemsOf(q') == ItemsOf(q)[1..]
  {
    CallReaches(q, t, PopWaitT);
    steps, q' := Alone.PopAlone(MQ.Apply(q, MQ.Invoke(t, PopWaitT)), t);
  }

  /** Through a whole operation, up to its return. */
  lemma GoAlong(start: S.Program, before: seq<S.Move>, s: S.Program, b: Body, which: Which, op: Op, steps: seq<MQ.Step>)
    returns (moves: seq<S.Move>, s': S.Program)
    requires Reached(start, before) == Some(s) && s.life.workers[WorkerOf(b)].Looping? && BodyEnabled(s.client, b)
    requires CallOf(s.client, b) == Some((which, op)) && ReturnOf(b).None?
    requires MQ.Enabled(S.QueueOf(s, which), MQ.Invoke(WorkerOf(b), op)) && Alone.AllInside(steps)
    requires MQ.Runs(MQ.Apply(S.QueueOf(s, which), MQ.Invoke(WorkerOf(b), op)), steps)
    ensures Reached(start, moves) == Some(s') && Unseen(BodyApply(s.client, b), s'.client)
    ensures
      var q' := MQ.After(MQ.Apply(S.QueueOf(s, which), MQ.Invoke(WorkerOf(b), op)), steps);
      s' == S.WithQueue(s, which, q').(client := s'.client)
  {
    moves, s' := GoIn(start, before, s, b, which, op);
    moves, s' := GoThrough(start, moves, s', which, steps);
  }

  /** A push that is alone, up to its return. */
  lemma GoPush(start: S.Program, before: seq<S.Move>, s: S.Program, b: Body, which: Which, m: Message)
    returns (moves: seq<S.Move>, s': S.Program)
    requires S.Begins(start)
    requires Reached(start, before) == Some(s) && s.life.workers[WorkerOf(b)].Looping? && BodyEnabled(s.client, b)
    requires CallOf(s.client, b) == Some((which, Push(Some(m)))) && ReturnOf(b).None?
    requires S.QueueOf(s, which).pc == OUTSIDE && WorkerOf(b) in USERS
    ensures Reached(start, moves) == Some(s') && Unseen(BodyApply(s.client, b), s'.client)
    ensures
      var q' := S.QueueOf(s', which);
      && s' == S.WithQueue(s, which, q').(client := s'.client)
      && q'.pc == OUTSIDE[WorkerOf(b) := MQ.In(Push(Some(m)), MQ.Returning(Pushed))]
      && ItemsOf(q') == ItemsOf(S.QueueOf(s, which)) + [m]
  {
    QueueInOrder(start, before, s, which);
    var steps, q' := PushFrom(S.QueueOf(s, which), WorkerOf(b), m);
    moves, s' := GoAlong(start, before, s, b, which, Push(Some(m)), steps);
  }

  /** A pop that is alone, with something in the queue. */
  lemma GoPop(start: S.Program, before: seq<S.Move>, s: S.Program, b: Body, which: Which)
    returns (moves: seq<S.Move>, s': S.Program)
    requires S.Begins(start)
    requires Reached(start, before) == Some(s) && s.life.workers[WorkerOf(b)].Looping? && BodyEnabled(s.client, b)
    requires CallOf(s.client, b) == Some((which, PopWaitT)) && ReturnOf(b).None?
    requires S.QueueOf(s, which).pc == OUTSIDE && WorkerOf(b) in USERS && ItemsOf(S.QueueOf(s, which)) != []
    ensures Reached(start, moves) == Some(s') && Unseen(BodyApply(s.client, b), s'.client)
    ensures
      var items, q' := ItemsOf(S.QueueOf(s, which)), S.QueueOf(s', which);
      && s' == S.WithQueue(s, which, q').(client := s'.client)
      && q'.pc == OUTSIDE[WorkerOf(b) := MQ.In(PopWaitT, MQ.Returning(Got(items[0])))]
      && ItemsOf(q') == items[1..]
  {
    QueueInOrder(start, before, s, which);
    var steps, q' := PopFrom(S.QueueOf(s, which), WorkerOf(b));
    moves, s' := GoAlong(start, before, s, b, which, PopWaitT, steps);
  }

  /** The return: everybody is outside again. */
  lemma GoBack(start: S.Program, before: seq<S.Move>, s: S.Program, b: Body, which: Which, op: Op, result: Result)
    returns (moves: seq<S.Move>, s': S.Program)
    requires Reached(start, before) == Some(s) && s.life.workers[WorkerOf(b)].Looping? && BodyEnabled(s.client, b)
    requires CallOf(s.client, b).None? && ReturnOf(b) == Some((which, result)) && WorkerOf(b) in USERS
    requires S.QueueOf(s, which).pc == OUTSIDE[WorkerOf(b) := MQ.In(op, MQ.Returning(result))]
    ensures Reached(start, moves) == Some(s') && s'.client == BodyApply(s.client, b)
    ensures
      var q' := S.QueueOf(s', which);
      && s' == S.WithQueue(s, which, q').(client := s'.client)
      && q'.pc == OUTSIDE && ItemsOf(q') == ItemsOf(S.QueueOf(s, which))
  {
    moves, s' := GoOut(start, before, s, b, which, result);
    assert S.QueueOf(s', which).pc == OUTSIDE;
  }

  // ---------- stretches of the way ----------

  /** Everything about the life cycle but the watchdog flags is the same. */
  predicate SameLife(life: L.State, life': L.State) {
    life' == life.(dogs := life'.dogs)
  }

  /** main spawns worker `i`, which initialises and starts its first iteration. */
  lemma Starts(start: S.Program, before: seq<S.Move>, s: S.Program, i: nat) returns (moves: seq<S.Move>, s': S.Program)
    requires S.Begins(start) && Reached(start, before) == Some(s)
    requires s.life.main == L.Spawning(i) && i < 3 && s.life.workers[i].NotStarted?
    ensures Reached(start, moves) == Some(s') && s'.life.main == L.Spawning(i + 1)
    ensures s'.life.workers == s.life.workers[i := L.Looping] && s'.input == s.input && s'.output == s.output
    ensures i == READER ==> s'.client == s.client.(reader := ROpening)
    ensures i == ANALYZER ==>
              && s'.client == s.client.(mem := s'.client.mem, analyzer := s'.client.analyzer)
              && s'.client.analyzer.at == ATesting && s'.client.analyzer.prev == None
    ensures i == PRINTER ==> s'.client == s.client.(printer := PFetching)
  {
    moves, s' := GoLife(start, before, s, L.Spawn);
    moves, s' := GoLife(start, moves, s', L.InitDone(i, true));
    moves, s' := GoLife(start, moves, s', L.Check(i));
    moves, s' := GoLife(start, moves, s', L.Report(i));
  }

  /** The reader reads a snapshot. */
  lemma Reads(start: S.Program, before: seq<S.Move>, s: S.Program) returns (moves: seq<S.Move>, s': S.Program)
    requires S.Begins(start) && Reached(start, before) == Some(s)
    requires s.life.workers[READER].Looping? && s.client.reader == ROpening
    ensures Reached(start, moves) == Some(s')
    ensures s' == s.(client := s.client.(mem := s'.client.mem, reader := s'.client.reader))
    ensures s'.client.reader.RPushing?
  {
    var grid := FreshStats(s.client.layout).grid;
    moves, s' := GoLocal(start, before, s, ROpen(true));
    moves, s' := GoLocal(start, moves, s', RAlloc(true));
    assert CpuUsage.Fits(grid, s.client.layout);
    moves, s' := GoLocal(start, moves, s', RRead(grid, true));
  }

  /** The reader pushes it. */
  lemma Hands(start: S.Program, before: seq<S.Move>, s: S.Program) returns (moves: seq<S.Move>, s': S.Program)
    requires S.Begins(start) && Reached(start, before) == Some(s)
    requires s.life.workers[READER].Looping? && s.client.reader.RPushing?
    requires s.input.pc == OUTSIDE
    ensures Reached(start, moves) == Some(s') && s'.life == s.life && s'.output == s.output
    ensures Unseen(s.client.(reader := RSleeping), s'.client)
    ensures s'.input.pc == OUTSIDE && |ItemsOf(s'.input)| == |ItemsOf(s.input)| + 1
  {
    var m := s.client.reader.data;
    moves, s' := GoPush(start, before, s, RPush, Input, m);
    moves, s' := GoBack(start, moves, s', RPushed(Pushed), Input, Push(Some(m)), Pushed);
  }

  /** The reader's iteration ends and the next one starts. */
  lemma GoesRound(start: S.Program, before: seq<S.Move>, s: S.Program) returns (moves: seq<S.Move>, s': S.Program)
    requires S.Begins(start) && Reached(start, before) == Some(s)
    requires s.life.workers[READER].Looping? && s.client.reader == RSleeping
    ensures Reached(start, moves) == Some(s') && SameLife(s.life, s'.life)
    ensures s' == s.(life := s'.life, client := s.client.(reader := ROpening))
  {
    moves, s' := GoLocal(start, before, s, RSleep);
    moves, s' := GoLife(start, moves, s', L.LoopDone(READER, false));
    moves, s' := GoLife(start, moves, s', L.Check(READER));
    moves, s' := GoLife(start, moves, s', L.Report(READER));
    assert s'.life.workers == s.life.workers;
  }

  /** One iteration of the reader. */
  lemma Delivers(start: S.Program, before: seq<S.Move>, s: S.Program) returns (moves: seq<S.Move>, s': S.Program)
    requires S.Begins(start) && Reached(start, before) == Some(s)
    requires s.life.workers[READER].Looping? && s.client.reader == ROpening
    requires s.input.pc == OUTSIDE
    ensures Reached(start, moves) == Some(s') && SameLife(s.life, s'.life) && s'.output == s.output
    ensures s'.client.reader == ROpening && s'.client.analyzer == s.client.analyzer && s'.client.printer == s.client.printer
    ensures s'.input.pc == OUTSIDE && |ItemsOf(s'.input)| == |ItemsOf(s.input)| + 1
  {
    moves, s' := Reads(start, before, s);
    moves, s' := Hands(start, moves, s');
    moves, s' := GoesRound(start, moves, s');
  }

  /** The analyzer fetches a snapshot. */
  lemma Takes(start: S.Program, before: seq<S.Move>, s: S.Program) returns (moves: seq<S.Move>, s': S.Program)
    requires S.Begins(start) && Reached(start, before) == Some(s)
    requires s.life.workers[ANALYZER].Looping? && s.client.analyzer.at == AFetching
    requires s.input.pc == OUTSIDE && ItemsOf(s.input) != []
    ensures Reached(start, moves) == Some(s') && s'.life == s.life && s'.output == s.output
    ensures s'.client.printer == s.client.printer && s'.input.pc == OUTSIDE && ItemsOf(s'.input) == ItemsOf(s.input)[1..]
    ensures s'.client.analyzer == s.client.analyzer.(
              at := if s.client.analyzer.prev.Some? then AAllocating else AShifting, curr := Some(ItemsOf(s.input)[0]))
  {
    hide Reached, S.Begins, ItemsOf;
    var got := Got(ItemsOf(s.input)[0]);
    moves, s' := GoPop(start, before, s, AFetch, Input);
    moves, s' := GoBack(start, moves, s', AFetched(got), Input, PopWaitT, got);
  }

  /** The same from the loop test on. */
  lemma Fetches(start: S.Program, before: seq<S.Move>, s: S.Program) returns (moves: seq<S.Move>, s': S.Program)
    requires S.Begins(start) && Reached(start, before) == Some(s)
    requires s.life.workers[ANALYZER].Looping? && s.client.analyzer.at == ATesting
    requires s.input.pc == OUTSIDE && ItemsOf(s.input) != []
    ensures Reached(start, moves) == Some(s') && s'.life == s.life && s'.output == s.output
    ensures s'.client.printer == s.client.printer && s'.input.pc == OUTSIDE && ItemsOf(s'.input) == ItemsOf(s.input)[1..]
    ensures s'.client.analyzer == s.client.analyzer.(
              at := if s.client.analyzer.prev.Some? then AAllocating else AShifting, curr := Some(ItemsOf(s.input)[0]))
  {
    moves, s' := GoLocal(start, before, s, ATest(true));
    moves, s' := Takes(start, moves, s');
  }

  /** The analyzer computes a result, and reads outside its rows if they are too short. */
  lemma Computes(start: S.Program, before: seq<S.Move>, s: S.Program) returns (moves: seq<S.Move>, s': S.Program)
    requires S.Begins(start) && Reached(start, before) == Some(s)
    requires s.life.workers[ANALYZER].Looping? && s.client.analyzer.at == AAllocating
    ensures Reached(start, moves) == Some(s') && s' == s.(client := s'.client) && s'.client.printer == s.client.printer
    ensures s'.client.analyzer.at == AFreeing && s'.client.analyzer.result.Some?
    ensures s.client.layout.rows >= 1 && s.client.layout.columns < 8 ==> s'.client.mem.fault
  {
    hide Reached, S.Begins, ItemsOf;
    moves, s' := GoLocal(start, before, s, AAlloc(true));
    moves, s' := GoLocal(start, moves, s', ACompute);
  }

  /** The analyzer pushes the result. */
  lemma Passes(start: S.Program, before: seq<S.Move>, s: S.Program) returns (moves: seq<S.Move>, s': S.Program)
    requires S.Begins(start) && Reached(start, before) == Some(s)
    requires s.life.workers[ANALYZER].Looping? && s.client.analyzer.at == APushing
    requires s.client.analyzer.result.Some? && s.output.pc == OUTSIDE
    ensures Reached(start, moves) == Some(s') && s'.life == s.life && s'.client.printer == s.client.printer
    ensures s'.output.pc == OUTSIDE && ItemsOf(s'.output) != []
  {
    hide Reached, S.Begins, ItemsOf;
    var m := s.client.analyzer.result.value;
    moves, s' := GoPush(start, before, s, APush, Output, m);
    moves, s' := GoBack(start, moves, s', APushed(Pushed), Output, Push(Some(m)), Pushed);
  }

  /** The printer fetches a line. */
  lemma FetchesLine(start: S.Program, before: seq<S.Move>, s: S.Program) returns (moves: seq<S.Move>, s': S.Program)
    requires S.Begins(start) && Reached(start, before) == Some(s)
    requires s.life.workers[PRINTER].Looping? && s.client.printer == PFetching
    requires s.output.pc == OUTSIDE && ItemsOf(s.output) != []
    ensures Reached(start, moves) == Some(s') && s'.life == s.life && s'.client.printer.PPrinting?
  {
    hide Reached, S.Begins, ItemsOf;
    var got := Got(ItemsOf(s.output)[0]);
    moves, s' := GoPop(start, before, s, PFetch, Output);
    moves, s' := GoBack(start, moves, s', PFetched(got), Output, PopWaitT, got);
  }

  /** The printer reads element 0 of its line, which is not there without rows. */
  lemma Prints(start: S.Program, before: seq<S.Move>, s: S.Program) returns (moves: seq<S.Move>, s': S.Program)
    requires Reached(start, before) == Some(s) && LinesFit(s.client) && s.client.layout.rows == 0
    requires s.life.workers[PRINTER].Looping? && s.client.printer.PPrinting?
    ensures Reached(start, moves) == Some(s') && s'.client.mem.fault
  {
    moves, s' := GoLocal(start, before, s, PPrint);
  }

  // ---------- the run ----------

  /** The reader starts and delivers two snapshots. */
  lemma TwoArrive(start: S.Program) returns (moves: seq<S.Move>, s: S.Program)
    requires S.Begins(start)
    ensures Reached(start, moves) == Some(s) && s.life.main == L.Spawning(1) && s.output.pc == OUTSIDE
    ensures s.life.workers[ANALYZER].NotStarted? && s.life.workers[PRINTER].NotStarted?
    ensures s.input.pc == OUTSIDE && |ItemsOf(s.input)| >= 2
  {
    moves, s := Starts(start, [], start, READER);
    moves, s := Delivers(start, moves, s);
    moves, s := Delivers(start, moves, s);
  }

  /** The analyzer starts and fetches both. */
  lemma HasBoth(start: S.Program) returns (moves: seq<S.Move>, s: S.Program)
    requires S.Begins(start)
    ensures Reached(start, moves) == Some(s) && s.life.main == L.Spawning(2) && s.life.workers[ANALYZER].Looping?
    ensures s.life.workers[PRINTER].NotStarted? && s.output.pc == OUTSIDE && s.client.analyzer.at == AAllocating
  {
    moves, s := TwoArrive(start);
    moves, s := Starts(start, moves, s, ANALYZER);
    moves, s := Fetches(start, moves, s);
    moves, s := GoLocal(start, moves, s, AShift);
    moves, s := Fetches(start, moves, s);
  }

  /** The result reaches the printer, which prints it. */
  lemma PrintsResult(start: S.Program, before: seq<S.Move>, s: S.Program) returns (moves: seq<S.Move>, s': S.Program)
    requires S.Begins(start) && Reached(start, before) == Some(s) && start.client.layout.rows == 0
    requires s.life.workers[ANALYZER].Looping? && s.client.analyzer.at == AFreeing && s.client.analyzer.result.Some?
    requires s.life.main == L.Spawning(2) && s.life.workers[PRINTER].NotStarted? && s.output.pc == OUTSIDE
    ensures Reached(start, moves) == Some(s') && s'.client.mem.fault
  {
    moves, s' := GoLocal(start, before, s, AFree);
    moves, s' := Passes(start, moves, s');
    moves, s' := Starts(start, moves, s', PRINTER);
    moves, s' := FetchesLine(start, moves, s');
    LinesFitAlong(start, moves);
    moves, s' := Prints(start, moves, s');
  }

  /** From every beginning with such a layout there is a run that faults though no creation fails. */
  lemma BadLayoutFaults(start: S.Program) returns (moves: seq<S.Move>)
    requires S.Begins(start) && !PR.GoodLayout(start.client.layout)
    ensures S.Runs(start, moves) && !S.SomeCreationFails(moves) && S.After(start, moves).client.mem.fault
  {
    var s;
    moves, s := HasBoth(start);
    LinesFitAlong(start, moves);
    moves, s := Computes(start, moves, s);
    if start.client.layout.rows == 0 {
      moves, s := PrintsResult(start, moves, s);
    }
  }

  /** As long as memory is not refused to a creation, no run faults exactly if the layout has a row and
      eight columns. */
  lemma {:induction false} SafeIffGoodLayout(start: S.Program)
    requires S.Begins(start)
    ensures (forall moves | S.Runs(start, moves) && !S.SomeCreationFails(moves) :: !S.Faulty(S.After(start, moves))) <==>
              PR.GoodLayout(start.client.layout)
  {
    if PR.GoodLayout(start.client.layout) {
      forall moves | S.Runs(start, moves) && !S.SomeCreationFails(moves) ensures !S.Faulty(S.After(start, moves)) {
        S.ProgramFreesEverythingOnce(start, moves);
      }
    } else {
      var moves := BadLayoutFaults(start);
      assert S.Faulty(S.After(start, moves));
    }
  }

  // ---------- refused memory ----------

  /** With a row there is always a run in which the reader is refused its array, and crashes. */
  lemma RefusedReaderCrashes(start: S.Program) returns (moves: seq<S.Move>)
    requires S.Begins(start) && start.client.layout.rows >= 1
    ensures S.Runs(start, moves) && S.SomeCreationFails(moves) && S.After(start, moves).client.crashed
  {
    var s;
    moves, s := Starts(start, [], start, READER);
    moves, s := GoLocal(start, moves, s, ROpen(true));
    LinesFitAlong(start, moves);
    var refused := S.Execute(RAlloc(false));
    OneMore(start, moves, s, refused);
    moves := moves + [refused];
    assert S.FailsCreation(moves[|moves| - 1]);
  }

  /** A good layout does not help: one row and eight columns, and malloc answers NULL. */
  lemma GoodLayoutCanCrash() returns (start: S.Program, moves: seq<S.Move>)
    ensures S.Start(start) && start.client.layout == Layout(1, 8)
    ensures S.Runs(start, moves) && S.Faulty(S.After(start, moves))
  {
    var idle := L.State(true, [false, false, false, false],
                        [L.NotStarted, L.NotStarted, L.NotStarted, L.NotStarted], L.Spawning(0));
    start := S.Program(idle, InitialClient(Layout(1, 8)), MQ.Init(USERS), MQ.Init(USERS));
    moves := RefusedReaderCrashes(start);
  }
}
