/** What every run of the message queue keeps: the list stays well formed at every step between
    two accesses, no step follows a bad pointer, and the machine refines the atomic queue. */
module MessageQueueProof {
  import opened Common
  import opened QueueCalls
  import opened MessageQueue
  import AQ = AtomicQueue

  // ---------- the linked list ----------

  function NextIn(c: seq<Addr>, i: nat): Option<Addr> {
    if i + 1 < |c| then Some(c[i + 1]) else None
  }

  function LastOf(c: seq<Addr>): Option<Addr> {
    if c == [] then None else Some(c[|c| - 1])
  }

  /** `c` lists, without repetition, the nodes met from pointer `p` up to NULL. */
  ghost predicate IsChain(heap: map<Addr, Node>, p: Option<Addr>, c: seq<Addr>) {
    && p == (if c == [] then None else Some(c[0]))
    && (forall i | 0 <= i < |c| :: c[i] in heap)
    && (forall i {:trigger NextIn(c, i)} | 0 <= i < |c| :: heap[c[i]].next == NextIn(c, i))
    && (forall i, j | 0 <= i < j < |c| :: c[i] != c[j])
  }

  function Cells(c: seq<Addr>): set<Addr> {
    set a | a in c
  }

  function ValueAt(heap: map<Addr, Node>, a: Addr): Message {
    if a in heap then heap[a].value else 0
  }

  function Values(heap: map<Addr, Node>, c: seq<Addr>): seq<Message> {
    seq(|c|, i requires 0 <= i < |c| => ValueAt(heap, c[i]))
  }

  /** From one pointer there is only one chain. */
  lemma {:induction false} ChainIsUnique(heap: map<Addr, Node>, p: Option<Addr>, c: seq<Addr>, d: seq<Addr>)
    requires IsChain(heap, p, c) && IsChain(heap, p, d)
    ensures c == d
  {
    var k := 0;
    while k < |c| && k < |d|
      invariant k <= |c| && k <= |d|
      invariant forall i | 0 <= i < k :: c[i] == d[i]
    {
      if k > 0 {
        assert heap[c[k - 1]].next == NextIn(c, k - 1) && heap[d[k - 1]].next == NextIn(d, k - 1);
      }
      k := k + 1;
    }
    if k > 0 {
      assert heap[c[k - 1]].next == NextIn(c, k - 1) && heap[d[k - 1]].next == NextIn(d, k - 1);
    }
  }

  lemma ChainAppend(heap: map<Addr, Node>, p: Option<Addr>, c: seq<Addr>, n: Addr)
    requires IsChain(heap, p, c) && c != [] && n in heap && n !in c && heap[n].next == None
    ensures
      var last := c[|c| - 1];
      var heap' := heap[last := heap[last].(next := Some(n))];
      IsChain(heap', p, c + [n]) && Values(heap', c + [n]) == Values(heap, c) + [heap[n].value]
  {
    var last := c[|c| - 1];
    var heap' := heap[last := heap[last].(next := Some(n))];
    var d := c + [n];
    forall i | 0 <= i < |d| ensures d[i] in heap' && heap'[d[i]].next == NextIn(d, i) {
      if i < |c| - 1 {
        assert heap[c[i]].next == NextIn(c, i);
        assert c[i] != last;
      }
    }
  }

  lemma ChainTail(heap: map<Addr, Node>, p: Option<Addr>, c: seq<Addr>)
    requires IsChain(heap, p, c) && c != []
    ensures IsChain(heap, heap[c[0]].next, c[1..])
    ensures Values(heap, c)[0] == heap[c[0]].value && Values(heap, c[1..]) == Values(heap, c)[1..]
    ensures c[0] !in c[1..] && Cells(c) == Cells(c[1..]) + {c[0]}
    ensures LastOf(c) == if |c| == 1 then Some(c[0]) else LastOf(c[1..])
    ensures heap[c[0]].next.None? <==> |c| == 1
  {
    var d := c[1..];
    assert heap[c[0]].next == NextIn(c, 0);
    forall i | 0 <= i < |d| ensures d[i] in heap && heap[d[i]].next == NextIn(d, i) {
      assert heap[c[i + 1]].next == NextIn(c, i + 1);
    }
    assert c == [c[0]] + d;
  }

  lemma ChainFrame(heap: map<Addr, Node>, heap': map<Addr, Node>, p: Option<Addr>, c: seq<Addr>)
    requires IsChain(heap, p, c)
    requires forall a | a in c :: a in heap' && heap'[a] == heap[a]
    ensures IsChain(heap', p, c) && Values(heap', c) == Values(heap, c)
  {
    forall i | 0 <= i < |c| ensures c[i] in heap' && heap'[c[i]].next == NextIn(c, i) {
      assert c[i] in c;
    }
  }

  /** The loop of queue_destroy follows no dangling pointer, yields the values of the list in order,
      and frees its nodes, each one once, and no others. */
  lemma {:induction false} FreesChain(heap: map<Addr, Node>, p: Option<Addr>, c: seq<Addr>)
    requires IsChain(heap, p, c)
    ensures FreeFrom(heap, p) == Walk(Values(heap, c), heap - Cells(c), false)
    decreases |c|
  {
    if c == [] {
      assert heap - Cells(c) == heap;
    } else {
      var d, rest := c[1..], heap - {c[0]};
      ChainTail(heap, p, c);
      ChainFrame(heap, rest, heap[c[0]].next, d);
      FreesChain(rest, heap[c[0]].next, d);
      assert rest - Cells(d) == heap - Cells(c);
      assert Values(heap, c) == [heap[c[0]].value] + Values(heap, d);
    }
  }

  lemma ChainCons(heap: map<Addr, Node>, a: Addr, c: seq<Addr>)
    requires a in heap && a !in c && IsChain(heap, heap[a].next, c)
    ensures IsChain(heap, Some(a), [a] + c)
  {
    var d := [a] + c;
    forall i | 0 <= i < |d| ensures d[i] in heap && heap[d[i]].next == NextIn(d, i) {
      if i > 0 {
        assert heap[c[i - 1]].next == NextIn(c, i - 1);
      }
    }
  }

  /** If the loop follows no dangling pointer, it has gone along a chain. */
  lemma {:induction false} WalksChain(heap: map<Addr, Node>, p: Option<Addr>) returns (c: seq<Addr>)
    requires !FreeFrom(heap, p).fault
    ensures IsChain(heap, p, c)
    decreases heap.Keys
  {
    if p.None? {
      c := [];
    } else {
      var rest := heap - {p.value};
      var d := WalksChain(rest, heap[p.value].next);
      assert forall i | 0 <= i < |d| :: d[i] in rest;
      ChainFrame(rest, heap, heap[p.value].next, d);
      ChainCons(heap, p.value, d);
      c := [p.value] + d;
    }
  }

  // ---------- the invariant ----------

  predicate InSection(pc: Pc) {
    pc.In? && !pc.at.Locking? && !pc.at.Asleep? && !pc.at.Woken? && !pc.at.Returning?
  }

  /** A lock holder is inside the critical section, and nobody else is. */
  ghost predicate MutualExclusion(s: State) {
    && (s.lock.Some? ==> s.lock.value in s.pc)
    && forall t | t in s.pc :: InSection(s.pc[t]) <==> s.lock == Some(t)
  }

  predicate PcOk(pc: Pc) {
    pc.In? ==>
      && (pc.at.Allocating? || pc.at.Linking? || pc.at.SettingBack? || pc.at.Signalling? ==> pc.op.Push?)
      && (pc.at.Linking? || pc.at.SettingBack? || pc.at == Signalling(true) ==> pc.op.message.Some?)
      && (pc.at.Reading? || pc.at.Unlinking? || pc.at.ClearingBack? || pc.at.Freeing? ==> pc.op.Pops())
      && (pc.at.Asleep? || pc.at.Woken? ==> pc.op.PopWait? || pc.op.PopWaitT?)
      && (pc.at == Woken(true) ==> pc.op.PopWaitT?)
      && (pc.at.Unlocking? || pc.at.Returning? ==> Fits(pc.op, pc.at.result))
  }

  /** Where the lock holder stands; `Out` if nobody holds the lock. */
  function Holder(s: State): Pc {
    if s.lock.Some? && s.lock.value in s.pc then s.pc[s.lock.value] else Out
  }

  /** The node that is allocated and not in the list. */
  function InHand(pc: Pc): set<Addr> {
    if pc.In? && (pc.at.Linking? || pc.at.ClearingBack? || pc.at.Freeing?) then {pc.at.node} else {}
  }

  /** The list whose nodes are `c`, as the lock holder at `holder` may have left it. The heap
      holds the nodes of the list, the one node the holder has in hand, and nothing else. */
  ghost predicate Shape(list: List, c: seq<Addr>, holder: Pc) {
    && IsChain(list.heap, list.front, c)
    && list.back == (if holder.In? && holder.at.SettingBack? && c != [] then LastOf(c[..|c| - 1])
                     else if holder.In? && holder.at.ClearingBack? then Some(holder.at.node)
                     else LastOf(c))
    && list.heap.Keys == Cells(c) + InHand(holder)
    && InHand(holder) !! Cells(c)
    && (holder.In? && holder.at.Linking? ==>
          list.heap[holder.at.node].next.None? && holder.op == Push(Some(list.heap[holder.at.node].value)))
    && (holder.In? && holder.at.SettingBack? ==> LastOf(c) == Some(holder.at.node))
    && (holder.In? && holder.at == Signalling(true) ==> c != [])
    && (holder.In? && holder.at.Unlinking? ==> list.front == Some(holder.at.node))
    && (holder.In? && holder.at.ClearingBack? ==> c == [])
  }

  ghost predicate HasChain(list: List) {
    exists c :: IsChain(list.heap, list.front, c)
  }

  ghost function Chain(list: List): (c: seq<Addr>)
    requires HasChain(list)
    ensures IsChain(list.heap, list.front, c)
  {
    var c :| IsChain(list.heap, list.front, c);
    c
  }

  ghost predicate ListOk(list: List, holder: Pc) {
    HasChain(list) && Shape(list, Chain(list), holder)
  }

  ghost predicate ThreadsOk(s: State) {
    MutualExclusion(s) && forall t | t in s.pc :: PcOk(s.pc[t])
  }

  ghost predicate Inv(s: State) {
    !s.fault && ThreadsOk(s) && ListOk(s.list, Holder(s))
  }

  /** queue_destroy follows a dangling pointer exactly if the nodes are no chain from front to NULL. */
  lemma {:induction false} DestroyFaultsIff(s: State)
    ensures Destroyed(s).fault <==> s.fault || !HasChain(s.list)
  {
    if HasChain(s.list) {
      FreesChain(s.list.heap, s.list.front, Chain(s.list));
    } else if !FreeFrom(s.list.heap, s.list.front).fault {
      var c := WalksChain(s.list.heap, s.list.front);
    }
  }

  // ---------- refinement of the atomic queue ----------

  function PhaseOf(heap: map<Addr, Node>, pc: Pc): AQ.Phase {
    match pc
    case Out => AQ.Idle
    case In(op, SettingBack(_)) => AQ.Decided(op, Pushed)
    case In(op, Signalling(ok)) => AQ.Decided(op, if ok then Pushed else NotPushed)
    case In(op, ClearingBack(n)) => AQ.Decided(op, Got(ValueAt(heap, n)))
    case In(op, Freeing(n)) => AQ.Decided(op, Got(ValueAt(heap, n)))
    case In(op, Unlocking(result)) => AQ.Decided(op, result)
    case In(op, Returning(result)) => AQ.Decided(op, result)
    case In(op, _) => AQ.Pending(op)
  }

  /** The contents are the values met from the front pointer, also in the middle of an update. */
  ghost function Items(list: List): seq<Message>
    requires HasChain(list)
  {
    Values(list.heap, Chain(list))
  }

  ghost function Abs(s: State): AQ.State
    requires HasChain(s.list)
  {
    AQ.State(Items(s.list), map t | t in s.pc :: PhaseOf(s.list.heap, s.pc[t]))
  }

  /** What one access to the list decides, if anything: a push takes effect when the node is hung
      into the list, a pop when the front pointer is moved. */
  function Decision(list: List, op: Op, at: Point): Option<Result> {
    match at
    case Linking(_) => Some(Pushed)
    case Reading => if list.front.None? && op.Pop? then Some(Empty) else None
    case Unlinking(n) => Some(Got(ValueAt(list.heap, n)))
    case _ => None
  }

  /** The step of the atomic queue that a machine step amounts to, if any. */
  function Effect(s: State, step: Step): Option<AQ.Step>
    requires Enabled(s, step)
  {
    match step
    case Invoke(t, op) => Some(AQ.Call(t, op))
    case LockFails(t) => Some(AQ.Decide(t, LockError))
    case Acquire(t) => if s.pc[t].at == Woken(true) then Some(AQ.Decide(t, TimedOut)) else None
    case AllocFails(t) => Some(AQ.Decide(t, NotPushed))
    case Advance(t) =>
      (match Decision(s.list, s.pc[t].op, s.pc[t].at)
       case Some(result) => Some(AQ.Decide(t, result))
       case None => None)
    case Return(t) => Some(AQ.Return(t))
    case _ => None
  }

  ghost predicate Decides(items: seq<Message>, op: Op, decision: Option<Result>, items': seq<Message>) {
    match decision
    case None => items' == items
    case Some(result) => AQ.Allowed(items, op, result) && items' == AQ.Effect(items, op, result)
  }

  predicate LeavesSection(at: Point) {
    at.Asleep? || at.Returning?
  }

  /** One access to the list follows no bad pointer, leaves the list in shape around `c'`, and
      changes the contents exactly as it decides. */
  ghost predicate GoodAccess(list: List, c: seq<Addr>, op: Op, at: Point, c': seq<Addr>)
    requires Advances(at)
  {
    match Access(list, op, at)
    case None => false
    case Some((list', at')) =>
      && Shape(list', c', if LeavesSection(at') then Out else In(op, at'))
      && Decides(Values(list.heap, c), op, Decision(list, op, at), Values(list'.heap, c'))
  }

  /** The point reached fits the operation, and the phase moves on exactly when something is decided. */
  ghost predicate GoodPoint(list: List, op: Op, at: Point)
    requires Advances(at)
  {
    match Access(list, op, at)
    case None => false
    case Some((list', at')) =>
      && PcOk(In(op, at'))
      && (InSection(In(op, at')) <==> !LeavesSection(at'))
      && PhaseOf(list'.heap, In(op, at')) == match Decision(list, op, at)
         case None => PhaseOf(list.heap, In(op, at))
         case Some(result) => AQ.Decided(op, result)
  }

  lemma LinksFirst(list: List, op: Op, n: Addr)
    requires PcOk(In(op, Linking(n))) && Shape(list, [], In(op, Linking(n)))
    ensures GoodAccess(list, [], op, Linking(n), [n])
  {
    var list' := list.(front := Some(n));
    assert IsChain(list'.heap, list'.front, [n]) && [n][..0] == [];
    assert Values(list.heap, [n]) == Values(list.heap, []) + [list.heap[n].value];
  }

  lemma LinksLast(list: List, c: seq<Addr>, op: Op, n: Addr)
    requires PcOk(In(op, Linking(n))) && Shape(list, c, In(op, Linking(n))) && c != []
    ensures GoodAccess(list, c, op, Linking(n), c + [n])
  {
    ChainAppend(list.heap, list.front, c, n);
    assert (c + [n])[..|c|] == c;
  }

  lemma GoodLinking(list: List, c: seq<Addr>, op: Op, n: Addr) returns (c': seq<Addr>)
    requires PcOk(In(op, Linking(n))) && Shape(list, c, In(op, Linking(n)))
    ensures GoodAccess(list, c, op, Linking(n), c')
  {
    c' := c + [n];
    if c == [] {
      LinksFirst(list, op, n);
    } else {
      LinksLast(list, c, op, n);
    }
  }

  lemma GoodUnlinking(list: List, c: seq<Addr>, op: Op, n: Addr) returns (c': seq<Addr>)
    requires PcOk(In(op, Unlinking(n))) && Shape(list, c, In(op, Unlinking(n)))
    ensures GoodAccess(list, c, op, Unlinking(n), c')
  {
    ChainTail(list.heap, list.front, c);
    c' := c[1..];
  }

  lemma GoodFreeing(list: List, c: seq<Addr>, op: Op, n: Addr)
    requires PcOk(In(op, Freeing(n))) && Shape(list, c, In(op, Freeing(n)))
    ensures GoodAccess(list, c, op, Freeing(n), c)
  {
    ChainFrame(list.heap, list.heap - {n}, list.front, c);
  }

  lemma GoodPointerMove(list: List, c: seq<Addr>, op: Op, at: Point)
    requires at.SettingBack? || at.ClearingBack? || at.Unlocking?
    requires PcOk(In(op, at)) && Shape(list, c, In(op, at))
    ensures GoodAccess(list, c, op, at, c)
  {
  }

  lemma GoodReading(list: List, c: seq<Addr>, op: Op)
    requires PcOk(In(op, Reading)) && Shape(list, c, In(op, Reading))
    ensures GoodAccess(list, c, op, Reading, c)
  {
  }

  lemma PointIsGood(list: List, c: seq<Addr>, op: Op, at: Point)
    requires Advances(at) && PcOk(In(op, at)) && Shape(list, c, In(op, at))
    ensures GoodPoint(list, op, at)
  {
    if at.Linking? && list.back.Some? {
      assert list.back.value in c;
    }
  }

  lemma AccessIsGood(list: List, c: seq<Addr>, op: Op, at: Point) returns (c': seq<Addr>)
    requires Advances(at) && PcOk(In(op, at)) && Shape(list, c, In(op, at))
    ensures GoodAccess(list, c, op, at, c')
  {
    match at
    case Linking(n) => c' := GoodLinking(list, c, op, n);
    case Reading => GoodReading(list, c, op); c' := c;
    case Unlinking(n) => c' := GoodUnlinking(list, c, op, n);
    case Freeing(n) => GoodFreeing(list, c, op, n); c' := c;
    case _ => GoodPointerMove(list, c, op, at); c' := c;
  }

  // ---------- whole steps ----------

  /** An access by the lock holder to the list, seen from the whole state. */
  lemma AdvanceKeeps(s: State, t: Tid)
    requires Inv(s) && Enabled(s, Advance(t))
    ensures
      var s' := Apply(s, Advance(t));
      && Inv(s')
      && GoodAccess(s.list, Chain(s.list), s.pc[t].op, s.pc[t].at, Chain(s'.list))
      && GoodPoint(s.list, s.pc[t].op, s.pc[t].at)
  {
    var s' := Apply(s, Advance(t));
    assert s.lock == Some(t) && PcOk(s.pc[t]);
    PointIsGood(s.list, Chain(s.list), s.pc[t].op, s.pc[t].at);
    var c' := AccessIsGood(s.list, Chain(s.list), s.pc[t].op, s.pc[t].at);
    ChainIsUnique(s'.list.heap, s'.list.front, c', Chain(s'.list));
  }

  lemma AllocKeeps(s: State, t: Tid, node: Addr)
    requires Inv(s) && Enabled(s, Alloc(t, node))
    ensures
      var s' := Apply(s, Alloc(t, node));
      Inv(s') && Items(s'.list) == Items(s.list)
  {
    var s' := Apply(s, Alloc(t, node));
    assert s.lock == Some(t) && PcOk(s.pc[t]);
    var c := Chain(s.list);
    ChainFrame(s.list.heap, s'.list.heap, s.list.front, c);
    ChainIsUnique(s'.list.heap, s'.list.front, c, Chain(s'.list));
  }

  lemma OtherStepKeepsSection(s: State, step: Step)
    requires Inv(s) && Enabled(s, step) && !step.Advance? && !step.Alloc?
    ensures MutualExclusion(Apply(s, step))
  {
    assert InSection(s.pc[step.t]) <==> s.lock == Some(step.t);
  }

  lemma OtherStepKeepsPc(s: State, step: Step)
    requires Inv(s) && Enabled(s, step) && !step.Advance? && !step.Alloc?
    ensures forall t | t in s.pc :: t in Apply(s, step).pc && PcOk(Apply(s, step).pc[t])
  {
    assert PcOk(s.pc[step.t]);
    assert PcOk(Apply(s, step).pc[step.t]);
  }

  /** The steps that do not touch the list. */
  lemma OtherStepKeeps(s: State, step: Step)
    requires Inv(s) && Enabled(s, step) && !step.Advance? && !step.Alloc?
    ensures Inv(Apply(s, step)) && Apply(s, step).list == s.list && Apply(s, step).pc.Keys == s.pc.Keys
  {
    var s' := Apply(s, step);
    OtherStepKeepsSection(s, step);
    OtherStepKeepsPc(s, step);
    assert InSection(s.pc[step.t]) <==> s.lock == Some(step.t);
    assert s'.pc.Keys == s.pc.Keys;
  }

  lemma Keeps(s: State, step: Step)
    requires Inv(s) && Enabled(s, step)
    ensures Inv(Apply(s, step)) && Apply(s, step).pc.Keys == s.pc.Keys
  {
    match step
    case Advance(t) => AdvanceKeeps(s, t);
    case Alloc(t, node) => AllocKeeps(s, t, node);
    case _ => OtherStepKeeps(s, step);
  }

  // ---------- the simulation ----------

  /** No step changes the phase of a thread other than the one that moves, the one it wakes included. */
  lemma BystanderKeepsPhase(s: State, step: Step, u: Tid)
    requires Inv(s) && Enabled(s, step) && u in s.pc && u != step.t
    ensures
      var s' := Apply(s, step);
      u in s'.pc && PhaseOf(s'.list.heap, s'.pc[u]) == PhaseOf(s.list.heap, s.pc[u])
  {
    assert InSection(s.pc[u]) <==> s.lock == Some(u);
    assert InSection(s.pc[step.t]) <==> s.lock == Some(step.t);
  }

  ghost predicate PhaseMoves(items: seq<Message>, before: AQ.Phase, effect: Option<AQ.Step>, after: AQ.Phase) {
    match effect
    case None => after == before
    case Some(Call(_, op)) => before == AQ.Idle && after == AQ.Pending(op)
    case Some(Decide(_, result)) =>
      before.Pending? && AQ.Allowed(items, before.op, result) && after == AQ.Decided(before.op, result)
    case Some(Return(_)) => before.Decided? && after == AQ.Idle
  }

  lemma AdvanceChangesPhase(s: State, t: Tid)
    requires Inv(s) && Enabled(s, Advance(t))
    ensures
      var s' := Apply(s, Advance(t));
      && t in s'.pc
      && PhaseMoves(Items(s.list), PhaseOf(s.list.heap, s.pc[t]), Effect(s, Advance(t)),
                    PhaseOf(s'.list.heap, s'.pc[t]))
  {
    AdvanceKeeps(s, t);
    var at := s.pc[t].at;
    assert Decision(s.list, s.pc[t].op, at).Some? ==> at.Linking? || at.Reading? || at.Unlinking?;
  }

  lemma CallerChangesPhase(s: State, step: Step)
    requires Inv(s) && Enabled(s, step) && (step.Invoke? || step.LockFails? || step.Acquire? || step.Return?)
    ensures
      var s' := Apply(s, step);
      && step.t in s'.pc
      && PhaseMoves(Items(s.list), PhaseOf(s.list.heap, s.pc[step.t]), Effect(s, step),
                    PhaseOf(s'.list.heap, s'.pc[step.t]))
  {
    assert PcOk(s.pc[step.t]);
  }

  lemma MoverChangesPhase(s: State, step: Step)
    requires Inv(s) && Enabled(s, step)
    ensures
      var s' := Apply(s, step);
      && step.t in s'.pc
      && PhaseMoves(Items(s.list), PhaseOf(s.list.heap, s.pc[step.t]), Effect(s, step),
                    PhaseOf(s'.list.heap, s'.pc[step.t]))
  {
    assert PcOk(s.pc[step.t]);
    match step
    case Advance(t) => AdvanceChangesPhase(s, t);
    case Alloc(_, _) =>
    case AllocFails(_) =>
    case Signal(_, _) =>
    case WakeUp(_, _) =>
    case _ => CallerChangesPhase(s, step);
  }

  lemma ItemsChangeAsDecided(s: State, step: Step)
    requires Inv(s) && Enabled(s, step)
    ensures
      && Inv(Apply(s, step))
      && var items' := Items(Apply(s, step).list);
      match Effect(s, step)
      case Some(Decide(t, result)) =>
        s.pc[t].In? && Decides(Items(s.list), s.pc[t].op, Some(result), items')
      case _ => items' == Items(s.list)
  {
    assert PcOk(s.pc[step.t]);
    match step
    case Advance(t) => AdvanceKeeps(s, t);
    case Alloc(t, node) => AllocKeeps(s, t, node);
    case _ => OtherStepKeeps(s, step);
  }

  lemma PhasesMove(s: State, step: Step)
    requires Inv(s) && Enabled(s, step)
    ensures
      var s' := Apply(s, step);
      && Inv(s') && step.t in s'.pc
      && Abs(s').phase == Abs(s).phase[step.t := PhaseOf(s'.list.heap, s'.pc[step.t])]
  {
    var s' := Apply(s, step);
    Keeps(s, step);
    forall u | u in s.pc && u != step.t
      ensures PhaseOf(s'.list.heap, s'.pc[u]) == PhaseOf(s.list.heap, s.pc[u])
    {
      BystanderKeepsPhase(s, step, u);
    }
  }

  /** Forward simulation: a machine step is one step of the atomic queue, or none. */
  lemma Simulates(s: State, step: Step)
    requires Inv(s) && Enabled(s, step)
    ensures
      var s' := Apply(s, step);
      && Inv(s')
      && match Effect(s, step)
         case None => Abs(s') == Abs(s)
         case Some(a) => AQ.Enabled(Abs(s), a) && Abs(s') == AQ.Apply(Abs(s), a)
  {
    PhasesMove(s, step);
    ItemsChangeAsDecided(s, step);
    MoverChangesPhase(s, step);
    assert Abs(s).phase[step.t] == PhaseOf(s.list.heap, s.pc[step.t]);
    assert Effect(s, step).Some? ==> Effect(s, step).value.t == step.t;
  }

  /** Destroying a queue that nobody is inside: no fault, every value handed to the deleter in order,
      every node freed, and an empty queue left. */
  lemma DestroysAll(s: State)
    requires Inv(s) && forall t | t in s.pc :: s.pc[t].Out?
    ensures
      var s' := Destroyed(s);
      && Inv(s') && s'.list.heap == map[] && FreeFrom(s.list.heap, s.list.front).values == Items(s.list)
      && Abs(s') == Abs(s).(items := [])
  {
    var c := Chain(s.list);
    var s' := Destroyed(s);
    assert s.lock.None?;
    FreesChain(s.list.heap, s.list.front, c);
    assert s.list.heap - Cells(c) == map[];
    assert IsChain(s'.list.heap, s'.list.front, []);
    ChainIsUnique(s'.list.heap, s'.list.front, [], Chain(s'.list));
    assert Items(s'.list) == [];
  }
}
