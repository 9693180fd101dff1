/** One push or pop from its call to its return with nobody else inside the queue: it goes through, and
    does what it should. */
module MessageQueueAlone {
  import opened Common
  import opened QueueCalls
  import opened MessageQueue
  import opened MessageQueueProof
  import opened MessageQueueRuns
  import AQ = AtomicQueue

  /** Steps of a thread that is inside an operation and stays inside. */
  predicate AllInside(steps: seq<Step>) {
    forall i | 0 <= i < |steps| :: !steps[i].Invoke? && !steps[i].Return?
  }

  /** `s` is reached from `start` by such steps, and thread `t` stands at `pc` while the others are where
      they were, outside. */
  ghost predicate Reaches(start: State, steps: seq<Step>, s: State, t: Tid, pc: Pc) {
    && Runs(start, steps) && After(start, steps) == s && AllInside(steps) && Inv(s)
    && t in start.pc && s.pc == start.pc[t := pc]
    && (forall u | u in start.pc && u != t :: start.pc[u].Out?)
  }

  /** What a step does to the values in the queue. */
  ghost predicate Moves(s: State, step: Step, s': State)
    requires Enabled(s, step) && HasChain(s.list) && HasChain(s'.list)
  {
    match Effect(s, step)
    case Some(Decide(t, Pushed)) =>
      s.pc[t].op.Push? && s.pc[t].op.message.Some? && Items(s'.list) == Items(s.list) + [s.pc[t].op.message.value]
    case Some(Decide(t, Got(m))) => Items(s.list) == [m] + Items(s'.list)
    case _ => Items(s'.list) == Items(s.list)
  }

  lemma GoOn(start: State, before: seq<Step>, s: State, t: Tid, pc: Pc, step: Step, pc': Pc)
    returns (steps: seq<Step>, s': State)
    requires Reaches(start, before, s, t, pc) && Enabled(s, step) && !step.Invoke? && !step.Return?
    requires Apply(s, step).pc == s.pc[t := pc']
    ensures Reaches(start, steps, s', t, pc') && s' == Apply(s, step) && Moves(s, step, s')
  {
    assert s.pc[t := pc'] == start.pc[t := pc'];
    OnlySuccessChangesItems(s, step);
    steps, s' := Do(start, before, s, step);
  }

  lemma LockIsFree(s: State, t: Tid)
    requires Inv(s) && t in s.pc && s.pc[t].In? && s.pc[t].at.Locking?
    requires forall u | u in s.pc && u != t :: s.pc[u].Out?
    ensures s.lock.None?
  {
    assert forall u | u in s.pc :: !InSection(s.pc[u]);
  }

  lemma {:induction false} FreshAddress(used: set<Addr>) returns (a: Addr)
    ensures forall u | u in used :: u < a
    decreases |used|
  {
    if used == {} {
      a := 0;
    } else {
      var u :| u in used;
      var b := FreshAddress(used - {u});
      a := if u < b then b else u + 1;
      assert forall v | v in used :: v == u || v in used - {u};
    }
  }

  /** A push, from the lock to the linked node. */
  lemma PushLinks(start: State, t: Tid, m: Message) returns (steps: seq<Step>, s: State, node: Addr)
    requires Reaches(start, [], start, t, In(Push(Some(m)), Locking))
    ensures Reaches(start, steps, s, t, In(Push(Some(m)), SettingBack(node)))
    ensures Items(s.list) == Items(start.list) + [m]
  {
    var op := Push(Some(m));
    LockIsFree(start, t);
    node := FreshAddress(start.list.heap.Keys);
    steps, s := GoOn(start, [], start, t, In(op, Locking), Acquire(t), In(op, Allocating));
    steps, s := GoOn(start, steps, s, t, In(op, Allocating), Alloc(t, node), In(op, Linking(node)));
    steps, s := GoOn(start, steps, s, t, In(op, Linking(node)), Advance(t), In(op, SettingBack(node)));
  }

  /** From there to its return. */
  lemma PushEnds(start: State, before: seq<Step>, s0: State, t: Tid, m: Message, node: Addr)
    returns (steps: seq<Step>, s: State)
    requires Reaches(start, before, s0, t, In(Push(Some(m)), SettingBack(node)))
    ensures Reaches(start, steps, s, t, In(Push(Some(m)), Returning(Pushed))) && Items(s.list) == Items(s0.list)
  {
    var op := Push(Some(m));
    steps, s := GoOn(start, before, s0, t, In(op, SettingBack(node)), Advance(t), In(op, Signalling(true)));
    steps, s := GoOn(start, steps, s, t, In(op, Signalling(true)), Signal(t, None), In(op, Unlocking(Pushed)));
    steps, s := GoOn(start, steps, s, t, In(op, Unlocking(Pushed)), Advance(t), In(op, Returning(Pushed)));
  }

  /** A push that is alone, and gets its memory, succeeds. */
  lemma PushAlone(start: State, t: Tid, m: Message) returns (steps: seq<Step>, s: State)
    requires Reaches(start, [], start, t, In(Push(Some(m)), Locking))
    ensures Reaches(start, steps, s, t, In(Push(Some(m)), Returning(Pushed)))
    ensures Items(s.list) == Items(start.list) + [m]
  {
    var node;
    steps, s, node := PushLinks(start, t, m);
    steps, s := PushEnds(start, steps, s, t, m, node);
  }

  /** A pop, from the lock to the head it has found. */
  lemma PopFinds(start: State, t: Tid) returns (steps: seq<Step>, s: State, node: Addr)
    requires Reaches(start, [], start, t, In(PopWaitT, Locking)) && Items(start.list) != []
    ensures Reaches(start, steps, s, t, In(PopWaitT, Unlinking(node))) && Items(s.list) == Items(start.list)
  {
    var op := PopWaitT;
    LockIsFree(start, t);
    steps, s := GoOn(start, [], start, t, In(op, Locking), Acquire(t), In(op, Reading));
    assert Chain(s.list) != [];
    node := s.list.front.value;
    steps, s := GoOn(start, steps, s, t, In(op, Reading), Advance(t), In(op, Unlinking(node)));
  }

  /** From there to the moved pointers. */
  lemma PopUnlinks(start: State, before: seq<Step>, s0: State, t: Tid, node: Addr)
    returns (steps: seq<Step>, s: State)
    requires Reaches(start, before, s0, t, In(PopWaitT, Unlinking(node))) && Items(s0.list) != []
    ensures Reaches(start, steps, s, t, In(PopWaitT, Freeing(node)))
    ensures ValueAt(s.list.heap, node) == Items(s0.list)[0] && Items(s.list) == Items(s0.list)[1..]
  {
    var op := PopWaitT;
    Keeps(s0, Advance(t));
    if s0.list.heap[node].next.None? {
      steps, s := GoOn(start, before, s0, t, In(op, Unlinking(node)), Advance(t), In(op, ClearingBack(node)));
      steps, s := GoOn(start, steps, s, t, In(op, ClearingBack(node)), Advance(t), In(op, Freeing(node)));
    } else {
      steps, s := GoOn(start, before, s0, t, In(op, Unlinking(node)), Advance(t), In(op, Freeing(node)));
    }
  }

  /** And from there to its return. */
  lemma PopEnds(start: State, before: seq<Step>, s0: State, t: Tid, node: Addr) returns (steps: seq<Step>, s: State)
    requires Reaches(start, before, s0, t, In(PopWaitT, Freeing(node)))
    ensures Reaches(start, steps, s, t, In(PopWaitT, Returning(Got(ValueAt(s0.list.heap, node)))))
    ensures Items(s.list) == Items(s0.list)
  {
    var op, got := PopWaitT, Got(ValueAt(s0.list.heap, node));
    Keeps(s0, Advance(t));
    steps, s := GoOn(start, before, s0, t, In(op, Freeing(node)), Advance(t), In(op, Unlocking(got)));
    steps, s := GoOn(start, steps, s, t, In(op, Unlocking(got)), Advance(t), In(op, Returning(got)));
  }

  /** A pop that is alone, with something in the queue, takes out the first of it. */
  lemma PopAlone(start: State, t: Tid) returns (steps: seq<Step>, s: State)
    requires Reaches(start, [], start, t, In(PopWaitT, Locking)) && Items(start.list) != []
    ensures Reaches(start, steps, s, t, In(PopWaitT, Returning(Got(Items(start.list)[0]))))
    ensures Items(s.list) == Items(start.list)[1..]
  {
    var node;
    steps, s, node := PopFinds(start, t);
    steps, s := PopUnlinks(start, steps, s, t, node);
    steps, s := PopEnds(start, steps, s, t, node);
  }
}
