/** In which order a thread goes through a call on the message queue, told from the steps of a run alone, and
    what its surroundings may do to it at any time. */
module MessageQueueOrder {
  import opened Common
  import opened QueueCalls
  import opened MessageQueue
  import MR = MessageQueueRuns

  /** Thread `t` makes no step strictly between positions `k` and `m`. */
  predicate Pauses(steps: seq<Step>, t: Tid, k: int, m: nat)
    requires m <= |steps|
  {
    forall j | 0 <= j < m && k < j :: steps[j].t != t
  }

  lemma PausesLater(steps: seq<Step>, t: Tid, k: int, m: nat)
    requires 0 < m <= |steps| && Pauses(steps, t, k, m)
    ensures Pauses(steps[1..], t, k - 1, m - 1)
  {
    forall j | 0 <= j < m - 1 && k - 1 < j ensures steps[1..][j].t != t {
      assert steps[1..][j] == steps[j + 1];
    }
  }

  /** A thread that pauses stays where it is, but for the signal that ends its sleep. */
  predicate Stays(pc: Pc, pc': Pc) {
    pc' == pc || (pc.In? && pc.at.Asleep? && pc' == In(pc.op, Woken(false)))
  }

  lemma OthersLeave(s: State, step: Step, t: Tid)
    requires Enabled(s, step) && step.t != t && t in s.pc
    ensures t in Apply(s, step).pc && Stays(s.pc[t], Apply(s, step).pc[t])
  {
  }

  lemma {:induction false} Waits(s: State, steps: seq<Step>, t: Tid, m: nat) returns (at: State)
    requires Runs(s, steps) && m < |steps| && t in s.pc && Pauses(steps, t, -1, m)
    ensures Enabled(at, steps[m]) && t in at.pc && Stays(s.pc[t], at.pc[t])
    decreases m
  {
    hide Enabled, Apply;
    if m == 0 {
      at := s;
    } else {
      OthersLeave(s, steps[0], t);
      PausesLater(steps, t, -1, m);
      at := Waits(Apply(s, steps[0]), steps[1..], t, m - 1);
    }
  }

  /** The states before a step of `t` and before its next one. */
  lemma {:induction false} Around(s: State, steps: seq<Step>, t: Tid, k: nat, m: nat) returns (before: State, at: State)
    requires Runs(s, steps) && k < m < |steps| && Pauses(steps, t, k, m) && steps[k].t == t
    ensures Enabled(before, steps[k]) && Enabled(at, steps[m])
    ensures t in Apply(before, steps[k]).pc && t in at.pc && Stays(Apply(before, steps[k]).pc[t], at.pc[t])
    decreases k
  {
    hide Enabled, Apply, Stays;
    PausesLater(steps, t, k, m);
    if k == 0 {
      StaysKnown(s, steps[0]);
      before := s;
      at := Waits(Apply(s, steps[0]), steps[1..], t, m - 1);
    } else {
      before, at := Around(Apply(s, steps[0]), steps[1..], t, k - 1, m - 1);
    }
  }

  lemma StaysKnown(s: State, step: Step)
    requires Enabled(s, step)
    ensures step.t in Apply(s, step).pc
  {
  }

  /** What a thread does after one of its steps. A lock refused ends the call; no node still leads to the
      signal; a wait that has ended, for whatever reason, takes the lock again; and after the signal the lock
      is given up. */
  predicate CallFollows(step: Step, next: Step) {
    match step
    case Invoke(t, _) => next == Acquire(t) || next == LockFails(t)
    case LockFails(t) => next == Return(t)
    case AllocFails(t) => next.Signal?
    case Alloc(t, _) => next == Advance(t)
    case Signal(t, _) => next == Advance(t)
    case WakeUp(t, _) => next == Acquire(t)
    case Return(t) => next.Invoke?
    case Acquire(t) => next == Advance(t) || next == AllocFails(t) || next.Alloc?
    case Advance(_) => !next.LockFails? && !next.Invoke? && !next.Alloc? && !next.AllocFails?
  }

  lemma GoesOn(before: State, step: Step, at: State, next: Step)
    requires Enabled(before, step) && Enabled(at, next) && next.t == step.t
    requires step.t in Apply(before, step).pc && step.t in at.pc && Stays(Apply(before, step).pc[step.t], at.pc[step.t])
    ensures CallFollows(step, next)
  {
  }

  /** Two steps of a thread with none of its own in between. */
  lemma {:induction false} NextOfCall(s: State, steps: seq<Step>, t: Tid, k: nat, m: nat)
    requires Runs(s, steps) && k < m < |steps| && steps[k].t == t && steps[m].t == t && Pauses(steps, t, k, m)
    ensures CallFollows(steps[k], steps[m])
  {
    var before, at := Around(s, steps, t, k, m);
    GoesOn(before, steps[k], at, steps[m]);
  }

  // ---------- calls and wake-ups that come to nothing ----------

  /** A wake-up for no reason changes nothing: with nothing in the queue the thread is asleep again, and the
      queue as it was. */
  lemma {:induction false} SpuriousWakeUp(s: State, t: Tid) returns (steps: seq<Step>)
    requires Sleeps(s, t) && !s.pc[t].op.Push? && !s.pc[t].op.Pop? && s.lock.None? && s.list.front.None?
    ensures steps == [WakeUp(t, false), Acquire(t), Advance(t)]
    ensures Runs(s, steps) && After(s, steps) == s
  {
    var s1, s2, s3;
    steps, s1 := MR.Do(s, [], s, WakeUp(t, false));
    steps, s2 := MR.Do(s, steps, s1, Acquire(t));
    steps, s3 := MR.Do(s, steps, s2, Advance(t));
    assert s3.pc == s.pc;
  }

  /** A call of any kind may be refused the lock at any time, and then leaves everything as it was. */
  lemma {:induction false} RefusedCall(s: State, t: Tid, op: Op) returns (steps: seq<Step>)
    requires t in s.pc && s.pc[t].Out?
    ensures steps == [Invoke(t, op), LockFails(t), Return(t)]
    ensures Runs(s, steps) && After(s, steps) == s
  {
    var s1, s2, s3;
    steps, s1 := MR.Do(s, [], s, Invoke(t, op));
    steps, s2 := MR.Do(s, steps, s1, LockFails(t));
    steps, s3 := MR.Do(s, steps, s2, Return(t));
    assert s3.pc == s.pc;
  }

  /** A push up to the failed allocation. */
  lemma {:induction false} PushUpToAllocation(s: State, t: Tid, op: Op) returns (steps: seq<Step>, s': State)
    requires t in s.pc && s.pc[t].Out? && op.Push? && s.lock.None?
    ensures steps == [Invoke(t, op), Acquire(t), AllocFails(t)]
    ensures Runs(s, steps) && After(s, steps) == s'
    ensures s' == s.(lock := Some(t), pc := s.pc[t := In(op, Signalling(false))])
  {
    steps, s' := MR.Do(s, [], s, Invoke(t, op));
    steps, s' := MR.Do(s, steps, s', Acquire(t));
    steps, s' := MR.Do(s, steps, s', AllocFails(t));
    assert s'.pc == s.pc[t := In(op, Signalling(false))];
  }

  /** The state after thread `u` has been signalled, if there was one to be signalled. */
  function Signalled(s: State, u: Option<Tid>): State
    requires u.Some? ==> Sleeps(s, u.value)
  {
    if u.Some? then Move(s, u.value, Woken(false)) else s
  }

  /** From the signal to the return. */
  lemma {:induction false} PushAfterSignal(start: State, before: seq<Step>, s: State, t: Tid, op: Op)
    returns (steps: seq<Step>, s': State)
    requires Runs(start, before) && After(start, before) == s
    requires t in s.pc && s.pc[t] == In(op, Unlocking(NotPushed)) && s.lock == Some(t)
    ensures steps == before + [Advance(t), Return(t)]
    ensures Runs(start, steps) && After(start, steps) == s'
    ensures s' == s.(lock := None, pc := s.pc[t := Out])
  {
    steps, s' := MR.Do(start, before, s, Advance(t));
    steps, s' := MR.Do(start, steps, s', Return(t));
    assert s'.pc == s.pc[t := Out];
  }

  lemma SignalsOne(s: State, s1: State, t: Tid, op: Op, u: Option<Tid>)
    requires t in s.pc && s.pc[t].Out? && (if u.Some? then Sleeps(s, u.value) else forall w | w in s.pc :: !Sleeps(s, w))
    requires s1 == s.(lock := Some(t), pc := s.pc[t := In(op, Signalling(false))])
    ensures Enabled(s1, Signal(t, u))
    ensures Apply(s1, Signal(t, u)) == Signalled(s, u).(
              lock := Some(t), pc := Signalled(s, u).pc[t := In(op, Unlocking(NotPushed))])
  {
  }

  /** A push that gets no node wakes a thread that sleeps, if there is one, and changes nothing else. */
  lemma {:induction false} PushWithoutNode(s: State, t: Tid, op: Op, u: Option<Tid>) returns (steps: seq<Step>)
    requires t in s.pc && s.pc[t].Out? && op.Push? && s.lock.None?
    requires if u.Some? then Sleeps(s, u.value) else forall w | w in s.pc :: !Sleeps(s, w)
    ensures steps == [Invoke(t, op), Acquire(t), AllocFails(t), Signal(t, u), Advance(t), Return(t)]
    ensures Runs(s, steps) && After(s, steps) == Signalled(s, u)
  {
    hide Apply, Enabled, Runs, After;
    var s1;
    steps, s1 := PushUpToAllocation(s, t, op);
    SignalsOne(s, s1, t, op, u);
    steps, s1 := MR.Do(s, steps, s1, Signal(t, u));
    steps, s1 := PushAfterSignal(s, steps, s1, t, op);
    assert s1.pc == Signalled(s, u).pc;
  }
}
