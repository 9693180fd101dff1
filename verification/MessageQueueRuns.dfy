/** What holds in every run of the message queue, for any number of threads: refinement of the
    atomic queue, no lost wake-up, and what a timed-out pop does and does not say. */
module MessageQueueRuns {
  import opened Common
  import opened QueueCalls
  import opened MessageQueue
  import opened MessageQueueProof
  import AQ = AtomicQueue

  lemma InitInv(threads: set<Tid>)
    ensures Inv(Init(threads)) && Items(Init(threads).list) == [] && WakeInv(Init(threads))
    ensures Abs(Init(threads)) == AQ.State([], map t | t in threads :: AQ.Idle)
  {
    var s := Init(threads);
    assert IsChain(s.list.heap, s.list.front, []);
    ChainIsUnique(s.list.heap, s.list.front, [], Chain(s.list));
    assert Shape(s.list, [], Out);
  }

  // ---------- refinement ----------

  /** The run of the atomic queue that a run of the machine amounts to. */
  function AtomicRun(s: State, steps: seq<Step>): seq<AQ.Step>
    requires Runs(s, steps)
    decreases |steps|
  {
    if steps == [] then [] else
    var rest := AtomicRun(Apply(s, steps[0]), steps[1..]);
    match Effect(s, steps[0])
    case Some(a) => [a] + rest
    case None => rest
  }

  /** Every interleaving of the micro-steps, spurious wake-ups, timeouts, lock and allocation
      failures included, is a run of the atomic queue, and follows no bad pointer. */
  lemma {:induction false} Refines(s: State, steps: seq<Step>)
    requires Inv(s) && Runs(s, steps)
    ensures
      var s' := After(s, steps);
      var run := AtomicRun(s, steps);
      Inv(s') && AQ.Runs(Abs(s), run) && AQ.After(Abs(s), run) == Abs(s')
    decreases |steps|
  {
    if steps == [] {
    } else {
      Simulates(s, steps[0]);
      Refines(Apply(s, steps[0]), steps[1..]);
      var run := AtomicRun(s, steps);
      var rest := AtomicRun(Apply(s, steps[0]), steps[1..]);
      if Effect(s, steps[0]).Some? {
        assert run[1..] == rest;
      }
    }
  }

  /** Linearizability: what was pushed with success, in the order of the critical sections, is
      what was popped followed by what the list holds, at every moment of every run. */
  lemma {:induction false} PushedIsPoppedPlusList(threads: set<Tid>, steps: seq<Step>)
    requires Runs(Init(threads), steps)
    ensures
      var s := Init(threads);
      var s' := After(s, steps);
      var run := AtomicRun(s, steps);
      && Inv(s) && Inv(s') && AQ.Runs(Abs(s), run)
      && AQ.PushedAlong(Abs(s), run) == AQ.PoppedAlong(Abs(s), run) + Items(s'.list)
  {
    var s := Init(threads);
    InitInv(threads);
    Refines(s, steps);
    var run := AtomicRun(s, steps);
    AQ.FifoConservation(Abs(s), run);
    assert [] + AQ.PushedAlong(Abs(s), run) == AQ.PushedAlong(Abs(s), run);
  }

  /** Whenever the lock is free: front is NULL iff back is NULL, back is the last node, no node
      is allocated outside the list, and no thread is inside the critical section. */
  lemma {:induction false} FreeLockMeansWellFormed(threads: set<Tid>, steps: seq<Step>)
    requires Runs(Init(threads), steps)
    ensures
      var s := After(Init(threads), steps);
      && HasChain(s.list)
      && var c := Chain(s.list);
      s.lock.None? ==>
        && (s.list.front.None? <==> s.list.back.None?)
        && s.list.back == LastOf(c)
        && s.list.heap.Keys == Cells(c)
        && forall t | t in s.pc :: !InSection(s.pc[t])
  {
    InitInv(threads);
    Refines(Init(threads), steps);
  }

  /** A thread in the critical section can always go on: no deadlock while the lock is held. */
  lemma LockHolderCanGoOn(s: State) returns (step: Step)
    requires Inv(s) && s.lock.Some?
    ensures Enabled(s, step) && step.t == s.lock.value && !Apply(s, step).fault
  {
    var t := s.lock.value;
    assert InSection(s.pc[t]);
    match s.pc[t].at {
      case Allocating => step := AllocFails(t);
      case Signalling(_) =>
        if u :| u in s.pc && Sleeps(s, u) {
          step := Signal(t, Some(u));
        } else {
          step := Signal(t, None);
        }
      case _ => step := Advance(t);
    }
    Keeps(s, step);
  }

  // ---------- no lost wake-up ----------

  ghost function Sleepers(s: State): set<Tid> {
    set t | t in s.pc && Sleeps(s, t)
  }

  /** The threads that were woken, other than by a timeout, and have not looked at the list again. */
  ghost function Rewoken(s: State): set<Tid> {
    set t | t in s.pc && s.pc[t].In? && s.pc[t].at == Woken(false)
  }

  /** 1 while the lock holder still owes a signal for a message it hung into the list, or has a
      look at the list coming. */
  function Credit(holder: Pc): nat {
    if holder.In?
       && (holder.at.SettingBack? || holder.at == Signalling(true) || holder.at.Reading? || holder.at.Unlinking?)
    then 1 else 0
  }

  ghost predicate WakeInv(s: State)
    requires HasChain(s.list)
  {
    Sleepers(s) != {} ==> |Rewoken(s)| + Credit(Holder(s)) >= |Items(s.list)|
  }

  predicate IsRewoken(pc: Pc) { pc.In? && pc.at == Woken(false) }

  predicate IsAsleep(pc: Pc) { pc.In? && pc.at.Asleep? }

  /** One thread moves from one point to another. */
  lemma ThreadMoves(s: State, s': State, t: Tid, pc: Pc)
    requires t in s.pc && s'.pc == s.pc[t := pc]
    ensures Sleepers(s') == if IsAsleep(pc) then Sleepers(s) + {t} else Sleepers(s) - {t}
    ensures Rewoken(s') == if IsRewoken(pc) then Rewoken(s) + {t} else Rewoken(s) - {t}
  {
  }

  lemma CountsMove(s: State, s': State, t: Tid, pc: Pc)
    requires t in s.pc && s'.pc == s.pc[t := pc]
    ensures |Rewoken(s')| == |Rewoken(s)| + (if IsRewoken(pc) then 1 else 0) - (if IsRewoken(s.pc[t]) then 1 else 0)
    ensures Sleepers(s') != {} && !IsAsleep(pc) ==> Sleepers(s) != {}
  {
    ThreadMoves(s, s', t, pc);
    assert t in Rewoken(s) <==> IsRewoken(s.pc[t]);
  }

  lemma WakeInvAccess(s: State, t: Tid)
    requires Inv(s) && Enabled(s, Advance(t)) && WakeInv(s)
    ensures Inv(Apply(s, Advance(t))) && WakeInv(Apply(s, Advance(t)))
  {
    var s' := Apply(s, Advance(t));
    AdvanceKeeps(s, t);
    CountsMove(s, s', t, s'.pc[t]);
    assert InSection(s.pc[t]) && s.lock == Some(t);
    if s'.pc[t].at.Asleep? {
      assert Items(s'.list) == [];
    }
  }

  lemma WakeInvSignal(s: State, t: Tid, woken: Option<Tid>)
    requires Inv(s) && Enabled(s, Signal(t, woken)) && WakeInv(s)
    ensures Inv(Apply(s, Signal(t, woken))) && WakeInv(Apply(s, Signal(t, woken)))
  {
    var s' := Apply(s, Signal(t, woken));
    ItemsChangeAsDecided(s, Signal(t, woken));
    assert InSection(s.pc[t]) && s.lock == Some(t);
    if woken.Some? {
      var s1 := Move(s, woken.value, Woken(false));
      assert woken.value in Sleepers(s);
      CountsMove(s, s1, woken.value, s1.pc[woken.value]);
      CountsMove(s1, s', t, s'.pc[t]);
    } else {
      CountsMove(s, s', t, s'.pc[t]);
      assert Sleepers(s) == {};
    }
  }

  lemma WakeInvOther(s: State, step: Step)
    requires Inv(s) && Enabled(s, step) && WakeInv(s) && !step.Advance? && !step.Signal?
    ensures Inv(Apply(s, step)) && WakeInv(Apply(s, step))
  {
    var t, s' := step.t, Apply(s, step);
    ItemsChangeAsDecided(s, step);
    CountsMove(s, s', t, s'.pc[t]);
    assert InSection(s.pc[t]) <==> s.lock == Some(t);
  }

  lemma WakeInvStep(s: State, step: Step)
    requires Inv(s) && Enabled(s, step) && WakeInv(s)
    ensures Inv(Apply(s, step)) && WakeInv(Apply(s, step))
  {
    match step
    case Advance(t) => WakeInvAccess(s, t);
    case Signal(t, woken) => WakeInvSignal(s, t, woken);
    case _ => WakeInvOther(s, step);
  }

  lemma {:induction false} WakeInvAlong(s: State, steps: seq<Step>)
    requires Inv(s) && WakeInv(s) && Runs(s, steps)
    ensures Inv(After(s, steps)) && WakeInv(After(s, steps))
    decreases |steps|
  {
    if steps == [] {
    } else {
      WakeInvStep(s, steps[0]);
      WakeInvAlong(Apply(s, steps[0]), steps[1..]);
    }
  }

  /** In every run: when the lock is free and a thread still sleeps without a signal, at least as
      many woken threads are on their way to the list as there are messages in it. */
  lemma {:induction false} NoLostWakeUp(threads: set<Tid>, steps: seq<Step>)
    requires Runs(Init(threads), steps)
    ensures
      var s := After(Init(threads), steps);
      HasChain(s.list) && (s.lock.None? && Sleepers(s) != {} ==> |Rewoken(s)| >= |Items(s.list)|)
  {
    InitInv(threads);
    WakeInvAlong(Init(threads), steps);
  }

  /** Every thread but `consumer` is outside, or pushing. */
  predicate SoleConsumer(s: State, consumer: Tid) {
    forall t | t in s.pc && t != consumer :: s.pc[t].In? ==> s.pc[t].op.Push?
  }

  /** With one consumer: if it sleeps without a signal and the lock is free, the queue is empty. */
  lemma {:induction false} SoleConsumerSleepsOnEmptyQueue(threads: set<Tid>, steps: seq<Step>, consumer: Tid)
    requires Runs(Init(threads), steps)
    ensures
      var s := After(Init(threads), steps);
      && HasChain(s.list)
      && (s.lock.None? && Sleeps(s, consumer) && SoleConsumer(s, consumer) ==> Items(s.list) == [])
  {
    var s := After(Init(threads), steps);
    InitInv(threads);
    WakeInvAlong(Init(threads), steps);
    if s.lock.None? && Sleeps(s, consumer) && SoleConsumer(s, consumer) {
      SoleSleeperFinds(s, consumer);
    }
  }

  /** Only a push that will return 0 and a pop that will return a message change what is in the
      queue, each in one step of its own; a push that returns anything else changes nothing. */
  lemma OnlySuccessChangesItems(s: State, step: Step)
    requires Inv(s) && Enabled(s, step)
    ensures Inv(Apply(s, step))
    ensures
      var items, items' := Items(s.list), Items(Apply(s, step).list);
      match Effect(s, step)
      case Some(Decide(t, Pushed)) => s.pc[t].op.message.Some? && items' == items + [s.pc[t].op.message.value]
      case Some(Decide(t, Got(m))) => items == [m] + items'
      case _ => items' == items
  {
    ItemsChangeAsDecided(s, step);
  }

  // ---------- what NULL says ----------

  /** A pop that decides while the queue holds something returns NULL exactly when mtx_lock failed
      or the wait was reported as timed out: that branch leaves without looking at the list again. */
  lemma NullOnNonEmptyQueueIff(s: State, step: Step, result: Result)
    requires Inv(s) && Enabled(s, step) && Effect(s, step) == Some(AQ.Decide(step.t, result))
    requires s.pc[step.t].In? && s.pc[step.t].op.Pops() && Items(s.list) != []
    ensures !result.Got? <==> step.LockFails? || (step.Acquire? && s.pc[step.t].at == Woken(true))
  {
    assert PcOk(s.pc[step.t]);
    assert Chain(s.list) != [];
  }

  /** A wait starts with nothing in the queue. */
  lemma FallsAsleepOnEmptyQueue(s: State, t: Tid)
    requires Inv(s) && Enabled(s, Advance(t)) && Sleeps(Apply(s, Advance(t)), t)
    ensures Inv(Apply(s, Advance(t))) && Items(Apply(s, Advance(t)).list) == []
  {
    AdvanceKeeps(s, t);
    assert s.pc[t].at.Reading?;
    assert Chain(s.list) == [];
    ItemsChangeAsDecided(s, Advance(t));
  }

  /** More values were pushed than popped along the run. */
  predicate MoreIn(s: AQ.State, run: seq<AQ.Step>)
    requires AQ.Runs(s, run)
  {
    |AQ.PushedAlong(s, run)| > |AQ.PoppedAlong(s, run)|
  }

  lemma {:induction false} LeftSinceEmpty(s: State, steps: seq<Step>)
    requires Inv(s) && Items(s.list) == [] && Runs(s, steps)
    ensures
      var run := AtomicRun(s, steps);
      && Inv(After(s, steps)) && AQ.Runs(Abs(s), run)
      && (Items(After(s, steps).list) != [] <==> MoreIn(Abs(s), run))
  {
    Refines(s, steps);
    AQ.FifoConservation(Abs(s), AtomicRun(s, steps));
  }

  /** The header promises NULL only if nothing was available before the timeout. Thread `t` falls
      asleep in its step at `s`; after some steps of all threads its wait times out. The promise is
      broken exactly when more pushes than pops took effect in between. */
  lemma {:induction false} AvailableAtTimeoutIff(s: State, t: Tid, steps: seq<Step>)
    requires Inv(s) && Enabled(s, Advance(t)) && Sleeps(Apply(s, Advance(t)), t)
    requires Runs(Apply(s, Advance(t)), steps) && Enabled(After(Apply(s, Advance(t)), steps), WakeUp(t, true))
    ensures
      var asleep := Apply(s, Advance(t));
      var run := AtomicRun(asleep, steps);
      && Inv(asleep) && Inv(After(asleep, steps)) && AQ.Runs(Abs(asleep), run)
      && (Items(After(asleep, steps).list) != [] <==> MoreIn(Abs(asleep), run))
  {
    FallsAsleepOnEmptyQueue(s, t);
    LeftSinceEmpty(Apply(s, Advance(t)), steps);
  }

  /** What is in the queue when the call that timed out has the lock back and decides on NULL: it leaves
      something behind exactly when more pushes than pops took effect since it fell asleep. */
  lemma {:induction false} LeftBehindIff(s: State, t: Tid, steps: seq<Step>)
    requires Inv(s) && Enabled(s, Advance(t)) && Sleeps(Apply(s, Advance(t)), t)
    requires Runs(Apply(s, Advance(t)), steps)
    requires
      var back := After(Apply(s, Advance(t)), steps);
      Enabled(back, Acquire(t)) && back.pc[t].at == Woken(true)
    ensures
      var asleep := Apply(s, Advance(t));
      var run := AtomicRun(asleep, steps);
      var decided := Apply(After(asleep, steps), Acquire(t));
      && Inv(asleep) && Inv(decided) && AQ.Runs(Abs(asleep), run)
      && decided.pc[t].at == Unlocking(TimedOut)
      && (Items(decided.list) != [] <==> MoreIn(Abs(asleep), run))
  {
    FallsAsleepOnEmptyQueue(s, t);
    var asleep := Apply(s, Advance(t));
    LeftSinceEmpty(asleep, steps);
    ItemsChangeAsDecided(After(asleep, steps), Acquire(t));
  }

  /** In the state itself: when a wait times out, no more messages are there than threads woken and on
      their way to the list, and the lock holder if it owes a signal or a look. */
  lemma {:induction false} AvailableAtTimeoutIsSpokenFor(threads: set<Tid>, steps: seq<Step>, t: Tid)
    requires Runs(Init(threads), steps) && Enabled(After(Init(threads), steps), WakeUp(t, true))
    ensures
      var s := After(Init(threads), steps);
      && HasChain(s.list) && |Items(s.list)| <= |Rewoken(s)| + Credit(Holder(s))
      && (Items(s.list) != [] ==> s.lock.Some? || Rewoken(s) != {})
  {
    InitInv(threads);
    WakeInvAlong(Init(threads), steps);
    assert t in Sleepers(After(Init(threads), steps));
  }

  /** The lock holder has hung a message into the list and not called cnd_signal yet. */
  predicate OwesSignal(holder: Pc) {
    holder.In? && (holder.at.SettingBack? || holder.at == Signalling(true))
  }

  /** With one consumer the promise is broken exactly when its wait times out while a push is between
      the two: it has hung its message in, and not signalled it yet. */
  lemma {:induction false} SoleConsumerTimeoutIff(threads: set<Tid>, steps: seq<Step>, t: Tid)
    requires Runs(Init(threads), steps) && Enabled(After(Init(threads), steps), WakeUp(t, true))
    requires SoleConsumer(After(Init(threads), steps), t)
    ensures
      var s := After(Init(threads), steps);
      HasChain(s.list) && (Items(s.list) != [] <==> OwesSignal(Holder(s)))
  {
    InitInv(threads);
    WakeInvAlong(Init(threads), steps);
    SoleSleeperFinds(After(Init(threads), steps), t);
  }

  lemma SoleSleeperFinds(s: State, t: Tid)
    requires Inv(s) && WakeInv(s) && Sleeps(s, t) && SoleConsumer(s, t)
    ensures Items(s.list) != [] <==> OwesSignal(Holder(s))
  {
    assert t in Sleepers(s);
    forall u | u in s.pc ensures u !in Rewoken(s) {
      assert PcOk(s.pc[u]);
    }
    assert Rewoken(s) == {};
    if s.lock.Some? {
      var u := s.lock.value;
      assert InSection(s.pc[u]) && PcOk(s.pc[u]) && u != t;
    }
  }

  // ---------- a run that breaks the promise ----------

  lemma {:induction false} OneMore(s: State, steps: seq<Step>, step: Step)
    requires Runs(s, steps) && Enabled(After(s, steps), step)
    ensures Runs(s, steps + [step]) && After(s, steps + [step]) == Apply(After(s, steps), step)
    decreases |steps|
  {
    var all := steps + [step];
    if steps == [] {
      assert all[1..] == [];
    } else {
      OneMore(Apply(s, steps[0]), steps[1..], step);
      assert all[1..] == steps[1..] + [step];
    }
  }

  lemma Do(start: State, before: seq<Step>, s: State, step: Step) returns (steps: seq<Step>, s': State)
    requires Runs(start, before) && After(start, before) == s && Enabled(s, step)
    ensures steps == before + [step] && s' == Apply(s, step)
    ensures Runs(start, steps) && After(start, steps) == s'
  {
    OneMore(start, before, step);
    steps, s' := before + [step], Apply(s, step);
  }

  /** There are three threads, at these points. */
  predicate Three(s: State, zero: Pc, one: Pc, two: Pc) {
    s.pc.Keys == {0, 1, 2} && s.pc[0] == zero && s.pc[1] == one && s.pc[2] == two
  }

  /** Thread `t` calls pop_wait_t on an empty queue and falls asleep. */
  lemma GoesToSleep(start: State, before: seq<Step>, s0: State, t: Tid) returns (steps: seq<Step>, s: State)
    requires Runs(start, before) && After(start, before) == s0
    requires s0.list == List(map[], None, None) && s0.lock == None && t in s0.pc && s0.pc[t] == Out
    ensures Runs(start, steps) && After(start, steps) == s
    ensures s.list == s0.list && s.lock == None && s.pc == s0.pc[t := In(PopWaitT, Asleep)]
  {
    steps, s := Do(start, before, s0, Invoke(t, PopWaitT));
    steps, s := Do(start, steps, s, Acquire(t));
    assert s.pc == s0.pc[t := In(PopWaitT, Reading)];
    steps, s := Do(start, steps, s, Advance(t));
  }

  /** Thread 1 allocates a node for message 7. */
  lemma Allocates(start: State, before: seq<Step>, s0: State) returns (steps: seq<Step>, s: State)
    requires Runs(start, before) && After(start, before) == s0
    requires s0.list == List(map[], None, None) && s0.lock == None
    requires Three(s0, In(PopWaitT, Asleep), Out, In(PopWaitT, Asleep))
    ensures Runs(start, steps) && After(start, steps) == s
    ensures s.list == List(map[5 := Node(7, None)], None, None) && s.lock == Some(1)
    ensures Three(s, In(PopWaitT, Asleep), In(Push(Some(7)), Linking(5)), In(PopWaitT, Asleep))
  {
    steps, s := Do(start, before, s0, Invoke(1, Push(Some(7))));
    steps, s := Do(start, steps, s, Acquire(1));
    assert Three(s, In(PopWaitT, Asleep), In(Push(Some(7)), Allocating), In(PopWaitT, Asleep));
    steps, s := Do(start, steps, s, Alloc(1, 5));
  }

  /** Thread 1 hangs it in. */
  lemma HangsIn(start: State, before: seq<Step>, s0: State) returns (steps: seq<Step>, s: State)
    requires Runs(start, before) && After(start, before) == s0
    requires s0.list == List(map[5 := Node(7, None)], None, None) && s0.lock == Some(1)
    requires Three(s0, In(PopWaitT, Asleep), In(Push(Some(7)), Linking(5)), In(PopWaitT, Asleep))
    ensures Runs(start, steps) && After(start, steps) == s
    ensures s.list == List(map[5 := Node(7, None)], Some(5), Some(5)) && s.lock == Some(1)
    ensures Three(s, In(PopWaitT, Asleep), In(Push(Some(7)), Signalling(true)), In(PopWaitT, Asleep))
  {
    steps, s := Do(start, before, s0, Advance(1));
    assert Three(s, In(PopWaitT, Asleep), In(Push(Some(7)), SettingBack(5)), In(PopWaitT, Asleep));
    steps, s := Do(start, steps, s, Advance(1));
  }

  /** Thread 1 signals thread 2 and leaves the critical section. */
  lemma SignalsTwo(start: State, before: seq<Step>, s0: State) returns (steps: seq<Step>, s: State)
    requires Runs(start, before) && After(start, before) == s0 && s0.lock == Some(1)
    requires Three(s0, In(PopWaitT, Asleep), In(Push(Some(7)), Signalling(true)), In(PopWaitT, Asleep))
    ensures Runs(start, steps) && After(start, steps) == s
    ensures s.list == s0.list && s.lock == None
    ensures Three(s, In(PopWaitT, Asleep), In(Push(Some(7)), Returning(Pushed)), In(PopWaitT, Woken(false)))
  {
    steps, s := Do(start, before, s0, Signal(1, Some(2)));
    assert Three(s, In(PopWaitT, Asleep), In(Push(Some(7)), Unlocking(Pushed)), In(PopWaitT, Woken(false)));
    steps, s := Do(start, steps, s, Advance(1));
  }

  /** Thread 0 times out, takes the lock, and returns NULL. */
  lemma TimesOut(start: State, before: seq<Step>, s0: State) returns (steps: seq<Step>, s: State)
    requires Runs(start, before) && After(start, before) == s0
    requires s0.lock == None && 0 in s0.pc && s0.pc[0] == In(PopWaitT, Asleep)
    ensures steps == before + [WakeUp(0, true), Acquire(0), Advance(0)]
    ensures Runs(start, steps) && After(start, steps) == s
    ensures s.list == s0.list && 0 in s.pc && s.pc[0] == In(PopWaitT, Returning(TimedOut))
  {
    steps, s := Do(start, before, s0, WakeUp(0, true));
    steps, s := Do(start, steps, s, Acquire(0));
    assert s.pc[0] == In(PopWaitT, Unlocking(TimedOut));
    steps, s := Do(start, steps, s, Advance(0));
    assert before + [WakeUp(0, true)] + [Acquire(0)] + [Advance(0)] == before + [WakeUp(0, true), Acquire(0), Advance(0)];
  }

  /** The promise can be broken: threads 0 and 2 sleep on the empty queue, thread 1 pushes 7, wakes
      thread 2 and leaves. Now the message is there for anybody to pop, the lock is free, and thread 0
      still sleeps; then it times out, gets the lock before thread 2, and returns NULL with the
      message still queued. */
  lemma TimedOutPopCanMissMessage() returns (before: seq<Step>, steps: seq<Step>)
    ensures Runs(Init({0, 1, 2}), before) && steps == before + [WakeUp(0, true), Acquire(0), Advance(0)]
    ensures
      var s := After(Init({0, 1, 2}), before);
      s.lock.None? && Sleeps(s, 0) && HasChain(s.list) && Items(s.list) == [7]
    ensures Runs(Init({0, 1, 2}), steps)
    ensures
      var s := After(Init({0, 1, 2}), steps);
      && 0 in s.pc && s.pc[0] == In(PopWaitT, Returning(TimedOut))
      && HasChain(s.list) && Items(s.list) == [7]
  {
    var start := Init({0, 1, 2});
    var s, s';
    before, s := GoesToSleep(start, [], start, 0);
    before, s := GoesToSleep(start, before, s, 2);
    before, s := Allocates(start, before, s);
    before, s := HangsIn(start, before, s);
    before, s := SignalsTwo(start, before, s);
    steps, s' := TimesOut(start, before, s);
    assert IsChain(s.list.heap, s.list.front, [5]);
    ChainIsUnique(s.list.heap, s.list.front, [5], Chain(s.list));
  }
}
