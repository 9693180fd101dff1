/** The severity filter and what becomes of each record, over runs of LoggerThreads: what is pushed is what
    was built at or above the severity asked for, in the order of the pushes, and no record is given up
    without a reason. */
module LoggerFilter {
  import opened Common
  import opened QueueCalls
  import opened Logger
  import opened LoggerThreads
  import MQ = MessageQueue
  import MP = MessageQueueProof
  import AQ = AtomicQueue

  // ---------- the filter ----------

  predicate AllAbove(lines: seq<Line>, min: Severity) {
    forall i | 0 <= i < |lines| :: lines[i].severity >= min
  }

  /** Nothing below the severity asked for is pushed, or about to be. */
  ghost predicate Filtered(s: State) {
    && AllAbove(s.put, s.min)
    && (forall t | t in s.writers && s.writers[t].WInPush? ::
          && s.writers[t].id < s.store.next
          && (s.writers[t].id in s.store.live ==> s.store.live[s.writers[t].id].severity >= s.min))
  }

  lemma {:induction false} FreeAllShrinks(m: Store, ids: seq<Id>)
    ensures FreeAll(m, ids).next == m.next
    ensures forall id: Id | id in FreeAll(m, ids).live :: id in m.live && FreeAll(m, ids).live[id] == m.live[id]
    decreases |ids|
  {
    if ids == [] {
    } else {
      FreeAllShrinks(Free(m, ids[0]), ids[1..]);
    }
  }

  lemma PutIsFiltered(s: State, inner: MQ.Step)
    requires Inv(s) && Filtered(s) && Enabled(s, Inside(inner))
    ensures AllAbove(PutBy(s, inner), s.min)
  {
    var v := Seen(s).value;
    if MP.Effect(s.queue, inner).None? {
      QuietSeen(s, inner, v);
    } else if inner.t == LOGGER {
      LoggerDecides(s, inner, v);
    } else {
      WriterDecides(s, inner, v);
      OwnedIsLive(v, inner.t);
    }
  }

  lemma OfferFilters(s: State, t: Tid)
    requires Filtered(s) && Enabled(s, Offer(t)) && s.writers[t].id in s.store.live && s.writers[t].id < s.store.next
    ensures Filtered(Apply(s, Offer(t)))
  {
  }

  lemma HoldsLive(s: State, t: Tid)
    requires Inv(s) && t in s.writers && s.writers[t].WHolding?
    ensures s.writers[t].id in s.store.live && s.writers[t].id < s.store.next
  {
    var v := Seen(s).value;
    OwnSeen(s, t, v);
    OwnedIsLive(v, t);
  }

  lemma InsideFilters(s: State, inner: MQ.Step)
    requires Filtered(s) && Enabled(s, Inside(inner)) && AllAbove(PutBy(s, inner), s.min)
    ensures Filtered(Apply(s, Inside(inner)))
  {
    AllAboveJoins(s.put, PutBy(s, inner), s.min);
  }

  lemma AllAboveJoins(a: seq<Line>, b: seq<Line>, min: Severity)
    requires AllAbove(a, min) && AllAbove(b, min)
    ensures AllAbove(a + b, min)
  {
  }

  lemma DestroyFilters(s: State)
    requires Filtered(s) && Enabled(s, Destroy)
    ensures Filtered(Apply(s, Destroy))
  {
    FreeAllShrinks(s.store, MQ.FreeFrom(s.queue.list.heap, s.queue.list.front).values);
  }

  lemma OtherStepFilters(s: State, step: Step)
    requires Filtered(s) && Enabled(s, step) && !step.Offer? && !step.Inside? && !step.Destroy?
    ensures Filtered(Apply(s, step))
  {
  }

  lemma StepFilters(s: State, step: Step)
    requires Inv(s) && Filtered(s) && Enabled(s, step)
    ensures Filtered(Apply(s, step)) && Apply(s, step).min == s.min
  {
    match step
    case Inside(inner) => PutIsFiltered(s, inner); InsideFilters(s, inner);
    case Destroy => DestroyFilters(s);
    case Offer(t) => HoldsLive(s, t); OfferFilters(s, t);
    case _ => OtherStepFilters(s, step);
  }

  lemma {:induction false} FilteredAlong(s: State, steps: seq<Step>)
    requires RunInv(s) && Filtered(s) && Runs(s, steps)
    ensures Filtered(After(s, steps)) && After(s, steps).min == s.min
    decreases |steps|
  {
    if steps == [] {
    } else {
      StepFilters(s, steps[0]);
      if steps[0].Destroy? {
        DestroyEnds(s);
      } else {
        StepKeeps(s, steps[0]);
      }
      FilteredAlong(Apply(s, steps[0]), steps[1..]);
    }
  }

  // ---------- what is pushed ----------

  /** What each writer has built last. */
  function Built(held: map<Tid, Line>, step: Step): map<Tid, Line> {
    if step.Build? then held[step.t := step.line] else held
  }

  /** The line that a step pushes: what its thread has built, if it passes the filter. */
  function Pushes(s: State, step: Step, held: map<Tid, Line>): seq<Line>
    requires Enabled(s, step)
  {
    if !step.Inside? then [] else
    match MP.Effect(s.queue, step.inner)
    case Some(Decide(t, Pushed)) => if t in held && held[t].severity >= s.min then [held[t]] else []
    case _ => []
  }

  /** The lines of those records whose push takes effect, in this order. */
  function PushedAlong(s: State, steps: seq<Step>, held: map<Tid, Line>): seq<Line>
    requires Runs(s, steps)
    decreases |steps|
  {
    if steps == [] then [] else
    Pushes(s, steps[0], held) + PushedAlong(Apply(s, steps[0]), steps[1..], Built(held, steps[0]))
  }

  /** A writer that has a record has the one it built last. */
  ghost predicate Knows(v: View, held: map<Tid, Line>) {
    forall t | t in v.own && v.own[t].Some? ::
      t in held && v.own[t].value in v.store.live && v.store.live[v.own[t].value] == held[t]
  }

  /** The same in a state. */
  ghost predicate KnowsIn(s: State, held: map<Tid, Line>) {
    Seen(s).Some? && Knows(Seen(s).value, held)
  }

  lemma NewKnown(v: View, t: Tid, line: Line, held: map<Tid, Line>)
    requires Good(v) && Knows(v, held)
    ensures Knows(v.(own := v.own[t := Some(v.store.next)], store := New(v.store, line)), held[t := line])
  {
  }

  lemma DropKnown(v: View, t: Tid, held: map<Tid, Line>)
    requires Good(v) && Knows(v, held) && t in v.own && v.own[t].Some?
    ensures Knows(v.(own := v.own[t := None], store := Free(v.store, v.own[t].value)), held)
  {
  }

  lemma ReleaseKnown(v: View, held: map<Tid, Line>)
    requires Good(v) && Knows(v, held) && v.hand.Some?
    ensures Knows(v.(hand := None, store := Free(v.store, v.hand.value)), held)
  {
  }

  lemma WriterKnows(s: State, step: Step, held: map<Tid, Line>)
    requires Inv(s) && Enabled(s, step) && (step.Build? || step.Refuse? || step.Offer? || step.Offered? || step.Discard?)
    requires KnowsIn(s, held)
    ensures KnowsIn(Apply(s, step), Built(held, step))
  {
    var v := Seen(s).value;
    OwnSeen(s, step.t, v);
    match step
    case Build(t, line) => BuildSeen(s, t, line, v); NewKnown(v, t, line, held);
    case Refuse(t) => OwnedIsLive(v, t); RefuseSeen(s, t, v);
    case Offer(t) => OwnedIsLive(v, t); OfferSeen(s, t, v);
    case Offered(t, result) => OfferedSeen(s, t, result, v);
    case Discard(t) => DiscardSeen(s, t, v); DropKnown(v, t, held);
  }

  lemma LoggerKnows(s: State, step: Step, held: map<Tid, Line>)
    requires Inv(s) && Enabled(s, step) && (step.Take? || step.Taken? || step.Print? || step.Release?)
    requires KnowsIn(s, held)
    ensures KnowsIn(Apply(s, step), held)
  {
    var v := Seen(s).value;
    match step
    case Take(op) => TakeSeen(s, op, v);
    case Taken(result) => TakenSeen(s, result, v);
    case Print => HandSeen(s, v); PrintSeen(s, v);
    case Release => ReleaseSeen(s, v); ReleaseKnown(v, held);
  }

  lemma DecidedKnown(v: View, t: Tid, result: Result, held: map<Tid, Line>)
    requires Knows(v, held)
    ensures Knows(Decided(v, t, result), held)
  {
  }

  /** What a writer that knows its line pushes. */
  lemma PushesLine(s: State, inner: MQ.Step, held: map<Tid, Line>, line: Line)
    requires Enabled(s, Inside(inner)) && MP.Effect(s.queue, inner).Some?
    requires MP.Effect(s.queue, inner).value.Decide? && MP.Effect(s.queue, inner).value.t == inner.t
    requires inner.t in held && held[inner.t] == line && AllAbove(PutBy(s, inner), s.min)
    requires PutBy(s, inner) == if MP.Effect(s.queue, inner).value.result.Pushed? then [line] else []
    ensures PutBy(s, inner) == Pushes(s, Inside(inner), held)
  {
    assert PutBy(s, inner) != [] ==> PutBy(s, inner)[0].severity >= s.min;
  }

  lemma WriterPushes(s: State, inner: MQ.Step, held: map<Tid, Line>, v: View)
    requires Seen(s) == Some(v) && Enabled(s, Inside(inner)) && Knows(v, held)
    requires MP.Effect(s.queue, inner).Some? && inner.t != LOGGER && AllAbove(PutBy(s, inner), s.min)
    ensures KnowsIn(Apply(s, Inside(inner)), held)
    ensures PutBy(s, inner) == Pushes(s, Inside(inner), held)
  {
    InsideSimulates(s.queue, inner);
    WriterDecides(s, inner, v);
    DecidedKnown(v, inner.t, MP.Effect(s.queue, inner).value.result, held);
    PushesLine(s, inner, held, LineAt(s.store, s.writers[inner.t].id));
  }

  /** The logger never pushes. */
  lemma LoggerPops(s: State, inner: MQ.Step, held: map<Tid, Line>)
    requires MP.Inv(s.queue) && Linked(s) && Enabled(s, Inside(inner)) && inner.t == LOGGER
    ensures Pushes(s, Inside(inner), held) == []
  {
    InsideSimulates(s.queue, inner);
  }

  lemma LoggerPushesNothing(s: State, inner: MQ.Step, held: map<Tid, Line>, v: View)
    requires Seen(s) == Some(v) && Enabled(s, Inside(inner)) && Knows(v, held)
    requires MP.Effect(s.queue, inner).Some? && inner.t == LOGGER
    ensures KnowsIn(Apply(s, Inside(inner)), held)
    ensures PutBy(s, inner) == Pushes(s, Inside(inner), held)
  {
    LoggerDecides(s, inner, v);
    LoggerPops(s, inner, held);
    DecidedKnown(v, LOGGER, MP.Effect(s.queue, inner).value.result, held);
  }

  lemma InsideKnows(s: State, inner: MQ.Step, held: map<Tid, Line>)
    requires Inv(s) && Filtered(s) && Enabled(s, Inside(inner)) && KnowsIn(s, held)
    ensures KnowsIn(Apply(s, Inside(inner)), held)
    ensures PutBy(s, inner) == Pushes(s, Inside(inner), held)
  {
    var v := Seen(s).value;
    if MP.Effect(s.queue, inner).None? {
      QuietSeen(s, inner, v);
    } else if inner.t == LOGGER {
      LoggerPushesNothing(s, inner, held, v);
    } else {
      PutIsFiltered(s, inner);
      WriterPushes(s, inner, held, v);
    }
  }

  /** The invariant of the machine, with what the writers have. */
  ghost predicate Sure(s: State, held: map<Tid, Line>) {
    s.open && Inv(s) && Filtered(s) && KnowsIn(s, held)
  }

  lemma StepKnows(s: State, step: Step, held: map<Tid, Line>)
    requires Inv(s) && Enabled(s, step) && !step.Destroy? && !step.Inside? && KnowsIn(s, held)
    ensures KnowsIn(Apply(s, step), Built(held, step))
  {
    hide Inv, KnowsIn, Apply, Enabled;
    match step
    case Take(_) => LoggerKnows(s, step, held);
    case Taken(_) => LoggerKnows(s, step, held);
    case Print => LoggerKnows(s, step, held);
    case Release => LoggerKnows(s, step, held);
    case _ => WriterKnows(s, step, held);
  }

  lemma StepPuts(s: State, step: Step, held: map<Tid, Line>)
    requires Enabled(s, step) && (step.Inside? ==> PutBy(s, step.inner) == Pushes(s, step, held))
    ensures Apply(s, step).put == s.put + Pushes(s, step, held)
  {
  }

  lemma StaysSure(s: State, step: Step, held: map<Tid, Line>)
    requires Sure(s, held) && Enabled(s, step) && !step.Destroy?
    ensures Sure(Apply(s, step), Built(held, step))
    ensures Apply(s, step).put == s.put + Pushes(s, step, held) && Apply(s, step).min == s.min
  {
    hide Inv, Filtered, KnowsIn, Pushes;
    StepKeeps(s, step);
    StepFilters(s, step);
    if step.Inside? {
      InsideKnows(s, step.inner, held);
    } else {
      StepKnows(s, step, held);
    }
    StepPuts(s, step, held);
  }

  lemma {:induction false} DestroyPushesNothing(s: State, steps: seq<Step>, held: map<Tid, Line>)
    requires Runs(s, steps) && steps != [] && steps[0].Destroy?
    ensures After(s, steps).put == s.put && PushedAlong(s, steps, held) == []
  {
    assert steps[1..] == [];
  }

  lemma {:induction false} PutIsPushed(s: State, steps: seq<Step>, held: map<Tid, Line>)
    requires Sure(s, held) && Runs(s, steps)
    ensures After(s, steps).put == s.put + PushedAlong(s, steps, held)
    decreases |steps|
  {
    if steps == [] {
    } else if steps[0].Destroy? {
      DestroyPushesNothing(s, steps, held);
    } else {
      var later := PushedAlong(Apply(s, steps[0]), steps[1..], Built(held, steps[0]));
      StaysSure(s, steps[0], held);
      PutIsPushed(Apply(s, steps[0]), steps[1..], Built(held, steps[0]));
      Regroup(s.put, Pushes(s, steps[0], held), later);
    }
  }

  // ---------- what becomes of a record ----------

  predicate OfWriter(step: Step, t: Tid) {
    (step.Build? || step.Refuse? || step.Offer? || step.Offered? || step.Discard?) && step.t == t
  }

  /** What a thread does after one of its steps. */
  predicate WriterFollows(step: Step, next: Step, min: Severity) {
    match step
    case Build(t, line) => next == if line.severity < min then Refuse(t) else Offer(t)
    case Refuse(t) => next == Discard(t)
    case Offer(_) => next.Offered?
    case Offered(t, result) => if result.Pushed? then next.Build? else next == Discard(t)
    case Discard(_) => next.Build?
    case _ => false
  }

  /** What a thread does next where it stands, if it builds no record but `line`. */
  predicate GoesOn(w: Writer, line: Line, next: Step, t: Tid, min: Severity) {
    match w
    case WIdle => next.Build?
    case WHolding(_) => next == if line.severity < min then Refuse(t) else Offer(t)
    case WInPush(_) => next.Offered?
    case WDiscarding(_) => next == Discard(t)
  }

  lemma {:induction false} NotYetDestroyed(s: State, steps: seq<Step>)
    requires Runs(s, steps) && |steps| >= 2
    ensures !steps[0].Destroy?
  {
    if steps[0].Destroy? {
      assert false;
    }
  }

  lemma OtherStep(s: State, step: Step, t: Tid, held: map<Tid, Line>)
    requires Enabled(s, step) && !step.Destroy? && !OfWriter(step, t)
    ensures t in Apply(s, step).writers <==> t in s.writers
    ensures t in s.writers ==> Apply(s, step).writers[t] == s.writers[t]
    ensures t in Built(held, step) <==> t in held
    ensures t in held ==> Built(held, step)[t] == held[t]
  {
  }

  lemma GoesOnNow(s: State, next: Step, t: Tid, held: map<Tid, Line>)
    requires Sure(s, held) && Enabled(s, next) && OfWriter(next, t)
    ensures t in s.writers && GoesOn(s.writers[t], if t in held then held[t] else Line(TRACE, ""), next, t, s.min)
  {
    OwnSeen(s, t, Seen(s).value);
  }

  /** Where a step of a writer leads. */
  lemma StepLeads(s: State, step: Step, next: Step, t: Tid, held: map<Tid, Line>)
    requires Enabled(s, step) && OfWriter(step, t) && OfWriter(next, t)
    ensures t in Apply(s, step).writers && Apply(s, step).min == s.min
    ensures
      var held' := Built(held, step);
      GoesOn(Apply(s, step).writers[t], if t in held' then held'[t] else Line(TRACE, ""), next, t, s.min) ==>
        WriterFollows(step, next, s.min)
  {
  }

  /** No step of `t` strictly between positions `k` and `m`. */
  predicate Alone(steps: seq<Step>, t: Tid, k: int, m: nat)
    requires m <= |steps|
  {
    forall j | 0 <= j < m && k < j :: !OfWriter(steps[j], t)
  }

  lemma AloneLater(steps: seq<Step>, t: Tid, k: int, m: nat)
    requires 0 < m <= |steps| && Alone(steps, t, k, m)
    ensures Alone(steps[1..], t, k - 1, m - 1)
  {
    forall j | 0 <= j < m - 1 && k - 1 < j ensures !OfWriter(steps[1..][j], t) {
      assert steps[1..][j] == steps[j + 1];
    }
  }

  /** What a writer has, it keeps until it moves, and the record is as it was built. */
  lemma {:induction false} WaitsFor(s: State, steps: seq<Step>, t: Tid, m: nat, held: map<Tid, Line>)
    requires Sure(s, held) && Runs(s, steps) && m < |steps| && OfWriter(steps[m], t)
    requires Alone(steps, t, -1, m)
    ensures t in s.writers && GoesOn(s.writers[t], if t in held then held[t] else Line(TRACE, ""), steps[m], t, s.min)
    decreases m
  {
    hide Sure, Enabled, Apply, OfWriter, GoesOn, Built;
    if m == 0 {
      GoesOnNow(s, steps[0], t, held);
    } else {
      NotYetDestroyed(s, steps);
      assert !OfWriter(steps[0], t);
      AloneLater(steps, t, -1, m);
      assert Alone(steps[1..], t, -1, m - 1);
      StaysSure(s, steps[0], held);
      OtherStep(s, steps[0], t, held);
      WaitsFor(Apply(s, steps[0]), steps[1..], t, m - 1, Built(held, steps[0]));
    }
  }

  lemma {:induction false} FollowsFirst(s: State, steps: seq<Step>, t: Tid, m: nat, held: map<Tid, Line>)
    requires Sure(s, held) && Runs(s, steps) && 0 < m < |steps|
    requires OfWriter(steps[0], t) && OfWriter(steps[m], t) && Alone(steps, t, 0, m)
    ensures WriterFollows(steps[0], steps[m], s.min)
  {
    NotYetDestroyed(s, steps);
    StaysSure(s, steps[0], held);
    StepLeads(s, steps[0], steps[m], t, held);
    AloneLater(steps, t, 0, m);
    WaitsFor(Apply(s, steps[0]), steps[1..], t, m - 1, Built(held, steps[0]));
  }

  lemma {:induction false} FollowsFrom(s: State, steps: seq<Step>, t: Tid, k: nat, m: nat, held: map<Tid, Line>)
    requires Sure(s, held) && Runs(s, steps) && k < m < |steps|
    requires OfWriter(steps[k], t) && OfWriter(steps[m], t) && Alone(steps, t, k, m)
    ensures WriterFollows(steps[k], steps[m], s.min)
    decreases k
  {
    hide Sure, Enabled, Apply, WriterFollows, OfWriter, Alone;
    if k == 0 {
      FollowsFirst(s, steps, t, m, held);
    } else {
      NotYetDestroyed(s, steps);
      StaysSure(s, steps[0], held);
      AloneLater(steps, t, k, m);
      FollowsFrom(Apply(s, steps[0]), steps[1..], t, k - 1, m - 1, Built(held, steps[0]));
    }
  }

  lemma InitSure(writers: set<Tid>, min: Severity)
    requires LOGGER !in writers
    ensures Sure(Init(writers, min), map[])
  {
    InitInv(writers, min);
  }

  /** Two steps of a thread with none of its own in between. A record below the severity asked for is refused
      and freed, any other is offered to the queue, and freed only if its push failed. */
  lemma {:induction false} NextOfWriter(writers: set<Tid>, min: Severity, steps: seq<Step>, t: Tid, k: nat, m: nat)
    requires LOGGER !in writers && Runs(Init(writers, min), steps) && k < m < |steps|
    requires OfWriter(steps[k], t) && OfWriter(steps[m], t) && forall j | k < j < m :: !OfWriter(steps[j], t)
    ensures WriterFollows(steps[k], steps[m], min)
  {
    InitSure(writers, min);
    FollowsFrom(Init(writers, min), steps, t, k, m, map[]);
  }

  /** A thread's first step builds a record. */
  lemma {:induction false} FirstOfWriter(writers: set<Tid>, min: Severity, steps: seq<Step>, t: Tid, m: nat)
    requires LOGGER !in writers && Runs(Init(writers, min), steps) && m < |steps|
    requires OfWriter(steps[m], t) && forall j | 0 <= j < m :: !OfWriter(steps[j], t)
    ensures steps[m].Build?
  {
    InitSure(writers, min);
    WaitsFor(Init(writers, min), steps, t, m, map[]);
  }

  /** The last step of a thread before position `m`, there being one. */
  lemma {:induction false} LastOfWriter(steps: seq<Step>, t: Tid, m: nat) returns (k: nat)
    requires m <= |steps| && exists j | 0 <= j < m :: OfWriter(steps[j], t)
    ensures k < m && OfWriter(steps[k], t) && forall j | k < j < m :: !OfWriter(steps[j], t)
  {
    if OfWriter(steps[m - 1], t) {
      k := m - 1;
    } else {
      k := LastOfWriter(steps, t, m - 1);
    }
  }

  /** A record is freed unpushed only if its line, built at `b`, is below the severity asked for, or its push
      failed, at `k`. */
  lemma {:induction false} DiscardedForReason(writers: set<Tid>, min: Severity, steps: seq<Step>, t: Tid, m: nat)
    returns (b: nat, k: nat)
    requires LOGGER !in writers && Runs(Init(writers, min), steps)
    requires m < |steps| && steps[m] == Discard(t)
    ensures b < k < m && steps[b].Build? && steps[b].t == t
    ensures (steps[b].line.severity < min && steps[k] == Refuse(t))
         || (steps[b].line.severity >= min && steps[k].Offered? && steps[k].t == t && !steps[k].result.Pushed?)
    ensures forall j | b < j < m :: OfWriter(steps[j], t) ==> !steps[j].Build?
  {
    k := Predecessor(writers, min, steps, t, m);
    b := Predecessor(writers, min, steps, t, k);
    if steps[k].Offered? {
      b := Predecessor(writers, min, steps, t, b);
    }
  }

  lemma {:induction false} Predecessor(writers: set<Tid>, min: Severity, steps: seq<Step>, t: Tid, m: nat) returns (k: nat)
    requires LOGGER !in writers && Runs(Init(writers, min), steps)
    requires m < |steps| && OfWriter(steps[m], t) && !steps[m].Build?
    ensures k < m && OfWriter(steps[k], t) && WriterFollows(steps[k], steps[m], min)
    ensures forall j | k < j < m :: !OfWriter(steps[j], t)
  {
    if forall j | 0 <= j < m :: !OfWriter(steps[j], t) {
      FirstOfWriter(writers, min, steps, t, m);
      assert false;
    }
    k := LastOfWriter(steps, t, m);
    NextOfWriter(writers, min, steps, t, k, m);
  }

  // ---------- the main results ----------

  /** In every run, whatever threads log and whatever the queue's lock, its timeouts and malloc answer:
      what the sinks were given is a prefix, in the order of the pushes, of what was pushed; nothing below
      the severity asked for was pushed; no record was touched or freed after its free; and after
      log_destroy every record ever built has been freed exactly once, those left unprinted. */
  lemma {:induction false} LoggedInOrder(writers: set<Tid>, min: Severity, steps: seq<Step>)
    requires LOGGER !in writers && Runs(Init(writers, min), steps)
    ensures
      var s := After(Init(writers, min), steps);
      && s.printed <= s.put && AllAbove(s.put, min)
      && s.put == PushedAlong(Init(writers, min), steps, map[])
      && !s.store.fault && !s.queue.fault
      && (forall id: Id :: s.store.freed[id] == if id < s.store.next && id !in s.store.live then 1 else 0)
      && (!s.open ==> s.store.live == map[] && s.queue.list.heap == map[])
  {
    InitInv(writers, min);
    InvAlong(Init(writers, min), steps);
    PutIsPushed(Init(writers, min), steps, map[]);
    FilteredAlong(Init(writers, min), steps);
    PrintedIsPrefix(After(Init(writers, min), steps));
  }
}
