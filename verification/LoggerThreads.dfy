/** logger.c around the real message queue: any number of threads build records, filter and push them,
    the logger thread pops, prints and frees them, and at the end the queue is destroyed. The records have
    numbers, given out in the order of their allocation; a record and its string are one here, and one
    object each in Logger. */
module LoggerThreads {
  import opened Common
  import opened QueueCalls
  import opened Logger
  import MQ = MessageQueue
  import MP = MessageQueueProof
  import MR = MessageQueueRuns
  import AQ = AtomicQueue

  const LOGGER: Tid := 3

  type Id = QueueCalls.Message

  // ---------- the machine ----------

  /** Where a thread stands in log_printf or log_puts. */
  datatype Writer = WIdle | WHolding(id: Id) | WInPush(id: Id) | WDiscarding(id: Id)

  /** Where the logger stands in one of the two draining loops. */
  datatype Drain = DIdle | DInPop | DPrinting(id: Id) | DFreeing(id: Id)

  /** The records alive, and how often each one was freed. */
  datatype Store = Store(live: map<Id, Line>, next: Id, freed: multiset<Id>, fault: bool)

  /** `put` and `printed` are history: what was pushed with success, and what the sinks were given. */
  datatype State = State(
    open: bool,
    min: Severity,
    queue: MQ.State,
    writers: map<Tid, Writer>,
    drain: Drain,
    store: Store,
    put: seq<Line>,
    printed: seq<Line>)

  datatype Step =
    | Build(t: Tid, line: Line)       // both allocations succeeded
    | Refuse(t: Tid)                  // the filter
    | Offer(t: Tid)
    | Offered(t: Tid, result: Result)
    | Discard(t: Tid)
    | Take(op: Op)
    | Taken(result: Result)
    | Print
    | Release
    | Inside(inner: MQ.Step)
    | Destroy                         // log_destroy

  function New(m: Store, line: Line): Store {
    m.(live := m.live[m.next := line], next := m.next + 1)
  }

  function Free(m: Store, id: Id): Store {
    if id in m.live then m.(live := m.live - {id}, freed := m.freed + multiset{id}) else m.(fault := true)
  }

  function FreeAll(m: Store, ids: seq<Id>): Store
    decreases |ids|
  {
    if ids == [] then m else FreeAll(Free(m, ids[0]), ids[1..])
  }

  /** Reading a record. */
  function LineAt(m: Store, id: Id): Line {
    if id in m.live then m.live[id] else Line(TRACE, "")
  }

  function Touch(m: Store, id: Id): Store {
    if id in m.live then m else m.(fault := true)
  }

  predicate Enabled(s: State, step: Step) {
    && s.open
    && match step
       case Build(t, _) => t in s.writers && s.writers[t].WIdle?
       case Refuse(t) => t in s.writers && s.writers[t].WHolding? && s.min > LineAt(s.store, s.writers[t].id).severity
       case Offer(t) =>
         && t in s.writers && s.writers[t].WHolding? && s.min <= LineAt(s.store, s.writers[t].id).severity
         && MQ.Enabled(s.queue, MQ.Invoke(t, Push(Some(s.writers[t].id))))
       case Offered(t, result) =>
         && t in s.writers && s.writers[t].WInPush?
         && MQ.Enabled(s.queue, MQ.Return(t)) && s.queue.pc[t].at.result == result
       case Discard(t) => t in s.writers && s.writers[t].WDiscarding?
       case Take(op) => s.drain.DIdle? && op.Pops() && MQ.Enabled(s.queue, MQ.Invoke(LOGGER, op))
       case Taken(result) =>
         s.drain.DInPop? && MQ.Enabled(s.queue, MQ.Return(LOGGER)) && s.queue.pc[LOGGER].at.result == result
       case Print => s.drain.DPrinting?
       case Release => s.drain.DFreeing?
       case Inside(inner) => MQ.Enabled(s.queue, inner) && !inner.Invoke? && !inner.Return?
       case Destroy => s.drain.DIdle? && forall t | t in s.writers :: s.writers[t].WIdle?
  }

  function SetWriter(s: State, t: Tid, w: Writer): State {
    s.(writers := s.writers[t := w])
  }

  /** The line that a step inside the queue adds to what was pushed. */
  function PutBy(s: State, inner: MQ.Step): seq<Line>
    requires MQ.Enabled(s.queue, inner)
  {
    match MP.Effect(s.queue, inner)
    case Some(Decide(t, Pushed)) =>
      if s.queue.pc[t].In? && s.queue.pc[t].op.Push? && s.queue.pc[t].op.message.Some?
      then [LineAt(s.store, s.queue.pc[t].op.message.value)] else []
    case _ => []
  }

  function Apply(s: State, step: Step): State
    requires Enabled(s, step)
  {
    match step
    case Build(t, line) => SetWriter(s, t, WHolding(s.store.next)).(store := New(s.store, line))
    case Refuse(t) =>
      SetWriter(s, t, WDiscarding(s.writers[t].id)).(store := Touch(s.store, s.writers[t].id))
    case Offer(t) =>
      SetWriter(s, t, WInPush(s.writers[t].id))
        .(store := Touch(s.store, s.writers[t].id),
          queue := MQ.Apply(s.queue, MQ.Invoke(t, Push(Some(s.writers[t].id)))))
    case Offered(t, result) =>
      SetWriter(s, t, if result.Pushed? then WIdle else WDiscarding(s.writers[t].id))
        .(queue := MQ.Apply(s.queue, MQ.Return(t)))
    case Discard(t) => SetWriter(s, t, WIdle).(store := Free(s.store, s.writers[t].id))
    case Take(op) => s.(drain := DInPop, queue := MQ.Apply(s.queue, MQ.Invoke(LOGGER, op)))
    case Taken(result) =>
      s.(drain := if result.Got? then DPrinting(result.message) else DIdle,
         queue := MQ.Apply(s.queue, MQ.Return(LOGGER)))
    case Print =>
      s.(drain := DFreeing(s.drain.id), store := Touch(s.store, s.drain.id),
         printed := s.printed + [LineAt(s.store, s.drain.id)])
    case Release => s.(drain := DIdle, store := Free(s.store, s.drain.id))
    case Inside(inner) => s.(queue := MQ.Apply(s.queue, inner), put := s.put + PutBy(s, inner))
    case Destroy =>
      s.(open := false, queue := MQ.Destroyed(s.queue),
         store := FreeAll(s.store, MQ.FreeFrom(s.queue.list.heap, s.queue.list.front).values))
  }

  predicate Runs(s: State, steps: seq<Step>)
    decreases |steps|
  {
    steps == [] || (Enabled(s, steps[0]) && Runs(Apply(s, steps[0]), steps[1..]))
  }

  function After(s: State, steps: seq<Step>): State
    requires Runs(s, steps)
    decreases |steps|
  {
    if steps == [] then s else After(Apply(s, steps[0]), steps[1..])
  }

  function Init(writers: set<Tid>, min: Severity): State {
    State(true, min, MQ.Init(writers + {LOGGER}), map t | t in writers :: WIdle, DIdle,
          Store(map[], 0, multiset{}, false), [], [])
  }

  // ---------- who has which record ----------

  /** `own[t]` is what writer `t` still has to push or free, `hand` what the logger has taken out and not
      freed, `unread` the same until it is printed. */
  datatype View = View(
    items: seq<Id>, own: map<Tid, Option<Id>>, hand: Option<Id>, unread: Option<Id>,
    store: Store, put: seq<Line>, printed: seq<Line>)

  function LinesAt(m: Store, ids: seq<Id>): (lines: seq<Line>)
    ensures |lines| == |ids|
  {
    seq(|ids|, i requires 0 <= i < |ids| => LineAt(m, ids[i]))
  }

  function Opt(id: Option<Id>): seq<Id> { if id.Some? then [id.value] else [] }

  ghost predicate StoreOk(m: Store) {
    && !m.fault
    && (forall id: Id | id in m.live :: id < m.next)
    && (forall id: Id :: m.freed[id] == if id < m.next && id !in m.live then 1 else 0)
  }

  /** Every live record is in the queue, with one writer, or with the logger. */
  ghost predicate Owned(v: View, id: Id) {
    id in v.items || v.hand == Some(id) || exists t :: t in v.own && v.own[t] == Some(id)
  }

  ghost predicate OneOwner(v: View) {
    && (forall i | 0 <= i < |v.items| :: v.items[i] in v.store.live)
    && (forall i, j | 0 <= i < j < |v.items| :: v.items[i] != v.items[j])
    && (v.hand.Some? ==> v.hand.value in v.store.live && v.hand.value !in v.items)
    && (forall t | t in v.own && v.own[t].Some? ::
          v.own[t].value in v.store.live && v.own[t].value !in v.items && v.hand != v.own[t])
    && (forall t, u | t in v.own && u in v.own && t != u && v.own[t].Some? :: v.own[t] != v.own[u])
    && (forall id: Id | id in v.store.live :: Owned(v, id))
  }

  ghost predicate Good(v: View) {
    && StoreOk(v.store) && OneOwner(v) && (v.unread.Some? ==> v.unread == v.hand)
    && v.put == v.printed + LinesAt(v.store, Opt(v.unread) + v.items)
  }

  // ---------- what the steps do to that ----------

  lemma SameLines(m: Store, m': Store, ids: seq<Id>)
    requires forall i | 0 <= i < |ids| :: LineAt(m', ids[i]) == LineAt(m, ids[i])
    ensures LinesAt(m', ids) == LinesAt(m, ids)
  {
  }

  lemma NewGood(v: View, t: Tid, line: Line)
    requires Good(v) && t in v.own && v.own[t] == None
    ensures Good(v.(own := v.own[t := Some(v.store.next)], store := New(v.store, line)))
  {
    var v' := v.(own := v.own[t := Some(v.store.next)], store := New(v.store, line));
    SameLines(v.store, v'.store, Opt(v.unread) + v.items);
    forall id: Id | id in v'.store.live ensures Owned(v', id) {
      if id == v.store.next {
        assert v'.own[t] == Some(id);
      } else {
        assert Owned(v, id);
        if u :| u in v.own && v.own[u] == Some(id) {
          assert v'.own[u] == Some(id);
        }
      }
    }
  }

  lemma DropGood(v: View, t: Tid)
    requires Good(v) && t in v.own && v.own[t].Some?
    ensures Good(v.(own := v.own[t := None], store := Free(v.store, v.own[t].value)))
  {
    var v' := v.(own := v.own[t := None], store := Free(v.store, v.own[t].value));
    SameLines(v.store, v'.store, Opt(v.unread) + v.items);
    forall id: Id | id in v'.store.live ensures Owned(v', id) {
      assert Owned(v, id);
      if u :| u in v.own && v.own[u] == Some(id) {
        assert v'.own[u] == Some(id);
      }
    }
  }

  lemma LastLine(m: Store, ids: seq<Id>, more: seq<Id>, id: Id, printed: seq<Line>, put: seq<Line>)
    requires put == printed + LinesAt(m, ids + more)
    ensures put + [LineAt(m, id)] == printed + LinesAt(m, ids + (more + [id]))
  {
    assert ids + (more + [id]) == (ids + more) + [id];
    assert LinesAt(m, (ids + more) + [id]) == LinesAt(m, ids + more) + [LineAt(m, id)];
  }

  lemma PushKeepsOwners(v: View, v': View, t: Tid)
    requires OneOwner(v) && t in v.own && v.own[t].Some?
    requires v'.own == v.own[t := None] && v'.items == v.items + [v.own[t].value]
    requires v'.store == v.store && v'.hand == v.hand
    ensures OneOwner(v')
  {
    forall x: Id | x in v'.store.live ensures Owned(v', x) {
      assert Owned(v, x);
      if u :| u in v.own && v.own[u] == Some(x) && u != t {
        assert v'.own[u] == Some(x);
      }
    }
  }

  lemma PushGood(v: View, t: Tid)
    requires Good(v) && t in v.own && v.own[t].Some?
    ensures
      var id := v.own[t].value;
      Good(v.(own := v.own[t := None], items := v.items + [id], put := v.put + [LineAt(v.store, id)]))
  {
    var id := v.own[t].value;
    var v' := v.(own := v.own[t := None], items := v.items + [id], put := v.put + [LineAt(v.store, id)]);
    LastLine(v.store, Opt(v.unread), v.items, id, v.printed, v.put);
    PushKeepsOwners(v, v', t);
  }

  lemma PopGood(v: View)
    requires Good(v) && v.items != [] && v.hand == None
    ensures Good(v.(items := v.items[1..], hand := Some(v.items[0]), unread := Some(v.items[0])))
  {
    var v' := v.(items := v.items[1..], hand := Some(v.items[0]), unread := Some(v.items[0]));
    assert Opt(v.unread) + v.items == Opt(v'.unread) + v'.items;
    forall x: Id | x in v'.store.live ensures Owned(v', x) {
      assert Owned(v, x);
      if x in v.items && x != v.items[0] {
        assert x in v'.items;
      }
    }
  }

  lemma FirstLine(m: Store, id: Id, ids: seq<Id>)
    ensures LinesAt(m, Opt(Some(id)) + ids) == [LineAt(m, id)] + LinesAt(m, ids)
    ensures Opt(None) + ids == ids
  {
  }

  lemma PrintGood(v: View)
    requires Good(v) && v.unread.Some?
    ensures Good(v.(unread := None, printed := v.printed + [LineAt(v.store, v.unread.value)]))
  {
    var id := v.unread.value;
    var v' := v.(unread := None, printed := v.printed + [LineAt(v.store, id)]);
    FirstLine(v.store, id, v.items);
    Regroup(v.printed, [LineAt(v.store, id)], LinesAt(v.store, v.items));
    forall x: Id | x in v'.store.live ensures Owned(v', x) {
      assert Owned(v, x);
    }
  }

  lemma ReleaseGood(v: View)
    requires Good(v) && v.hand.Some? && v.unread == None
    ensures Good(v.(hand := None, store := Free(v.store, v.hand.value)))
  {
    var v' := v.(hand := None, store := Free(v.store, v.hand.value));
    SameLines(v.store, v'.store, Opt(None) + v.items);
    forall x: Id | x in v'.store.live ensures Owned(v', x) {
      assert Owned(v, x);
    }
  }

  // ---------- the machine, seen so ----------

  /** Who is inside the queue, and with which call. */
  ghost predicate Linked(s: State) {
    && LOGGER !in s.writers && s.queue.pc.Keys == s.writers.Keys + {LOGGER}
    && (forall t | t in s.writers ::
          if s.writers[t].WInPush? then s.queue.pc[t].In? && s.queue.pc[t].op == Push(Some(s.writers[t].id))
          else s.queue.pc[t].Out?)
    && (if s.drain.DInPop? then s.queue.pc[LOGGER].In? && s.queue.pc[LOGGER].op.Pops() else s.queue.pc[LOGGER].Out?)
  }

  /** A push that has taken effect has handed its record over. */
  function Own(w: Writer, phase: AQ.Phase): Option<Id> {
    match w
    case WIdle => None
    case WHolding(id) => Some(id)
    case WDiscarding(id) => Some(id)
    case WInPush(id) => if phase.Decided? && phase.result.Pushed? then None else Some(id)
  }

  function Hand(d: Drain, phase: AQ.Phase): Option<Id> {
    match d
    case DIdle => None
    case DInPop => if phase.Decided? && phase.result.Got? then Some(phase.result.message) else None
    case DPrinting(id) => Some(id)
    case DFreeing(id) => Some(id)
  }

  function Unread(d: Drain, phase: AQ.Phase): Option<Id> {
    if d.DFreeing? then None else Hand(d, phase)
  }

  function ViewAt(s: State, q: AQ.State): View
    requires q.phase.Keys == s.writers.Keys + {LOGGER}
  {
    View(q.items, map t | t in s.writers :: Own(s.writers[t], q.phase[t]),
         Hand(s.drain, q.phase[LOGGER]), Unread(s.drain, q.phase[LOGGER]), s.store, s.put, s.printed)
  }

  /** The queue in order and everybody where the state says: who has what. */
  ghost function Seen(s: State): Option<View> {
    if MP.Inv(s.queue) && Linked(s) then Some(ViewAt(s, MP.Abs(s.queue))) else None
  }

  ghost predicate Inv(s: State) {
    Seen(s).Some? && Good(Seen(s).value)
  }

  /** A thread outside the queue is idle to it. */
  lemma OutIsIdle(q: MQ.State, t: Tid)
    requires MP.Inv(q) && t in q.pc
    ensures q.pc[t].Out? <==> MP.Abs(q).phase[t].Idle?
    ensures q.pc[t].In? ==> MP.Abs(q).phase[t].op == q.pc[t].op
    ensures q.pc[t].In? && q.pc[t].at.Returning? ==> MP.Abs(q).phase[t] == AQ.Decided(q.pc[t].op, q.pc[t].at.result)
  {
  }

  /** Steps inside the queue leave every thread in its call. */
  lemma CallsStay(q: MQ.State, step: MQ.Step)
    requires MQ.Enabled(q, step) && !step.Invoke? && !step.Return?
    ensures
      var q' := MQ.Apply(q, step);
      && q'.pc.Keys == q.pc.Keys
      && forall t | t in q.pc ::
           if q.pc[t].In? then q'.pc[t].In? && q'.pc[t].op == q.pc[t].op else q'.pc[t].Out?
  {
  }

  /** A writer has moved, the logger has not. */
  lemma WriterView(s: State, s': State, q: AQ.State, q': AQ.State, t: Tid, w: Writer, phase: AQ.Phase)
    requires q.phase.Keys == s.writers.Keys + {LOGGER} && LOGGER !in s.writers && t in s.writers
    requires s'.writers == s.writers[t := w] && s'.drain == s.drain && q'.phase == q.phase[t := phase]
    ensures
      var v := ViewAt(s, q);
      ViewAt(s', q') == View(q'.items, v.own[t := Own(w, phase)], v.hand, v.unread, s'.store, s'.put, s'.printed)
  {
  }

  /** A writer has moved, and has what it had. */
  lemma WriterStill(s: State, s': State, q: AQ.State, q': AQ.State, t: Tid, w: Writer, phase: AQ.Phase)
    requires q.phase.Keys == s.writers.Keys + {LOGGER} && LOGGER !in s.writers && t in s.writers
    requires s'.writers == s.writers[t := w] && s'.drain == s.drain && q'.phase == q.phase[t := phase]
    requires Own(w, phase) == Own(s.writers[t], q.phase[t]) && q'.items == q.items
    requires s'.store == s.store && s'.put == s.put && s'.printed == s.printed
    ensures ViewAt(s', q') == ViewAt(s, q)
  {
    WriterView(s, s', q, q', t, w, phase);
    var own := ViewAt(s, q).own;
    assert own[t := own[t]] == own;
  }

  /** The logger has moved, no writer has. */
  lemma DrainView(s: State, s': State, q: AQ.State, q': AQ.State, phase: AQ.Phase)
    requires q.phase.Keys == s.writers.Keys + {LOGGER} && LOGGER !in s.writers
    requires s'.writers == s.writers && q'.phase == q.phase[LOGGER := phase]
    ensures
      ViewAt(s', q') == View(q'.items, ViewAt(s, q).own, Hand(s'.drain, phase), Unread(s'.drain, phase),
                             s'.store, s'.put, s'.printed)
  {
  }

  lemma WriterLinked(s: State, s': State, t: Tid, w: Writer, pc: MQ.Pc)
    requires Linked(s) && t in s.writers && s'.writers == s.writers[t := w] && s'.drain == s.drain
    requires s'.queue.pc == s.queue.pc[t := pc]
    requires if w.WInPush? then pc.In? && pc.op == Push(Some(w.id)) else pc.Out?
    ensures Linked(s')
  {
  }

  lemma DrainLinked(s: State, s': State, pc: MQ.Pc)
    requires Linked(s) && s'.writers == s.writers && s'.queue.pc == s.queue.pc[LOGGER := pc]
    requires if s'.drain.DInPop? then pc.In? && pc.op.Pops() else pc.Out?
    ensures Linked(s')
  {
  }

  /** A writer outside the queue has moved, and the queue has not. */
  lemma WriterOutside(s: State, s': State, t: Tid, w: Writer)
    requires MP.Inv(s.queue) && Linked(s) && t in s.writers && !s.writers[t].WInPush? && !w.WInPush?
    requires s'.queue == s.queue && s'.writers == s.writers[t := w] && s'.drain == s.drain
    ensures Linked(s')
    ensures
      var q := MP.Abs(s.queue);
      var v := ViewAt(s, q);
      ViewAt(s', q) == View(v.items, v.own[t := Own(w, q.phase[t])], v.hand, v.unread, s'.store, s'.put, s'.printed)
  {
    var q := MP.Abs(s.queue);
    assert q.phase[t := q.phase[t]] == q.phase;
    assert s.queue.pc[t := s.queue.pc[t]] == s.queue.pc;
    WriterView(s, s', q, q, t, w, q.phase[t]);
    WriterLinked(s, s', t, w, s.queue.pc[t]);
  }

  lemma OwnedIsLive(v: View, t: Tid)
    requires Good(v) && t in v.own && v.own[t].Some?
    ensures v.own[t].value in v.store.live
  {
  }

  /** What a writer owns outside a push. */
  lemma OwnSeen(s: State, t: Tid, v: View)
    requires Seen(s) == Some(v) && t in s.writers
    ensures t in v.own && v.store == s.store
    ensures s.writers[t].WIdle? ==> v.own[t] == None
    ensures s.writers[t].WHolding? || s.writers[t].WDiscarding? ==> v.own[t] == Some(s.writers[t].id)
  {
  }

  lemma BuildSeen(s: State, t: Tid, line: Line, v: View)
    requires Seen(s) == Some(v) && Enabled(s, Build(t, line))
    ensures Seen(Apply(s, Build(t, line))) == Some(v.(own := v.own[t := Some(v.store.next)], store := New(v.store, line)))
  {
    hide MP.Inv;
    WriterOutside(s, Apply(s, Build(t, line)), t, WHolding(s.store.next));
  }

  lemma RefuseSeen(s: State, t: Tid, v: View)
    requires Seen(s) == Some(v) && Enabled(s, Refuse(t)) && s.writers[t].id in s.store.live
    requires t in v.own && v.own[t] == Some(s.writers[t].id)
    ensures Seen(Apply(s, Refuse(t))) == Some(v)
  {
    hide MP.Inv;
    WriterOutside(s, Apply(s, Refuse(t)), t, WDiscarding(s.writers[t].id));
    assert v.own[t := v.own[t]] == v.own;
  }

  lemma DiscardSeen(s: State, t: Tid, v: View)
    requires Seen(s) == Some(v) && Enabled(s, Discard(t))
    ensures Seen(Apply(s, Discard(t))) == Some(v.(own := v.own[t := None], store := Free(v.store, s.writers[t].id)))
  {
    hide MP.Inv;
    WriterOutside(s, Apply(s, Discard(t)), t, WIdle);
  }

  /** A call and a return, as the atomic queue sees them. */
  lemma CallSimulates(q: MQ.State, t: Tid, op: Op)
    requires MP.Inv(q) && MQ.Enabled(q, MQ.Invoke(t, op))
    ensures
      var q' := MQ.Apply(q, MQ.Invoke(t, op));
      && MP.Inv(q') && MP.Abs(q').items == MP.Abs(q).items
      && MP.Abs(q').phase == MP.Abs(q).phase[t := AQ.Pending(op)] && q'.pc == q.pc[t := MQ.In(op, MQ.Locking)]
  {
    MP.Simulates(q, MQ.Invoke(t, op));
  }

  lemma ReturnSimulates(q: MQ.State, t: Tid)
    requires MP.Inv(q) && MQ.Enabled(q, MQ.Return(t))
    ensures
      var q' := MQ.Apply(q, MQ.Return(t));
      && MP.Inv(q') && MP.Abs(q').items == MP.Abs(q).items
      && MP.Abs(q').phase == MP.Abs(q).phase[t := AQ.Idle] && q'.pc == q.pc[t := MQ.Out]
      && t in MP.Abs(q).phase && MP.Abs(q).phase[t] == AQ.Decided(q.pc[t].op, q.pc[t].at.result)
  {
    OutIsIdle(q, t);
    MP.Simulates(q, MQ.Return(t));
  }

  lemma OfferSeen(s: State, t: Tid, v: View)
    requires Seen(s) == Some(v) && Enabled(s, Offer(t)) && s.writers[t].id in s.store.live
    ensures Seen(Apply(s, Offer(t))) == Some(v)
  {
    hide MP.Inv;
    var q, s' := MP.Abs(s.queue), Apply(s, Offer(t));
    var op := Push(Some(s.writers[t].id));
    CallSimulates(s.queue, t, op);
    WriterStill(s, s', q, MP.Abs(s'.queue), t, WInPush(s.writers[t].id), AQ.Pending(op));
    WriterLinked(s, s', t, WInPush(s.writers[t].id), MQ.In(op, MQ.Locking));
  }

  lemma OfferedSeen(s: State, t: Tid, result: Result, v: View)
    requires Seen(s) == Some(v) && Enabled(s, Offered(t, result))
    ensures Seen(Apply(s, Offered(t, result))) == Some(v)
  {
    hide MP.Inv;
    var q, s' := MP.Abs(s.queue), Apply(s, Offered(t, result));
    ReturnSimulates(s.queue, t);
    WriterStill(s, s', q, MP.Abs(s'.queue), t, s'.writers[t], AQ.Idle);
    WriterLinked(s, s', t, s'.writers[t], MQ.Out);
  }

  lemma TakeSeen(s: State, op: Op, v: View)
    requires Seen(s) == Some(v) && Enabled(s, Take(op))
    ensures Seen(Apply(s, Take(op))) == Some(v)
  {
    hide MP.Inv;
    var q, s' := MP.Abs(s.queue), Apply(s, Take(op));
    CallSimulates(s.queue, LOGGER, op);
    DrainView(s, s', q, MP.Abs(s'.queue), AQ.Pending(op));
    DrainLinked(s, s', MQ.In(op, MQ.Locking));
  }

  lemma TakenSeen(s: State, result: Result, v: View)
    requires Seen(s) == Some(v) && Enabled(s, Taken(result))
    ensures Seen(Apply(s, Taken(result))) == Some(v)
  {
    hide MP.Inv;
    var q, s' := MP.Abs(s.queue), Apply(s, Taken(result));
    ReturnSimulates(s.queue, LOGGER);
    DrainView(s, s', q, MP.Abs(s'.queue), AQ.Idle);
    DrainLinked(s, s', MQ.Out);
  }

  lemma PrintSeen(s: State, v: View)
    requires Seen(s) == Some(v) && Enabled(s, Print) && s.drain.id in s.store.live
    ensures v.unread == Some(s.drain.id)
    ensures Seen(Apply(s, Print)) == Some(v.(unread := None, printed := v.printed + [LineAt(v.store, s.drain.id)]))
  {
    hide MP.Inv;
    var q, s' := MP.Abs(s.queue), Apply(s, Print);
    DrainView(s, s', q, q, q.phase[LOGGER]) by { assert q.phase[LOGGER := q.phase[LOGGER]] == q.phase; }
    DrainLinked(s, s', s.queue.pc[LOGGER]) by { assert s.queue.pc[LOGGER := s.queue.pc[LOGGER]] == s.queue.pc; }
  }

  lemma ReleaseSeen(s: State, v: View)
    requires Seen(s) == Some(v) && Enabled(s, Release)
    ensures v.hand == Some(s.drain.id) && v.unread == None
    ensures Seen(Apply(s, Release)) == Some(v.(hand := None, store := Free(v.store, s.drain.id)))
  {
    hide MP.Inv;
    var q, s' := MP.Abs(s.queue), Apply(s, Release);
    DrainView(s, s', q, q, q.phase[LOGGER]) by { assert q.phase[LOGGER := q.phase[LOGGER]] == q.phase; }
    DrainLinked(s, s', s.queue.pc[LOGGER]) by { assert s.queue.pc[LOGGER := s.queue.pc[LOGGER]] == s.queue.pc; }
  }

  lemma HandSeen(s: State, v: View)
    requires Seen(s) == Some(v) && Good(v) && (s.drain.DPrinting? || s.drain.DFreeing?)
    ensures s.drain.id in s.store.live
  {
    assert v.hand == Some(s.drain.id);
  }

  // ---------- inside the queue ----------

  /** A step inside the queue, as the atomic queue sees it. */
  lemma InsideSimulates(q: MQ.State, inner: MQ.Step)
    requires MP.Inv(q) && MQ.Enabled(q, inner) && !inner.Invoke? && !inner.Return?
    ensures
      var q' := MQ.Apply(q, inner);
      && MP.Inv(q')
      && match MP.Effect(q, inner)
         case None => MP.Abs(q') == MP.Abs(q)
         case Some(a) =>
           && a.Decide? && a.t == inner.t && q.pc[a.t].In? && MP.Abs(q).phase[a.t] == AQ.Pending(q.pc[a.t].op)
           && AQ.Enabled(MP.Abs(q), a) && MP.Abs(q') == AQ.Apply(MP.Abs(q), a)
  {
    MP.Simulates(q, inner);
    OutIsIdle(q, inner.t);
  }

  lemma InsideKeepsLinks(s: State, inner: MQ.Step)
    requires Linked(s) && Enabled(s, Inside(inner))
    ensures Linked(Apply(s, Inside(inner)))
  {
    CallsStay(s.queue, inner);
  }

  /** A step that decides nothing. */
  lemma QuietSeen(s: State, inner: MQ.Step, v: View)
    requires Seen(s) == Some(v) && Enabled(s, Inside(inner)) && MP.Effect(s.queue, inner).None?
    ensures PutBy(s, inner) == [] && Seen(Apply(s, Inside(inner))) == Some(v)
  {
    hide MP.Inv;
    InsideSimulates(s.queue, inner);
    InsideKeepsLinks(s, inner);
    assert Apply(s, Inside(inner)).put == s.put;
    assert ViewAt(Apply(s, Inside(inner)), MP.Abs(s.queue)) == v;
  }

  /** What a decision does to the view. */
  function Decided(v: View, t: Tid, result: Result): View {
    if t == LOGGER then
      if result.Got? && v.items != [] then
        v.(items := v.items[1..], hand := Some(v.items[0]), unread := Some(v.items[0]))
      else v
    else if result.Pushed? && t in v.own && v.own[t].Some? then
      var id := v.own[t].value;
      v.(own := v.own[t := None], items := v.items + [id], put := v.put + [LineAt(v.store, id)])
    else v
  }

  /** A push decides. */
  lemma PushDecides(s: State, s': State, q: AQ.State, q': AQ.State, t: Tid, result: Result)
    requires q.phase.Keys == s.writers.Keys + {LOGGER} && LOGGER !in s.writers && t in s.writers && s.writers[t].WInPush?
    requires q.phase[t] == AQ.Pending(Push(Some(s.writers[t].id)))
    requires AQ.Enabled(q, AQ.Decide(t, result)) && q' == AQ.Apply(q, AQ.Decide(t, result))
    requires s' == s.(queue := s'.queue, put := s'.put)
    requires s'.put == s.put + if result.Pushed? then [LineAt(s.store, s.writers[t].id)] else []
    ensures ViewAt(s', q') == Decided(ViewAt(s, q), t, result) && ViewAt(s, q).own[t] == Some(s.writers[t].id)
  {
    var op := Push(Some(s.writers[t].id));
    assert s.writers[t := s.writers[t]] == s.writers;
    if result.Pushed? {
      WriterView(s, s', q, q', t, s.writers[t], AQ.Decided(op, result));
    } else {
      WriterStill(s, s', q, q', t, s.writers[t], AQ.Decided(op, result));
    }
  }

  /** A pop decides. */
  lemma PopDecides(s: State, s': State, q: AQ.State, q': AQ.State, op: Op, result: Result)
    requires q.phase.Keys == s.writers.Keys + {LOGGER} && LOGGER !in s.writers && s.drain.DInPop?
    requires q.phase[LOGGER] == AQ.Pending(op) && op.Pops()
    requires AQ.Enabled(q, AQ.Decide(LOGGER, result)) && q' == AQ.Apply(q, AQ.Decide(LOGGER, result))
    requires s' == s.(queue := s'.queue)
    ensures ViewAt(s', q') == Decided(ViewAt(s, q), LOGGER, result)
    ensures ViewAt(s, q).hand == None && (result.Got? ==> q.items != [])
  {
    DrainView(s, s', q, q', AQ.Decided(op, result));
  }

  lemma WriterInside(s: State, inner: MQ.Step)
    requires MP.Inv(s.queue) && Linked(s) && Enabled(s, Inside(inner))
    requires MP.Effect(s.queue, inner).Some? && inner.t != LOGGER
    ensures inner.t in s.writers && s.writers[inner.t].WInPush?
    ensures MP.Abs(s.queue).phase[inner.t] == AQ.Pending(Push(Some(s.writers[inner.t].id)))
    ensures
      var result := MP.Effect(s.queue, inner).value.result;
      PutBy(s, inner) == if result.Pushed? then [LineAt(s.store, s.writers[inner.t].id)] else []
  {
    InsideSimulates(s.queue, inner);
  }

  lemma WriterDecides(s: State, inner: MQ.Step, v: View)
    requires Seen(s) == Some(v) && Enabled(s, Inside(inner)) && MP.Effect(s.queue, inner).Some? && inner.t != LOGGER
    ensures inner.t in s.writers && s.writers[inner.t].WInPush? && inner.t in v.own
    ensures v.own[inner.t] == Some(s.writers[inner.t].id)
    ensures
      var result := MP.Effect(s.queue, inner).value.result;
      && PutBy(s, inner) == (if result.Pushed? then [LineAt(s.store, s.writers[inner.t].id)] else [])
      && Seen(Apply(s, Inside(inner))) == Some(Decided(v, inner.t, result))
  {
    hide MP.Inv;
    var s' := Apply(s, Inside(inner));
    InsideSimulates(s.queue, inner);
    InsideKeepsLinks(s, inner);
    WriterInside(s, inner);
    PushDecides(s, s', MP.Abs(s.queue), MP.Abs(s'.queue), inner.t, MP.Effect(s.queue, inner).value.result);
  }

  lemma LoggerDecides(s: State, inner: MQ.Step, v: View)
    requires Seen(s) == Some(v) && Enabled(s, Inside(inner)) && MP.Effect(s.queue, inner).Some? && inner.t == LOGGER
    ensures
      var result := MP.Effect(s.queue, inner).value.result;
      && v.hand == None && (result.Got? ==> v.items != []) && PutBy(s, inner) == []
      && Seen(Apply(s, Inside(inner))) == Some(Decided(v, LOGGER, result))
  {
    hide MP.Inv;
    var s' := Apply(s, Inside(inner));
    InsideSimulates(s.queue, inner);
    InsideKeepsLinks(s, inner);
    assert s'.put == s.put;
    PopDecides(s, s', MP.Abs(s.queue), MP.Abs(s'.queue), s.queue.pc[LOGGER].op, MP.Effect(s.queue, inner).value.result);
  }

  // ---------- every step ----------

  lemma WriterKeeps(s: State, step: Step)
    requires Inv(s) && Enabled(s, step) && (step.Build? || step.Refuse? || step.Offer? || step.Offered? || step.Discard?)
    ensures Inv(Apply(s, step))
  {
    var v := Seen(s).value;
    OwnSeen(s, step.t, v);
    match step
    case Build(t, line) => BuildSeen(s, t, line, v); NewGood(v, t, line);
    case Refuse(t) => OwnedIsLive(v, t); RefuseSeen(s, t, v);
    case Offer(t) => OwnedIsLive(v, t); OfferSeen(s, t, v);
    case Offered(t, result) => OfferedSeen(s, t, result, v);
    case Discard(t) => DiscardSeen(s, t, v); DropGood(v, t);
  }

  lemma LoggerKeeps(s: State, step: Step)
    requires Inv(s) && Enabled(s, step) && (step.Take? || step.Taken? || step.Print? || step.Release?)
    ensures Inv(Apply(s, step))
  {
    var v := Seen(s).value;
    match step
    case Take(op) => TakeSeen(s, op, v);
    case Taken(result) => TakenSeen(s, result, v);
    case Print => HandSeen(s, v); PrintSeen(s, v); PrintGood(v);
    case Release => ReleaseSeen(s, v); ReleaseGood(v);
  }

  lemma InsideKeeps(s: State, inner: MQ.Step)
    requires Inv(s) && Enabled(s, Inside(inner))
    ensures Inv(Apply(s, Inside(inner)))
  {
    var v := Seen(s).value;
    if MP.Effect(s.queue, inner).None? {
      QuietSeen(s, inner, v);
    } else if inner.t == LOGGER {
      LoggerDecides(s, inner, v);
      if MP.Effect(s.queue, inner).value.result.Got? {
        PopGood(v);
      }
    } else {
      WriterDecides(s, inner, v);
      if MP.Effect(s.queue, inner).value.result.Pushed? {
        PushGood(v, inner.t);
      }
    }
  }

  lemma StepKeeps(s: State, step: Step)
    requires Inv(s) && Enabled(s, step) && !step.Destroy?
    ensures Inv(Apply(s, step))
  {
    match step
    case Inside(inner) => InsideKeeps(s, inner);
    case Take(_) => LoggerKeeps(s, step);
    case Taken(_) => LoggerKeeps(s, step);
    case Print => LoggerKeeps(s, step);
    case Release => LoggerKeeps(s, step);
    case _ => WriterKeeps(s, step);
  }

  /** Between two records the logger may go on with a pop of either kind, and whoever is idle may build. */
  lemma MayGoOn(s: State, t: Tid, line: Line)
    requires Inv(s) && s.open
    ensures s.drain.DIdle? ==> Enabled(s, Take(Pop)) && Enabled(s, Take(PopWaitT))
    ensures t in s.writers && s.writers[t].WIdle? ==> Enabled(s, Build(t, line))
    ensures t in s.writers && s.writers[t].WHolding? ==> Enabled(s, Refuse(t)) || Enabled(s, Offer(t))
  {
    hide Good;
    LinkedCalls(s, t);
  }

  lemma LinkedCalls(s: State, t: Tid)
    requires Linked(s)
    ensures s.drain.DIdle? ==> forall op: Op :: MQ.Enabled(s.queue, MQ.Invoke(LOGGER, op))
    ensures t in s.writers && s.writers[t].WHolding? ==> forall op: Op :: MQ.Enabled(s.queue, MQ.Invoke(t, op))
  {
  }

  // ---------- the end ----------

  lemma {:induction false} FreesThem(m: Store, ids: seq<Id>)
    requires StoreOk(m) && (forall i | 0 <= i < |ids| :: ids[i] in m.live)
    requires forall i, j | 0 <= i < j < |ids| :: ids[i] != ids[j]
    ensures StoreOk(FreeAll(m, ids)) && FreeAll(m, ids).next == m.next
    ensures forall id: Id :: id in FreeAll(m, ids).live <==> id in m.live && id !in ids
    decreases |ids|
  {
    if ids == [] {
    } else {
      FreesThem(Free(m, ids[0]), ids[1..]);
    }
  }

  /** After log_destroy: no record is left, each was freed once, no node is left, and what was printed is
      a prefix of what was pushed. */
  ghost predicate Ended(s: State) {
    StoreOk(s.store) && s.store.live == map[] && s.queue.list.heap == map[] && !s.queue.fault && s.printed <= s.put
  }

  /** When everybody is done, the queue has all the records there are. */
  lemma QueueHasAll(v: View)
    requires Good(v) && v.hand == None && forall t | t in v.own :: v.own[t] == None
    ensures forall id: Id | id in v.store.live :: id in v.items
  {
    forall id: Id | id in v.store.live ensures id in v.items {
      assert Owned(v, id);
    }
  }

  /** Everybody is outside the queue then. */
  lemma NobodyInside(s: State, v: View)
    requires Seen(s) == Some(v) && Enabled(s, Destroy)
    ensures MP.Inv(s.queue) && v.items == MP.Items(s.queue.list) && v.store == s.store
    ensures v.put == s.put && v.printed == s.printed
    ensures v.hand == None && v.unread == None && forall t | t in v.own :: v.own[t] == None
    ensures forall t | t in s.queue.pc :: s.queue.pc[t].Out?
  {
  }

  lemma EndsGood(v: View, m: Store)
    requires Good(v) && v.hand == None && v.unread == None && (forall t | t in v.own :: v.own[t] == None)
    requires m == FreeAll(v.store, v.items)
    ensures StoreOk(m) && m.live == map[] && v.printed <= v.put
  {
    QueueHasAll(v);
    FreesThem(v.store, v.items);
    assert m.live == map[];
  }

  lemma DestroyEnds(s: State)
    requires Inv(s) && Enabled(s, Destroy)
    ensures Ended(Apply(s, Destroy))
  {
    var v := Seen(s).value;
    NobodyInside(s, v);
    MP.DestroysAll(s.queue);
    EndsGood(v, Apply(s, Destroy).store);
  }

  ghost predicate RunInv(s: State) {
    if s.open then Inv(s) else Ended(s)
  }

  lemma {:induction false} InvAlong(s: State, steps: seq<Step>)
    requires RunInv(s) && Runs(s, steps)
    ensures RunInv(After(s, steps))
    decreases |steps|
  {
    if steps == [] {
    } else {
      if steps[0].Destroy? {
        DestroyEnds(s);
      } else {
        StepKeeps(s, steps[0]);
      }
      InvAlong(Apply(s, steps[0]), steps[1..]);
    }
  }

  lemma InitInv(writers: set<Tid>, min: Severity)
    requires LOGGER !in writers
    ensures Inv(Init(writers, min))
  {
    var s := Init(writers, min);
    MR.InitInv(writers + {LOGGER});
    forall id: Id ensures s.store.freed[id] == 0 {
      assert id !in s.store.freed;
    }
    assert LinesAt(s.store, Opt(None) + MP.Items(s.queue.list)) == [];
  }

  // ---------- the main results ----------

  lemma PrintedIsPrefix(s: State)
    requires RunInv(s)
    ensures s.printed <= s.put && StoreOk(s.store) && !s.queue.fault
  {
    if s.open {
      var v := Seen(s).value;
      assert v.printed == s.printed && v.put == s.put && v.store == s.store;
    }
  }

  /** Nothing is forgotten: whenever the queue is empty and the logger has nothing in hand that it has not
      printed, all that was pushed has been printed. */
  lemma {:induction false} DrainedMeansPrinted(writers: set<Tid>, min: Severity, steps: seq<Step>)
    requires LOGGER !in writers && Runs(Init(writers, min), steps)
    ensures
      var s := After(Init(writers, min), steps);
      s.open && (s.drain.DIdle? || s.drain.DFreeing?) ==>
        MP.HasChain(s.queue.list) && (MP.Items(s.queue.list) == [] ==> s.printed == s.put)
  {
    InitInv(writers, min);
    InvAlong(Init(writers, min), steps);
    var s := After(Init(writers, min), steps);
    if s.open && (s.drain.DIdle? || s.drain.DFreeing?) && MP.Items(s.queue.list) == [] {
      NothingUnread(s);
    }
  }

  lemma NothingUnread(s: State)
    requires Inv(s) && (s.drain.DIdle? || s.drain.DFreeing?) && MP.Items(s.queue.list) == []
    ensures s.printed == s.put
  {
    var v := Seen(s).value;
    assert v.unread == None && v.items == [] && v.put == s.put && v.printed == s.printed;
    assert v.printed + [] == v.printed;
  }
}
