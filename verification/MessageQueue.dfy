/** message_queue.c over queue.c as a step machine for any number of threads.
    Every access to the list inside the critical section is a step of its own, the mutex and the
    condition variable follow sections 7.26.3 and 7.26.4 of ISO/IEC 9899:2018: a wait gives the
    lock up in the same step in which it starts to sleep, it must take the lock again before it
    returns, and it may wake up without having been signalled. */
module MessageQueue {
  import opened Common
  import opened QueueCalls

  type Addr = nat

  datatype Node = Node(value: Message, next: Option<Addr>)

  /** Where a thread stands inside a call. */
  datatype Point =
    | Locking                     // about to call mtx_lock
    | Allocating                  // push: in queue_node_new
    | Linking(node: Addr)         // push: about to hang the new node into the list
    | SettingBack(node: Addr)     // push: about to move the back pointer
    | Signalling(ok: bool)        // push: about to call cnd_signal
    | Reading                     // pop: about to read the front pointer
    | Unlinking(node: Addr)       // pop: about to move the front pointer past `node`
    | ClearingBack(node: Addr)    // pop: list has become empty, back pointer not yet cleared
    | Freeing(node: Addr)         // pop: about to read the value and free the node
    | Asleep                      // in a condition wait, lock released, not signalled
    | Woken(timedOut: bool)       // in a condition wait, about to take the lock again
    | Unlocking(result: Result)   // about to call mtx_unlock
    | Returning(result: Result)   // lock released, about to return

  datatype Pc = Out | In(op: Op, at: Point)

  /** queue_t: the allocated nodes and the two pointers. */
  datatype List = List(heap: map<Addr, Node>, front: Option<Addr>, back: Option<Addr>)

  datatype State = State(
    list: List,
    lock: Option<Tid>,
    pc: map<Tid, Pc>,
    fault: bool)                  // a NULL or dangling pointer was followed, or a double free happened

  datatype Step =
    | Invoke(t: Tid, op: Op)
    | LockFails(t: Tid)
    | Acquire(t: Tid)
    | AllocFails(t: Tid)
    | Alloc(t: Tid, node: Addr)
    | Advance(t: Tid)
    | Signal(t: Tid, woken: Option<Tid>)
    | WakeUp(t: Tid, timedOut: bool)
    | Return(t: Tid)

  function Init(threads: set<Tid>): State {
    State(List(map[], None, None), None, map t | t in threads :: Out, false)
  }

  predicate Sleeps(s: State, t: Tid) {
    t in s.pc && s.pc[t].In? && s.pc[t].at.Asleep?
  }

  /** The points from which `Advance` goes on. */
  predicate Advances(at: Point) {
    at.Linking? || at.SettingBack? || at.Reading? || at.Unlinking? || at.ClearingBack? || at.Freeing? || at.Unlocking?
  }

  predicate Enabled(s: State, step: Step) {
    && step.t in s.pc
    && (step.Invoke? <==> s.pc[step.t].Out?)
    && match step
       case Invoke(t, op) => true
       case LockFails(t) => s.pc[t].at.Locking?
       case Acquire(t) => s.lock.None? && (s.pc[t].at.Locking? || s.pc[t].at.Woken?)
       case AllocFails(t) => s.pc[t].at.Allocating?
       case Alloc(t, node) =>
         s.pc[t].at.Allocating? && node !in s.list.heap && s.pc[t].op.Push? && s.pc[t].op.message.Some?
       case Advance(t) => Advances(s.pc[t].at)
       case Signal(t, woken) =>
         && s.pc[t].at.Signalling?
         && (woken.Some? ==> Sleeps(s, woken.value))
         && (woken.None? ==> forall u | u in s.pc :: !Sleeps(s, u))
       case WakeUp(t, timedOut) => s.pc[t].at.Asleep? && (timedOut ==> s.pc[t].op.PopWaitT?)
       case Return(t) => s.pc[t].at.Returning?
  }

  /** Thread `t` goes on to `at`. */
  function Move(s: State, t: Tid, at: Point): State
    requires t in s.pc && s.pc[t].In?
  {
    s.(pc := s.pc[t := s.pc[t].(at := at)])
  }

  /** Where a thread starts once it has the lock. */
  function Entry(op: Op): Point {
    if op.Push? then Allocating else Reading
  }

  function Apply(s: State, step: Step): State
    requires Enabled(s, step)
  {
    match step
    case Invoke(t, op) => s.(pc := s.pc[t := In(op, Locking)])
    case LockFails(t) => Move(s, t, Returning(LockError))
    case Acquire(t) =>
      Move(s, t, if s.pc[t].at == Woken(true) then Unlocking(TimedOut) else Entry(s.pc[t].op)).(lock := Some(t))
    case AllocFails(t) => Move(s, t, Signalling(false))
    case Alloc(t, node) =>
      var heap := s.list.heap[node := Node(s.pc[t].op.message.value, None)];
      Move(s, t, Linking(node)).(list := s.list.(heap := heap))
    case Advance(t) =>
      (match Access(s.list, s.pc[t].op, s.pc[t].at)
       case None => s.(fault := true)
       case Some((list, at)) =>
         Move(s, t, at).(list := list, lock := if at.Asleep? || at.Returning? then None else s.lock))
    case Signal(t, woken) =>
      var result := if s.pc[t].at.ok then Pushed else NotPushed;
      Move(if woken.Some? then Move(s, woken.value, Woken(false)) else s, t, Unlocking(result))
    case WakeUp(t, timedOut) => Move(s, t, Woken(timedOut))
    case Return(t) => s.(pc := s.pc[t := Out])
  }

  /** One access to the shared list, or the release of the lock: the list and the point after it,
      `None` if a NULL or dangling pointer would be followed. */
  function Access(list: List, op: Op, at: Point): Option<(List, Point)>
    requires Advances(at)
  {
    match at
    case Linking(n) =>
      if list.back.None? then Some((list.(front := Some(n)), SettingBack(n)))
      else if list.back.value !in list.heap then None
      else
        var b := list.back.value;
        Some((list.(heap := list.heap[b := list.heap[b].(next := Some(n))]), SettingBack(n)))
    case SettingBack(n) => Some((list.(back := Some(n)), Signalling(true)))
    case Reading =>
      var at' :=
        if list.front.Some? then Unlinking(list.front.value)
        else if op.Pop? then Unlocking(Empty)
        else Asleep;
      Some((list, at'))
    case Unlinking(n) =>
      if n !in list.heap then None
      else if list.heap[n].next.None? then Some((list.(front := None), ClearingBack(n)))
      else Some((list.(front := list.heap[n].next), Freeing(n)))
    case ClearingBack(n) => Some((list.(back := None), Freeing(n)))
    case Freeing(n) =>
      if n !in list.heap then None
      else Some((list.(heap := list.heap - {n}), Unlocking(Got(list.heap[n].value))))
    case Unlocking(result) => Some((list, Returning(result)))
  }

  /** The values given to the deleter, in order, and the nodes left; `fault` if the loop follows a
      dangling pointer. */
  datatype Walk = Walk(values: seq<Message>, heap: map<Addr, Node>, fault: bool)

  /** The loop of queue_destroy: reads the next pointer and the value of a node, frees it, and goes on
      until it meets NULL. */
  function FreeFrom(heap: map<Addr, Node>, i: Option<Addr>): Walk
    decreases heap.Keys
  {
    if i.None? then Walk([], heap, false)
    else if i.value !in heap then Walk([], heap, true)
    else
      var rest := FreeFrom(heap - {i.value}, heap[i.value].next);
      rest.(values := [heap[i.value].value] + rest.values)
  }

  /** queue_destroy, on the list of a message queue. */
  function Destroyed(s: State): State {
    var walk := FreeFrom(s.list.heap, s.list.front);
    s.(list := List(walk.heap, None, None), fault := s.fault || walk.fault)
  }

  predicate Runs(s: State, steps: seq<Step>)
    decreases |steps|
  {
    steps == [] || (Enabled(s, steps[0]) && Runs(Apply(s, steps[0]), steps[1..]))
  }

  function After(s: State, steps: seq<Step>): State
    requires Runs(s, steps)
    decreases |steps|
  {
    if steps == [] then s else After(Apply(s, steps[0]), steps[1..])
  }
}
