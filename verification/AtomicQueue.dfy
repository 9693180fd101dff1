/** The calls a thread can make on a message queue, and what they can return. A message is a
    `void*`, here a number; NULL is `None`. */
module QueueCalls {
  import opened Common

  type Tid = nat
  type Message = nat

  datatype Op = Push(message: Option<Message>) | Pop | PopWait | PopWaitT {
    predicate Pops() { !Push? }
  }

  /** What a call decided. `Empty`, `TimedOut` and `LockError` all reach a popping caller as NULL. */
  datatype Result = Pushed | NotPushed | Got(message: Message) | Empty | TimedOut | LockError

  /** The results a call of `op` can have. */
  predicate Fits(op: Op, result: Result) {
    match result
    case Pushed => op.Push? && op.message.Some?
    case NotPushed => op.Push?
    case Got(_) => op.Pops()
    case Empty => op.Pop?
    case TimedOut => op.PopWaitT?
    case LockError => true
  }
}

/** The specification of the message queue: a first-in first-out queue whose operations
    take effect in one indivisible moment somewhere between their call and their return. */
module AtomicQueue {
  import opened Common
  import opened QueueCalls

  datatype Phase = Idle | Pending(op: Op) | Decided(op: Op, result: Result)

  datatype State = State(items: seq<Message>, phase: map<Tid, Phase>)

  datatype Step = Call(t: Tid, op: Op) | Decide(t: Tid, result: Result) | Return(t: Tid)

  /** The results `op` may decide on when the queue holds `items`. */
  predicate Allowed(items: seq<Message>, op: Op, result: Result) {
    match result
    case Pushed => op.Push? && op.message.Some?
    case NotPushed => op.Push?
    case Got(m) => op.Pops() && items != [] && m == items[0]
    case Empty => op.Pop? && items == []
    case TimedOut => op.PopWaitT?
    case LockError => true
  }

  function Effect(items: seq<Message>, op: Op, result: Result): seq<Message>
    requires Allowed(items, op, result)
  {
    match result
    case Pushed => items + [op.message.value]
    case Got(_) => items[1..]
    case _ => items
  }

  predicate Enabled(s: State, step: Step) {
    && step.t in s.phase
    && match step
       case Call(t, op) => s.phase[t].Idle?
       case Decide(t, result) => s.phase[t].Pending? && Allowed(s.items, s.phase[t].op, result)
       case Return(t) => s.phase[t].Decided?
  }

  function Apply(s: State, step: Step): State
    requires Enabled(s, step)
  {
    match step
    case Call(t, op) => s.(phase := s.phase[t := Pending(op)])
    case Decide(t, result) =>
      var op := s.phase[t].op;
      State(Effect(s.items, op, result), s.phase[t := Decided(op, result)])
    case Return(t) => s.(phase := s.phase[t := Idle])
  }

  predicate Runs(s: State, steps: seq<Step>)
    decreases |steps|
  {
    steps == [] || (Enabled(s, steps[0]) && Runs(Apply(s, steps[0]), steps[1..]))
  }

  function After(s: State, steps: seq<Step>): State
    requires Runs(s, steps)
    decreases |steps|
  {
    if steps == [] then s else After(Apply(s, steps[0]), steps[1..])
  }

  /** The messages pushed with success along a run, in the order their pushes took effect. */
  function PushedAlong(s: State, steps: seq<Step>): seq<Message>
    requires Runs(s, steps)
    decreases |steps|
  {
    if steps == [] then [] else
    var rest := PushedAlong(Apply(s, steps[0]), steps[1..]);
    if steps[0].Decide? && steps[0].result.Pushed? then [s.phase[steps[0].t].op.message.value] + rest else rest
  }

  /** The messages handed to popping callers along a run, in the order the pops took effect. */
  function PoppedAlong(s: State, steps: seq<Step>): seq<Message>
    requires Runs(s, steps)
    decreases |steps|
  {
    if steps == [] then [] else
    var rest := PoppedAlong(Apply(s, steps[0]), steps[1..]);
    if steps[0].Decide? && steps[0].result.Got? then [steps[0].result.message] + rest else rest
  }

  /** First in, first out, nothing lost and nothing invented, over every run. */
  lemma {:induction false} FifoConservation(s: State, steps: seq<Step>)
    requires Runs(s, steps)
    ensures s.items + PushedAlong(s, steps) == PoppedAlong(s, steps) + After(s, steps).items
    decreases |steps|
  {
    if steps == [] {
    } else {
      var next := Apply(s, steps[0]);
      FifoConservation(next, steps[1..]);
      var later := PushedAlong(next, steps[1..]);
      if steps[0].Decide? && steps[0].result.Got? {
        var popped := PoppedAlong(next, steps[1..]);
        assert s.items + later == [s.items[0]] + (next.items + later);
        assert ([s.items[0]] + popped) + After(s, steps).items == [s.items[0]] + (popped + After(s, steps).items);
      } else if steps[0].Decide? && steps[0].result.Pushed? {
        assert s.items + ([s.phase[steps[0].t].op.message.value] + later) == next.items + later;
      }
    }
  }

  lemma {:induction false} Cut(s: State, steps: seq<Step>, k: nat)
    requires Runs(s, steps) && k < |steps|
    ensures Runs(s, steps[..k]) && Enabled(After(s, steps[..k]), steps[k])
    decreases k
  {
    if k == 0 {
    } else {
      Cut(Apply(s, steps[0]), steps[1..], k - 1);
      assert steps[1..][..k - 1] == steps[..k][1..];
    }
  }

  /** A pop that finds nothing tells the truth: everything pushed before it had been popped before it. And
      one that finds a message gets the oldest that had not. */
  lemma {:induction false} PopsTellTheTruth(s: State, steps: seq<Step>, k: nat)
    requires Runs(s, steps) && k < |steps| && steps[k].Decide?
    ensures Runs(s, steps[..k])
    ensures
      var before, popped := s.items + PushedAlong(s, steps[..k]), PoppedAlong(s, steps[..k]);
      && (steps[k].result.Empty? ==> before == popped)
      && (steps[k].result.Got? ==> |popped| < |before| && steps[k].result.message == before[|popped|])
  {
    Cut(s, steps, k);
    FifoConservation(s, steps[..k]);
  }
}
