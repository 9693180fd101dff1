/** logger.c: many threads build records and push them through the severity filter, one thread drains
    them into the sinks. What malloc and the queue's lock answer are parameters; each call stands for
    the moment it takes effect on the queue, so a run is any order of calls on one context. */
module Logger {
  import opened Common

  /** The severities of severity.h, log_trace = 0 to log_fatal = 5. */
  type Severity = s: nat | s <= 5

  const TRACE: Severity := 0

  /** A heap string. `live` is false once it has been freed. */
  class Message {
    const text: string
    ghost var live: bool
    ghost var owner: Record?   // the record it was put into

    constructor (text: string)
      ensures this.text == text && live && owner == null
    {
      this.text, live, owner := text, true, null;
    }

    method Free()
      requires live
      modifies this`live
      ensures !live
    {
      ghost var dead := false;
      live := dead;
    }
  }

  class Record {
    const severity: Severity
    const message: Message
    ghost var live: bool

    constructor (severity: Severity, message: Message)
      modifies message`owner
      ensures this.severity == severity && this.message == message && live && message.owner == this
    {
      this.severity, this.message, live := severity, message, true;
      new;
      message.owner := this;
    }

    ghost predicate Whole()
      reads this, message
    {
      live && message.live && message.owner == this
    }

    ghost predicate Gone()
      reads this, message
    {
      !live && !message.live && message.owner == this
    }

    /** log_record_free: neither part may have been freed before. */
    method Free()
      requires Whole()
      modifies this`live, message`live
      ensures Gone()
    {
      message.Free();
      ghost var dead := false;
      live := dead;
    }
  }

  /** What a sink gets to see of a record. */
  datatype Line = Line(severity: Severity, text: string)

  function LineOf(record: Record): Line { Line(record.severity, record.message.text) }

  /** `put` is `lines`, followed by what the sinks would see of the records waiting. */
  ghost predicate InStep(lines: seq<Line>, waiting: seq<Record>, put: seq<Line>) {
    && |put| == |lines| + |waiting| && lines <= put
    && forall i | 0 <= i < |waiting| :: put[|lines| + i] == LineOf(waiting[i])
  }

  /** One log_printf (or log_puts, when `copied`) of some thread, with what fails in it. */
  datatype Call = Call(
    copied: bool, severity: Severity, text: string, noMessage: bool, noRecord: bool, lockFails: bool, noNode: bool)

  /** The call gets as far as a record. */
  predicate Builds(call: Call) { !call.noMessage && !call.noRecord }

  /** The record gets past the filter and into the queue. */
  predicate Accepts(call: Call, min: Severity) {
    Builds(call) && call.severity >= min && !call.lockFails && !call.noNode
  }

  /** What the calls from number `i` on put into the queue. */
  function Accepted(calls: seq<Call>, i: nat, min: Severity): seq<Line>
    decreases |calls| - i
  {
    if i >= |calls| then [] else AcceptedOf(calls[i], min) + Accepted(calls, i + 1, min)
  }

  function AcceptedOf(call: Call, min: Severity): seq<Line> {
    if Accepts(call, min) then [Line(call.severity, call.text)] else []
  }

  /** How many records the calls from number `i` on build. */
  function Building(calls: seq<Call>, i: nat): nat
    decreases |calls| - i
  {
    if i >= |calls| then 0 else (if Builds(calls[i]) then 1 else 0) + Building(calls, i + 1)
  }

  /** One pass of a draining loop: what other threads log before it, and whether the pop yields NULL
      although there is something in the queue, which a lock failure or a timeout brings about. */
  datatype Round = Round(traffic: seq<Call>, refused: bool)

  /** The round number `i`; after the last one given, nothing more comes in. */
  function RoundAt(rounds: seq<Round>, i: nat): Round {
    if i < |rounds| then rounds[i] else Round([], false)
  }

  /** A round that was refused is one that was given. */
  lemma GivenRound(rounds: seq<Round>, i: nat)
    ensures RoundAt(rounds, i).refused <==> i < |rounds| && rounds[i].refused
  {
  }

  /** What comes into the queue in the rounds from number `i` up to `n`. */
  function Heard(rounds: seq<Round>, i: nat, n: nat, min: Severity): seq<Line>
    decreases n - i
  {
    if i >= n then [] else Accepted(RoundAt(rounds, i).traffic, 0, min) + Heard(rounds, i + 1, n, min)
  }

  /** How many records are built in the rounds before number `n`. */
  function BuiltBefore(rounds: seq<Round>, n: nat): nat {
    if n == 0 then 0 else BuiltBefore(rounds, n - 1) + Building(RoundAt(rounds, n - 1).traffic, 0)
  }

  lemma {:induction false} HeardGrows(before: seq<Line>, rounds: seq<Round>, i: nat, n: nat, min: Severity)
    requires i <= n
    ensures before + Heard(rounds, i, n + 1, min)
         == before + Heard(rounds, i, n, min) + Accepted(RoundAt(rounds, n).traffic, 0, min)
    decreases n - i
  {
    if i == n {
    } else {
      var added := Accepted(RoundAt(rounds, i).traffic, 0, min);
      var rest, more := Heard(rounds, i + 1, n, min), Heard(rounds, i + 1, n + 1, min);
      HeardGrows(before + added, rounds, i + 1, n, min);
      Regroup(before, added, more);
      Regroup(before, added, rest);
      assert before + Heard(rounds, i, n + 1, min) == (before + added) + more;
    }
  }

  class LogContext {
    var minSeverity: Severity
    var waiting: seq<Record>      // the message queue
    var lines: seq<Line>          // what the sinks were given

    ghost var put: seq<Line>      // every record that was accepted, in the order of the pushes
    ghost var built: seq<Record>  // every record ever allocated
    ghost var lost: set<Message>  // strings that log_puts copied and then lost

    /** A record is whole while it waits in the queue, and gone otherwise. */
    ghost predicate Accounted()
      reads this, built, set r | r in built :: r.message
    {
      && (forall i | 0 <= i < |waiting| :: waiting[i] in built && waiting[i].Whole())
      && (forall i, j | 0 <= i < j < |waiting| :: waiting[i] != waiting[j])
      && (forall r | r in built && r !in waiting :: r.Gone())
    }

    /** The same but for one record that has just left the queue. */
    ghost predicate AccountedBut(record: Record)
      reads this, built, set r | r in built :: r.message
    {
      && record in built && record !in waiting && record.Whole()
      && (forall i | 0 <= i < |waiting| :: waiting[i] in built && waiting[i].Whole())
      && (forall i, j | 0 <= i < j < |waiting| :: waiting[i] != waiting[j])
      && (forall r | r in built && r !in waiting && r != record :: r.Gone())
    }

    /** What the sinks were given, followed by what waits in the queue, is what was accepted. */
    ghost predicate Valid()
      reads this, built, set r | r in built :: r.message
    {
      Accounted() && InStep(lines, waiting, put)
    }

    ghost function Footprint(): set<object>
      reads this, built
    {
      {this} + (set r: Record | r in built) + set r: Record | r in built :: r.message
    }

    /** log_init. */
    constructor ()
      ensures Valid() && minSeverity == TRACE && fresh(Footprint())
      ensures lines == [] && put == [] && built == [] && lost == {}
    {
      minSeverity, waiting, lines := TRACE, [], [];
      put, built, lost := [], [], {};
    }

    /** log_set_min_severity. */
    method SetMinSeverity(severity: Severity)
      requires Valid()
      modifies this`minSeverity
      ensures Valid() && minSeverity == severity
    {
      minSeverity := severity;
    }

    /** log_push_record. A record that is refused stays the caller's. */
    method PushRecord(record: Record, lockFails: bool, noNode: bool) returns (code: int)
      requires Valid() && record.Whole() && record !in built
      modifies this`waiting, this`put, this`built
      ensures Valid()
      ensures code == if record.severity >= minSeverity && !lockFails && !noNode then 0 else -1
      ensures put == old(put) + if code == 0 then [LineOf(record)] else []
      ensures built == old(built) + if code == 0 then [record] else []
      ensures Footprint() <= old(Footprint()) + {record, record.message}
    {
      if minSeverity > record.severity {
        return -1;
      }
      if lockFails || noNode {
        return -1;
      }
      waiting := waiting + [record];
      put, built := put + [LineOf(record)], built + [record];
      return 0;
    }

    /** The part of log_printf, or of log_puts when the call is `copied`, that builds the record. They
        differ in what becomes of the string when there is no memory for the record. */
    method Build(call: Call) returns (record: Record?)
      modifies this`lost
      ensures record != null <==> Builds(call)
      ensures record != null ==> fresh(record) && fresh(record.message) && record.Whole()
                                 && LineOf(record) == Line(call.severity, call.text)
      ensures old(lost) <= lost && fresh(lost - old(lost))
      ensures lost != old(lost) <==> call.copied && !call.noMessage && call.noRecord
    {
      if call.noMessage {
        return null;
      }
      var message := new Message(call.text);
      if call.noRecord {
        if call.copied {
          lost := lost + {message};
        } else {
          message.Free();
        }
        return null;
      }
      record := new Record(call.severity, message);
    }

    /** The record was refused. */
    method Discard(record: Record)
      requires Valid() && record.Whole() && record !in built
      modifies this`built, record, record.message
      ensures Valid() && built == old(built) + [record]
    {
      record.Free();
      built := built + [record];
    }

    /** log_printf and log_puts: the line joins the queue exactly when both allocations, the filter and the
        push let it; a record is built exactly when both allocations do. */
    method Log(call: Call)
      requires Valid()
      modifies this`waiting, this`put, this`built, this`lost
      ensures Valid()
      ensures put == old(put) +
        if !call.noMessage && !call.noRecord && call.severity >= minSeverity && !call.lockFails && !call.noNode
        then [Line(call.severity, call.text)] else []
      ensures |built| == |old(built)| + if call.noMessage || call.noRecord then 0 else 1
      ensures fresh(Footprint() - old(Footprint()))
    {
      hide InStep;
      var record := Build(call);
      if record != null {
        var code := PushRecord(record, call.lockFails, call.noNode);
        if code != 0 {
          Discard(record);
        }
      }
    }

    /** output_sink_list_print: a sink reads the record, which must not be freed yet. */
    method Print(record: Record)
      requires record.Whole()
      modifies this`lines
      ensures lines == old(lines) + [LineOf(record)]
    {
      lines := lines + [LineOf(record)];
    }

    /** The record has been printed. */
    method Retire(record: Record)
      requires AccountedBut(record)
      modifies record, record.message
      ensures Accounted()
    {
      record.Free();
    }

    /** The pop of either draining loop. */
    method PopRecord() returns (record: Record)
      requires Valid() && waiting != []
      modifies this`waiting
      ensures AccountedBut(record) && InStep(lines + [LineOf(record)], waiting, put)
      ensures |lines| < |put| && LineOf(record) == put[|lines|]
    {
      record := waiting[0];
      assert put[|lines|] == LineOf(record) && record !in waiting[1..];
      waiting := waiting[1..];
    }

    /** One pass of either draining loop, with the record it takes out, if any: every sink is given
        it, then it is freed. */
    method TakeOne(refused: bool) returns (found: bool)
      requires Valid()
      modifies Footprint()
      ensures Valid() && Footprint() <= old(Footprint())
      ensures minSeverity == old(minSeverity) && put == old(put) && built == old(built) && lost == old(lost)
      ensures found <==> !refused && |old(lines)| < |put|
      ensures lines == if found then old(lines) + [put[|old(lines)|]] else old(lines)
    {
      if refused || waiting == [] {
        return false;
      }
      var record := PopRecord();
      Print(record);
      Retire(record);
      return true;
    }

    /** What other threads log between two steps of the drain. */
    method Traffic(calls: seq<Call>)
      requires Valid()
      modifies this`waiting, this`put, this`built, this`lost
      ensures Valid()
      ensures put == old(put) + Accepted(calls, 0, minSeverity) && |built| == |old(built)| + Building(calls, 0)
      ensures fresh(Footprint() - old(Footprint()))
    {
      hide Valid;
      var i := 0;
      while i < |calls|
        invariant 0 <= i <= |calls| && Valid()
        invariant put + Accepted(calls, i, minSeverity) == old(put) + Accepted(calls, 0, minSeverity)
        invariant |built| + Building(calls, i) == |old(built)| + Building(calls, 0)
        invariant fresh(Footprint() - old(Footprint()))
      {
        Regroup(put, AcceptedOf(calls[i], minSeverity), Accepted(calls, i + 1, minSeverity));
        Log(calls[i]);
        i := i + 1;
      }
    }

    /** One pass of either draining loop, after what others log before it. */
    method Pass(round: Round) returns (found: bool)
      requires Valid()
      modifies Footprint()
      ensures Valid() && minSeverity == old(minSeverity)
      ensures put == old(put) + Accepted(round.traffic, 0, minSeverity)
      ensures |built| == |old(built)| + Building(round.traffic, 0)
      ensures found <==> !round.refused && |old(lines)| < |put|
      ensures lines == if found then old(lines) + [put[|old(lines)|]] else old(lines)
      ensures fresh(Footprint() - old(Footprint()))
    {
      Traffic(round.traffic);
      found := TakeOne(round.refused);
    }

    /** After `n` rounds: what was accepted is `before` and what came in, and so for the records built. */
    ghost predicate Heeded(rounds: seq<Round>, n: nat, min: Severity, before: seq<Line>, count: nat)
      reads this, built, set r | r in built :: r.message
    {
      && Valid() && minSeverity == min && put == before + Heard(rounds, 0, n, min)
      && |built| == count + BuiltBefore(rounds, n)
    }

    /** One pass more. */
    method PassOn(rounds: seq<Round>, n: nat, ghost min: Severity, ghost before: seq<Line>, ghost count: nat)
      returns (found: bool)
      requires Heeded(rounds, n, min, before, count)
      modifies Footprint()
      ensures Heeded(rounds, n + 1, min, before, count)
      ensures found || lines == put || RoundAt(rounds, n).refused
      ensures found ==> |lines| <= |put|
      ensures found && n >= |rounds| ==> |put| - |lines| < |old(put)| - |old(lines)|
      ensures fresh(Footprint() - old(Footprint()))
    {
      HeardGrows(before, rounds, 0, n, min);
      assert BuiltBefore(rounds, n + 1) == BuiltBefore(rounds, n) + Building(RoundAt(rounds, n).traffic, 0);
      found := Pass(RoundAt(rounds, n));
    }

    /** The loop of log_process_some_dur: as many passes as fit before the deadline. */
    method ProcessSomeDur(rounds: seq<Round>)
      requires Valid()
      modifies Footprint()
      ensures Valid() && minSeverity == old(minSeverity)
      ensures put == old(put) + Heard(rounds, 0, |rounds|, minSeverity)
      ensures |built| == |old(built)| + BuiltBefore(rounds, |rounds|)
      ensures fresh(Footprint() - old(Footprint()))
    {
      ghost var min, before, count := minSeverity, put, |built|;
      for i := 0 to |rounds|
        invariant Heeded(rounds, i, min, before, count)
        invariant fresh(Footprint() - old(Footprint()))
      {
        var _ := PassOn(rounds, i, min, before, count);
      }
    }

    /** log_process_all: goes on until a pop yields NULL. */
    method ProcessAll(rounds: seq<Round>) returns (passes: nat)
      requires Valid()
      modifies Footprint()
      ensures Valid() && minSeverity == old(minSeverity)
      ensures passes > 0 && put == old(put) + Heard(rounds, 0, passes, minSeverity)
      ensures |built| == |old(built)| + BuiltBefore(rounds, passes)
      ensures lines == put || RoundAt(rounds, passes - 1).refused
      ensures fresh(Footprint() - old(Footprint()))
    {
      hide Valid, RoundAt;
      ghost var min, before, count := minSeverity, put, |built|;
      passes := 0;
      var found := true;
      while found
        invariant Heeded(rounds, passes, min, before, count)
        invariant passes == 0 ==> found
        invariant !found ==> lines == put || RoundAt(rounds, passes - 1).refused
        invariant fresh(Footprint() - old(Footprint()))
        decreases found, if passes < |rounds| then |rounds| - passes else 0, |put| - |lines|
      {
        found := PassOn(rounds, passes, min, before, count);
        passes := passes + 1;
      }
    }

    /** log_destroy: the deleter frees what is left, and nothing of it is printed. */
    method Destroy()
      requires Valid()
      modifies this`waiting, built, set r | r in built :: r.message
      ensures waiting == []
      ensures forall r | r in built :: r.Gone()
    {
      FreeAll(waiting);
      waiting := [];
    }

    /** log_record_deleter on each of the values left. */
    static method FreeAll(left: seq<Record>)
      requires forall r | r in left :: r.Whole()
      requires forall i, j | 0 <= i < j < |left| :: left[i] != left[j]
      modifies left, set r | r in left :: r.message
      ensures forall r | r in left :: r.Gone()
    {
      var i := 0;
      while i < |left|
        invariant 0 <= i <= |left|
        invariant forall k | 0 <= k < |left| :: if k < i then left[k].Gone() else left[k].Whole()
      {
        left[i].Free();
        i := i + 1;
      }
    }
  }

  /** main sets the log up and its severity; then threads log. */
  method SetUp(min: Severity, first: seq<Call>) returns (context: LogContext)
    ensures context.Valid() && fresh(context.Footprint()) && context.minSeverity == min
    ensures context.put == Accepted(first, 0, min) && |context.built| == Building(first, 0)
  {
    context := new LogContext();
    context.SetMinSeverity(min);
    ghost var all := Accepted(first, 0, min);
    assert [] + all == all;
    context.Traffic(first);
  }

  /** Up to the end of the logger's cleanup: its frames drain for a while each, its cleanup drains what
      is there. */
  method Work(min: Severity, first: seq<Call>, rounds: seq<Round>, last: seq<Round>)
    returns (context: LogContext, passes: nat)
    ensures context.Valid() && fresh(context.Footprint()) && context.minSeverity == min && passes > 0
    ensures context.put == Accepted(first, 0, min) + Heard(rounds, 0, |rounds|, min) + Heard(last, 0, passes, min)
    ensures |context.built| == Building(first, 0) + BuiltBefore(rounds, |rounds|) + BuiltBefore(last, passes)
    ensures context.lines == context.put || (passes <= |last| && last[passes - 1].refused)
  {
    hide LogContext.Valid, Heard, BuiltBefore, Accepted, Building;
    context := SetUp(min, first);
    context.ProcessSomeDur(rounds);
    passes := context.ProcessAll(last);
    GivenRound(last, passes - 1);
  }

  /** A whole run of the logger; threads may still log after its cleanup, then the log is destroyed.
      What was printed is a prefix of what was accepted, in that order, and all that came before the
      end of a cleanup whose last pop met an empty queue; and every record ever built has been freed,
      once, together with its message. */
  method Session(min: Severity, first: seq<Call>, rounds: seq<Round>, last: seq<Round>, late: seq<Call>)
    returns (context: LogContext, passes: nat, ghost inTime: seq<Line>)
    ensures passes > 0
    ensures inTime == Accepted(first, 0, min) + Heard(rounds, 0, |rounds|, min) + Heard(last, 0, passes, min)
    ensures context.put == inTime + Accepted(late, 0, min)
    ensures context.lines <= context.put
    ensures context.lines == inTime || (passes <= |last| && last[passes - 1].refused)
    ensures |context.built|
         == Building(first, 0) + BuiltBefore(rounds, |rounds|) + BuiltBefore(last, passes) + Building(late, 0)
    ensures context.waiting == [] && forall r | r in context.built :: r.Gone()
  {
    context, passes := Work(min, first, rounds, last);
    inTime := context.put;
    context.Traffic(late);
    context.Destroy();
  }
}
