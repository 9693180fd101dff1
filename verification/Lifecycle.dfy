/** main.c and execution_frame.c: the execution flag, one watchdog flag and one frame per worker,
    the watchdog loop of the main thread, and join before destroy. */
module Lifecycle {

  const WORKERS := 4

  /** Where a worker stands in execution_frame; `Ended` carries its return value. */
  datatype Worker =
    | NotStarted
    | Initialising      // in frame.init
    | InitFailed        // about to store false into the execution flag
    | Checking          // about to load the execution flag
    | Reporting         // about to store true into its watchdog flag
    | Looping           // in frame.loop
    | CleaningUp        // in frame.cleanup
    | Ended(code: int)

  datatype Main =
    | Spawning(i: nat)
    | Testing           // about to load the execution flag
    | Sleeping
    | Exchanging(i: nat)
    | Terminating       // a flag was down: about to store false into the execution flag
    | Joining(i: nat)
    | Destroying(i: nat)
    | Exited

  datatype State = State(flag: bool, dogs: seq<bool>, workers: seq<Worker>, main: Main)

  datatype Step =
    | Interrupted                      // signal_handler
    | Spawn
    | InitDone(i: nat, ok: bool)
    | GiveUp(i: nat)
    | Check(i: nat)
    | Report(i: nat)                   // starts a frame iteration
    | LoopDone(i: nat, broke: bool)
    | CleanUp(i: nat)
    | Test
    | Wake
    | Exchange(i: nat, seen: bool)
    | Terminate
    | Join
    | Destroy

  predicate Wf(s: State) {
    && |s.dogs| == WORKERS && |s.workers| == WORKERS
    && (s.main.Spawning? || s.main.Exchanging? || s.main.Joining? ==> s.main.i < WORKERS)
    && (s.main.Destroying? ==> s.main.i < 3)
  }

  /** The watchdog flags start with whatever the stack held. */
  predicate Initial(s: State) {
    Wf(s) && s.flag && s.main == Spawning(0) && forall i | 0 <= i < WORKERS :: s.workers[i] == NotStarted
  }

  predicate Enabled(s: State, step: Step)
    requires Wf(s)
  {
    match step
    case Interrupted => !s.main.Exited?
    case Spawn => s.main.Spawning?
    case InitDone(i, _) => i < WORKERS && s.workers[i].Initialising?
    case GiveUp(i) => i < WORKERS && s.workers[i].InitFailed?
    case Check(i) => i < WORKERS && s.workers[i].Checking?
    case Report(i) => i < WORKERS && s.workers[i].Reporting?
    case LoopDone(i, _) => i < WORKERS && s.workers[i].Looping?
    case CleanUp(i) => i < WORKERS && s.workers[i].CleaningUp?
    case Test => s.main.Testing?
    case Wake => s.main.Sleeping?
    case Exchange(i, seen) => s.main == Exchanging(i) && seen == s.dogs[i]
    case Terminate => s.main.Terminating?
    case Join => s.main.Joining? && s.workers[s.main.i].Ended?
    case Destroy => s.main.Destroying?
  }

  function SetWorker(s: State, i: nat, w: Worker): State
    requires Wf(s) && i < WORKERS
  {
    s.(workers := s.workers[i := w])
  }

  function Apply(s: State, step: Step): (s': State)
    requires Wf(s) && Enabled(s, step)
    ensures Wf(s')
  {
    match step
    case Interrupted => s.(flag := false)
    case Spawn =>
      var i := s.main.i;
      SetWorker(s, i, if s.workers[i].NotStarted? then Initialising else s.workers[i])
        .(main := if i + 1 < WORKERS then Spawning(i + 1) else Testing)
    case InitDone(i, ok) => SetWorker(s, i, if ok then Checking else InitFailed)
    case GiveUp(i) => SetWorker(s, i, Ended(-1)).(flag := false)
    case Check(i) => SetWorker(s, i, if s.flag then Reporting else CleaningUp)
    case Report(i) => SetWorker(s, i, Looping).(dogs := s.dogs[i := true])
    case LoopDone(i, broke) => SetWorker(s, i, if broke then CleaningUp else Checking)
    case CleanUp(i) => SetWorker(s, i, Ended(0))
    case Test => s.(main := if s.flag then Sleeping else Joining(0))
    case Wake => s.(main := Exchanging(0))
    case Exchange(i, seen) =>
      s.(dogs := s.dogs[i := false],
         main := if !seen then Terminating else if i + 1 < WORKERS then Exchanging(i + 1) else Testing)
    case Terminate => s.(flag := false, main := Testing)
    case Join => s.(main := if s.main.i + 1 < WORKERS then Joining(s.main.i + 1) else Destroying(0))
    case Destroy => s.(main := if s.main.i < 2 then Destroying(s.main.i + 1) else Exited)
  }

  predicate Runs(s: State, steps: seq<Step>)
    requires Wf(s)
    decreases |steps|
  {
    steps == [] || (Enabled(s, steps[0]) && Runs(Apply(s, steps[0]), steps[1..]))
  }

  function After(s: State, steps: seq<Step>): (s': State)
    requires Wf(s) && Runs(s, steps)
    ensures Wf(s')
    decreases |steps|
  {
    if steps == [] then s else After(Apply(s, steps[0]), steps[1..])
  }

  function Count(steps: seq<Step>, step: Step): nat {
    if steps == [] then 0 else (if steps[0] == step then 1 else 0) + Count(steps[1..], step)
  }

  // ---------- cutting a run ----------

  lemma {:induction false} Cut(s: State, steps: seq<Step>, k: nat)
    requires Wf(s) && Runs(s, steps) && k <= |steps|
    ensures Runs(s, steps[..k])
    ensures var mid := After(s, steps[..k]); Runs(mid, steps[k..]) && After(mid, steps[k..]) == After(s, steps)
    decreases k
  {
    if k == 0 {
      assert steps[0..] == steps;
    } else {
      Cut(Apply(s, steps[0]), steps[1..], k - 1);
      assert steps[1..][..k - 1] == steps[..k][1..];
      assert steps[1..][k - 1..] == steps[k..];
    }
  }

  /** The step at position `k` of a run, and the two runs around it. */
  lemma CutAt(s: State, steps: seq<Step>, k: nat) returns (before: State, after: State)
    requires Wf(s) && Runs(s, steps) && k < |steps|
    ensures Runs(s, steps[..k]) && before == After(s, steps[..k])
    ensures Enabled(before, steps[k]) && after == Apply(before, steps[k])
    ensures Runs(after, steps[k + 1..]) && After(after, steps[k + 1..]) == After(s, steps)
  {
    Cut(s, steps, k);
    before := After(s, steps[..k]);
    assert steps[k..][0] == steps[k] && steps[k..][1..] == steps[k + 1..];
    after := Apply(before, steps[k]);
  }

  // ---------- the execution flag ----------

  /** The execution flag never comes up again, and a worker starts at most one more frame
      iteration after it went down: only the one it had already decided on. */
  lemma {:induction false} FlagIsOneWay(s: State, steps: seq<Step>, i: nat)
    requires Wf(s) && !s.flag && Runs(s, steps) && i < WORKERS
    ensures !After(s, steps).flag
    ensures Count(steps, Report(i)) <= if s.workers[i].Reporting? then 1 else 0
    decreases |steps|
  {
    if steps == [] {
    } else {
      FlagIsOneWay(Apply(s, steps[0]), steps[1..], i);
    }
  }

  // ---------- init and cleanup ----------

  predicate Initialised(w: Worker) {
    w.Checking? || w.Reporting? || w.Looping? || w.CleaningUp? || w == Ended(0)
  }

  predicate Failed(w: Worker) {
    w.InitFailed? || w == Ended(-1)
  }

  predicate CodesOk(s: State)
    requires Wf(s)
  {
    forall i | 0 <= i < WORKERS && s.workers[i].Ended? :: s.workers[i].code in {0, -1}
  }

  /** Along a run a worker passes a successful frame.init as its phase says. */
  lemma {:induction false} InitCount(s: State, steps: seq<Step>, i: nat)
    requires Wf(s) && Runs(s, steps) && i < WORKERS && CodesOk(s)
    ensures
      var w := s.workers[i];
      var w' := After(s, steps).workers[i];
      && CodesOk(After(s, steps))
      && (Initialised(w) ==> Initialised(w'))
      && Count(steps, InitDone(i, true)) == if Initialised(w') && !Initialised(w) then 1 else 0
    decreases |steps|
  {
    if steps == [] {
    } else {
      InitCount(Apply(s, steps[0]), steps[1..], i);
    }
  }

  /** Along a run a worker passes a failed frame.init as its phase says. */
  lemma {:induction false} FailedInitCount(s: State, steps: seq<Step>, i: nat)
    requires Wf(s) && Runs(s, steps) && i < WORKERS && CodesOk(s)
    ensures
      var w := s.workers[i];
      var w' := After(s, steps).workers[i];
      && CodesOk(After(s, steps))
      && (Failed(w) ==> Failed(w'))
      && Count(steps, InitDone(i, false)) == if Failed(w') && !Failed(w) then 1 else 0
    decreases |steps|
  {
    if steps == [] {
    } else {
      FailedInitCount(Apply(s, steps[0]), steps[1..], i);
    }
  }

  /** Along a run a worker passes frame.cleanup as its phase says. */
  lemma {:induction false} CleanupCount(s: State, steps: seq<Step>, i: nat)
    requires Wf(s) && Runs(s, steps) && i < WORKERS && CodesOk(s)
    ensures
      var w := s.workers[i];
      var w' := After(s, steps).workers[i];
      && CodesOk(After(s, steps))
      && (w == Ended(0) ==> w' == Ended(0))
      && Count(steps, CleanUp(i)) == if w' == Ended(0) && w != Ended(0) then 1 else 0
    decreases |steps|
  {
    if steps == [] {
    } else {
      CleanupCount(Apply(s, steps[0]), steps[1..], i);
    }
  }

  ghost predicate Spawned(s: State)
    requires Wf(s)
  {
    && (s.main.Spawning? ==> forall i | 0 <= i < WORKERS :: s.workers[i].NotStarted? <==> s.main.i <= i)
    && (!s.main.Spawning? ==> forall i | 0 <= i < WORKERS :: !s.workers[i].NotStarted?)
  }

  ghost predicate Joined(s: State)
    requires Wf(s)
  {
    && (s.main.Joining? || s.main.Destroying? || s.main.Exited? ==> !s.flag)
    && (s.main.Joining? ==> forall i | 0 <= i < s.main.i :: s.workers[i].Ended?)
    && (s.main.Destroying? || s.main.Exited? ==> forall i | 0 <= i < WORKERS :: s.workers[i].Ended?)
  }

  ghost predicate ShutdownInv(s: State)
    requires Wf(s)
  {
    CodesOk(s) && Spawned(s) && Joined(s)
  }

  lemma SpawnedStep(s: State, step: Step)
    requires Wf(s) && Spawned(s) && Enabled(s, step)
    ensures Spawned(Apply(s, step))
  {
  }

  lemma JoinedStep(s: State, step: Step)
    requires Wf(s) && Joined(s) && Enabled(s, step)
    ensures Joined(Apply(s, step))
  {
  }

  lemma ShutdownInvStep(s: State, step: Step)
    requires Wf(s) && ShutdownInv(s) && Enabled(s, step)
    ensures ShutdownInv(Apply(s, step))
  {
    SpawnedStep(s, step);
    JoinedStep(s, step);
  }

  lemma {:induction false} ShutdownInvAlong(s: State, steps: seq<Step>)
    requires Wf(s) && ShutdownInv(s) && Runs(s, steps)
    ensures ShutdownInv(After(s, steps))
    decreases |steps|
  {
    if steps == [] {
    } else {
      ShutdownInvStep(s, steps[0]);
      ShutdownInvAlong(Apply(s, steps[0]), steps[1..]);
    }
  }

  /** Once main starts to destroy, the flag is down, every worker has ended, and each has run
      frame.cleanup exactly once if its frame.init succeeded and never if it failed. */
  lemma {:induction false} CleanupMatchesInit(s: State, steps: seq<Step>, i: nat)
    requires Initial(s) && Runs(s, steps) && i < WORKERS
    ensures
      var s' := After(s, steps);
      && Count(steps, CleanUp(i)) <= Count(steps, InitDone(i, true)) <= 1
      && (s'.main.Destroying? || s'.main.Exited? ==>
            && !s'.flag && s'.workers[i].Ended?
            && Count(steps, CleanUp(i)) == Count(steps, InitDone(i, true))
            && Count(steps, InitDone(i, true)) + Count(steps, InitDone(i, false)) == 1)
  {
    ShutdownInvAlong(s, steps);
    InitCount(s, steps, i);
    FailedInitCount(s, steps, i);
    CleanupCount(s, steps, i);
  }

  // ---------- the watchdog ----------

  lemma {:induction false} DogStaysDown(s: State, steps: seq<Step>, i: nat)
    requires Wf(s) && Runs(s, steps) && i < WORKERS && !s.dogs[i] && Report(i) !in steps
    ensures !After(s, steps).dogs[i]
    decreases |steps|
  {
    if steps == [] {
    } else {
      DogStaysDown(Apply(s, steps[0]), steps[1..], i);
    }
  }

  /** A watchdog flag found up was stored since it was last exchanged, whatever it started with. */
  lemma FoundUpMeansReported(s: State, steps: seq<Step>, i: nat, k: nat, j: nat) returns (m: nat)
    requires Wf(s) && Runs(s, steps) && i < WORKERS && k < j < |steps|
    requires steps[k].Exchange? && steps[k].i == i && steps[j] == Exchange(i, true)
    ensures k < m < j && steps[m] == Report(i)
  {
    var before, after := CutAt(s, steps, k);
    var rest := steps[k + 1..];
    var at, _ := CutAt(after, rest, j - k - 1);
    var between := rest[..j - k - 1];
    assert rest[j - k - 1] == steps[j];
    if Report(i) !in between {
      DogStaysDown(after, between, i);
      assert false;
    }
    var p :| 0 <= p < |between| && between[p] == Report(i);
    m := k + 1 + p;
  }

  predicate BeyondExchange(main: Main, i: nat) {
    main.Exchanging? && main.i > i
  }

  /** A check gets past worker `i` only by finding its flag up; `b` is the first time that happens. */
  lemma {:induction false} PastOnlyIfUp(s: State, steps: seq<Step>, i: nat) returns (b: nat)
    requires Wf(s) && Runs(s, steps) && i < WORKERS
    requires !BeyondExchange(s.main, i) && BeyondExchange(After(s, steps).main, i)
    ensures b < |steps| && steps[b] == Exchange(i, true)
    ensures forall k | 0 <= k < b :: steps[k] != Exchange(i, true)
    decreases |steps|
  {
    if steps[0] == Exchange(i, true) {
      b := 0;
    } else {
      var c := PastOnlyIfUp(Apply(s, steps[0]), steps[1..], i);
      b := c + 1;
      forall k | 0 <= k < b ensures steps[k] != Exchange(i, true) {
        assert k > 0 ==> steps[k] == steps[1..][k - 1];
      }
    }
  }

  /** An exchange that finds a flag down is the last exchange of all. */
  lemma {:induction false} FoundDownIsLast(s: State, steps: seq<Step>, k: nat, j: nat)
    requires Wf(s) && Runs(s, steps) && k < j < |steps| && steps[k].Exchange? && steps[j].Exchange?
    ensures steps[k].seen
  {
    if !steps[k].seen {
      var _, after := CutAt(s, steps, k);
      assert steps[j] == steps[k + 1..][j - k - 1];
      FailedCheckIsLast(after, steps[k + 1..]);
      assert false;
    }
  }

  predicate Exchanges(step: Step, i: nat) {
    step.Exchange? && step.i == i
  }

  /** The last exchange of flag `i` before position `n`, there being one at `w`. */
  lemma {:induction false} LastExchange(steps: seq<Step>, i: nat, w: nat, n: nat) returns (a: nat)
    requires w < n <= |steps| && Exchanges(steps[w], i)
    ensures w <= a < n && Exchanges(steps[a], i)
    ensures forall k | a < k < n :: !Exchanges(steps[k], i)
  {
    if Exchanges(steps[n - 1], i) {
      a := n - 1;
    } else {
      a := LastExchange(steps, i, w, n - 1);
    }
  }

  /** Main stands before the exchange of the last flag whenever it executes it. */
  lemma {:induction false} BeforeLast(s: State, steps: seq<Step>, p: nat, i: nat)
    requires Wf(s) && Runs(s, steps) && p < |steps| && Exchanges(steps[p], WORKERS - 1) && i < WORKERS - 1
    ensures Runs(s, steps[..p]) && BeyondExchange(After(s, steps[..p]).main, i)
  {
    var _, _ := CutAt(s, steps, p);
  }

  lemma AfterLast(s: State, steps: seq<Step>, p: nat, i: nat) returns (after: State)
    requires Wf(s) && Runs(s, steps) && p < |steps| && Exchanges(steps[p], WORKERS - 1)
    ensures Wf(after) && Runs(after, steps[p + 1..]) && !BeyondExchange(after.main, i)
  {
    var before, state := CutAt(s, steps, p);
    after := state;
  }

  /** Where the check that ends at `j`, after the one that ended at `p`, exchanges flag `i`. */
  lemma ExchangedSince(s: State, steps: seq<Step>, p: nat, j: nat, i: nat) returns (b: nat)
    requires Wf(s) && Runs(s, steps) && i < WORKERS - 1 && p < j < |steps|
    requires Exchanges(steps[p], WORKERS - 1) && steps[j] == Exchange(WORKERS - 1, true)
    ensures p < b < j && steps[b] == Exchange(i, true)
    ensures forall k | p < k < b :: !Exchanges(steps[k], i)
  {
    var rest := steps[p + 1..];
    var after := AfterLast(s, steps, p, i);
    assert rest[j - p - 1] == steps[j];
    BeforeLast(after, rest, j - p - 1, i);
    var q := PastOnlyIfUp(after, rest[..j - p - 1], i);
    b := p + 1 + q;
    forall k | p < k < b ensures !Exchanges(steps[k], i) {
      assert steps[k] == rest[..j - p - 1][k - p - 1];
      if steps[k] == Exchange(i, false) {
        FoundDownIsLast(s, steps, k, j);
      }
    }
  }

  /** Any check but the first: if it passes, each worker stored its flag since that flag's previous
      exchange. The check before ended at position `p`, this one at `j`; it exchanges flag `i` at `b`,
      the exchange before that is at `a`, and the store between the two at `m`. */
  lemma PassedCheckMeansAllReported(s: State, steps: seq<Step>, p: nat, j: nat, i: nat)
    returns (a: nat, m: nat, b: nat)
    requires Initial(s) && Runs(s, steps) && i < WORKERS && p < j < |steps|
    requires Exchanges(steps[p], WORKERS - 1) && steps[j] == Exchange(WORKERS - 1, true)
    requires forall k | p < k < j :: !Exchanges(steps[k], WORKERS - 1)
    ensures a <= p < b <= j && a < m < b
    ensures Exchanges(steps[a], i) && steps[b] == Exchange(i, true) && steps[m] == Report(i)
    ensures forall k | a < k < b :: !Exchanges(steps[k], i)
  {
    if i == WORKERS - 1 {
      a, b := p, j;
    } else {
      BeforeLast(s, steps, p, i);
      var w := PastOnlyIfUp(s, steps[..p], i);
      b := ExchangedSince(s, steps, p, j, i);
      a := LastExchange(steps, i, w, b);
    }
    m := FoundUpMeansReported(s, steps, i, a, b);
  }

  predicate HasLeft(w: Worker) {
    w.InitFailed? || w.CleaningUp? || w.Ended?
  }

  lemma {:induction false} LeftStaysLeft(s: State, steps: seq<Step>, i: nat)
    requires Wf(s) && Runs(s, steps) && i < WORKERS && HasLeft(s.workers[i])
    ensures HasLeft(After(s, steps).workers[i]) && Report(i) !in steps
    decreases |steps|
  {
    if steps == [] {
    } else {
      LeftStaysLeft(Apply(s, steps[0]), steps[1..], i);
    }
  }

  predicate WindingDown(s: State) {
    s.main.Terminating? || (!s.flag && (s.main.Testing? || s.main.Joining? || s.main.Destroying? || s.main.Exited?))
  }

  /** After a failed check there is never another one. */
  lemma {:induction false} FailedCheckIsLast(s: State, steps: seq<Step>)
    requires Wf(s) && Runs(s, steps) && WindingDown(s)
    ensures WindingDown(After(s, steps))
    ensures forall k | 0 <= k < |steps| :: !steps[k].Exchange? && !steps[k].Wake?
    decreases |steps|
  {
    if steps == [] {
    } else {
      FailedCheckIsLast(Apply(s, steps[0]), steps[1..]);
      forall k | 0 <= k < |steps| ensures !steps[k].Exchange? && !steps[k].Wake? {
        assert k > 0 ==> steps[k] == steps[1..][k - 1];
      }
    }
  }

  /** The bound: once a worker has left its loop, its flag is found up at most once more, whatever
      the flags started with; the exchange after that fails the check, and then main only winds
      down, with the execution flag down from the moment it tests it. */
  lemma {:induction false} LeftWorkerEndsTheRun(s: State, steps: seq<Step>, i: nat, a: nat, b: nat)
    requires Wf(s) && Runs(s, steps) && i < WORKERS && HasLeft(s.workers[i])
    requires a < b < |steps| && steps[a].Exchange? && steps[a].i == i && steps[b].Exchange? && steps[b].i == i
    ensures steps[a].seen && !steps[b].seen
    ensures forall k | b < k < |steps| :: !steps[k].Exchange? && !steps[k].Wake?
    ensures WindingDown(After(s, steps))
  {
    LeftStaysLeft(s, steps, i);
    if steps[b].seen {
      var m := FoundUpMeansReported(s, steps, i, a, b);
      assert false;
    }
    var _, afterB := CutAt(s, steps, b);
    FailedCheckIsLast(afterB, steps[b + 1..]);
    forall k | b < k < |steps| ensures !steps[k].Exchange? && !steps[k].Wake? {
      assert steps[k] == steps[b + 1..][k - b - 1];
    }
    FoundDownIsLast(s, steps, a, b);
  }
}
