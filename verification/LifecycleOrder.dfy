/** In which order main and the workers do things, told from the steps of a run alone: what each thread does
    next, what brings the execution flag down, and when a watchdog flag is found up. */
module LifecycleOrder {
  import opened Lifecycle

  predicate OfWorker(step: Step, i: nat) {
    match step
    case InitDone(j, _) => i == j
    case GiveUp(j) => i == j
    case Check(j) => i == j
    case Report(j) => i == j
    case LoopDone(j, _) => i == j
    case CleanUp(j) => i == j
    case _ => false
  }

  predicate OfMain(step: Step) {
    step.Spawn? || step.Test? || step.Wake? || step.Exchange? || step.Terminate? || step.Join? || step.Destroy?
  }

  /** A signal, a failed frame.init, or a failed check. */
  predicate Lowers(step: Step) {
    step.Interrupted? || step.GiveUp? || step.Terminate?
  }

  predicate SomeLowers(steps: seq<Step>) {
    exists k | 0 <= k < |steps| :: Lowers(steps[k])
  }

  // ---------- the execution flag ----------

  lemma SomeFirstOrLater(steps: seq<Step>)
    requires steps != []
    ensures SomeLowers(steps) <==> Lowers(steps[0]) || SomeLowers(steps[1..])
  {
    forall k | 0 < k < |steps| ensures steps[k] == steps[1..][k - 1] {
    }
  }

  /** The execution flag is down exactly if it was down before or something in the run lowers it. */
  lemma {:induction false} FlagDownIff(s: State, steps: seq<Step>)
    requires Wf(s) && Runs(s, steps)
    ensures !After(s, steps).flag <==> !s.flag || SomeLowers(steps)
    decreases |steps|
  {
    if steps == [] {
    } else {
      SomeFirstOrLater(steps);
      FlagDownIff(Apply(s, steps[0]), steps[1..]);
    }
  }

  // ---------- what comes next ----------

  /** Two steps of a run, with the states around them and the run between them. */
  lemma CutTwice(s: State, steps: seq<Step>, k: nat, m: nat) returns (before: State, after: State, at: State)
    requires Wf(s) && Runs(s, steps) && k < m < |steps|
    ensures Runs(s, steps[..k]) && before == After(s, steps[..k])
    ensures Enabled(before, steps[k]) && after == Apply(before, steps[k])
    ensures Runs(after, steps[k + 1..m]) && at == After(after, steps[k + 1..m]) && Enabled(at, steps[m])
  {
    before, after := CutAt(s, steps, k);
    var rest := steps[k + 1..];
    var here, _ := CutAt(after, rest, m - k - 1);
    assert rest[..m - k - 1] == steps[k + 1..m] && rest[m - k - 1] == steps[m];
    at := here;
  }

  lemma {:induction false} WorkerWaits(s: State, steps: seq<Step>, i: nat)
    requires Wf(s) && Runs(s, steps) && i < WORKERS && !s.workers[i].NotStarted?
    requires forall k | 0 <= k < |steps| :: !OfWorker(steps[k], i)
    ensures After(s, steps).workers[i] == s.workers[i]
    decreases |steps|
  {
    if steps == [] {
    } else {
      assert !OfWorker(steps[0], i);
      forall k | 0 <= k < |steps[1..]| ensures !OfWorker(steps[1..][k], i) {
        assert steps[1..][k] == steps[k + 1];
      }
      WorkerWaits(Apply(s, steps[0]), steps[1..], i);
    }
  }

  /** What a worker does after one of its steps; `down` says whether the flag was down then. */
  predicate WorkerFollows(step: Step, down: bool, next: Step, i: nat) {
    match step
    case InitDone(_, ok) => next == if ok then Check(i) else GiveUp(i)
    case Check(_) => next == if down then CleanUp(i) else Report(i)
    case Report(_) => next.LoopDone? && next.i == i
    case LoopDone(_, broke) => next == if broke then CleanUp(i) else Check(i)
    case _ => false
  }

  /** Two steps of a worker with none of its own in between. An iteration that returned 0 leads back to the
      flag test, any other to cleanup; the test goes on to an iteration exactly if nothing had lowered the
      flag before it; a failed init leads to giving up; and nothing comes after that or after cleanup. */
  lemma {:induction false} NextOfWorker(s: State, steps: seq<Step>, i: nat, k: nat, m: nat)
    requires Wf(s) && Runs(s, steps) && i < WORKERS && k < m < |steps|
    requires OfWorker(steps[k], i) && OfWorker(steps[m], i)
    requires forall j | k < j < m :: !OfWorker(steps[j], i)
    ensures WorkerFollows(steps[k], !s.flag || SomeLowers(steps[..k]), steps[m], i)
  {
    var before, after, at := CutTwice(s, steps, k, m);
    FlagDownIff(s, steps[..k]);
    WorkerWaits(after, steps[k + 1..m], i);
  }

  lemma {:induction false} MainWaits(s: State, steps: seq<Step>)
    requires Wf(s) && Runs(s, steps) && forall k | 0 <= k < |steps| :: !OfMain(steps[k])
    ensures After(s, steps).main == s.main
    decreases |steps|
  {
    if steps == [] {
    } else {
      assert !OfMain(steps[0]);
      forall k | 0 <= k < |steps[1..]| ensures !OfMain(steps[1..][k]) {
        assert steps[1..][k] == steps[k + 1];
      }
      MainWaits(Apply(s, steps[0]), steps[1..]);
    }
  }

  /** What main does after one of its steps; `down` says whether the flag was down then, and `done` how many
      steps of that kind there were, this one included. */
  predicate MainFollows(step: Step, down: bool, done: nat, next: Step) {
    match step
    case Spawn => next == if done < WORKERS then Spawn else Test
    case Test => next == if down then Join else Wake
    case Wake => Exchanges(next, 0)
    case Exchange(i, seen) =>
      if !seen then next == Terminate else if i + 1 < WORKERS then Exchanges(next, i + 1) else next == Test
    case Terminate => next == Test
    case Join => next == if done < WORKERS then Join else Destroy
    case Destroy => next == Destroy && done < 3
    case _ => false
  }

  // How many workers main has started and joined, and how many queues it has destroyed.

  function Started(main: Main): nat { if main.Spawning? then main.i else WORKERS }

  function JoinedBy(main: Main): nat {
    if main.Joining? then main.i else if main.Destroying? || main.Exited? then WORKERS else 0
  }

  function DestroyedBy(main: Main): nat {
    if main.Destroying? then main.i else if main.Exited? then 3 else 0
  }

  lemma {:induction false} StartedAlong(s: State, steps: seq<Step>)
    requires Wf(s) && Runs(s, steps)
    ensures Count(steps, Spawn) + Started(s.main) == Started(After(s, steps).main)
    decreases |steps|
  {
    if steps == [] {
    } else {
      StartedAlong(Apply(s, steps[0]), steps[1..]);
    }
  }

  lemma {:induction false} JoinedAlong(s: State, steps: seq<Step>)
    requires Wf(s) && Runs(s, steps)
    ensures Count(steps, Join) + JoinedBy(s.main) == JoinedBy(After(s, steps).main)
    decreases |steps|
  {
    if steps == [] {
    } else {
      JoinedAlong(Apply(s, steps[0]), steps[1..]);
    }
  }

  lemma {:induction false} DestroyedAlong(s: State, steps: seq<Step>)
    requires Wf(s) && Runs(s, steps)
    ensures Count(steps, Destroy) + DestroyedBy(s.main) == DestroyedBy(After(s, steps).main)
    decreases |steps|
  {
    if steps == [] {
    } else {
      DestroyedAlong(Apply(s, steps[0]), steps[1..]);
    }
  }

  lemma {:induction false} MainCounts(s: State, steps: seq<Step>)
    requires Initial(s) && Runs(s, steps)
    ensures
      var main := After(s, steps).main;
      && Count(steps, Spawn) == Started(main) && Count(steps, Join) == JoinedBy(main)
      && Count(steps, Destroy) == DestroyedBy(main)
  {
    StartedAlong(s, steps);
    JoinedAlong(s, steps);
    DestroyedAlong(s, steps);
  }

  /** Up to and with step `k`, main has done so many of its kind. */
  lemma {:induction false} CountsAt(s: State, steps: seq<Step>, k: nat) returns (before: State, after: State)
    requires Initial(s) && Runs(s, steps) && k < |steps|
    ensures Runs(s, steps[..k]) && before == After(s, steps[..k])
    ensures Enabled(before, steps[k]) && after == Apply(before, steps[k])
    ensures Count(steps[..k + 1], Spawn) == Started(after.main) && Count(steps[..k + 1], Join) == JoinedBy(after.main)
    ensures Count(steps[..k + 1], Destroy) == DestroyedBy(after.main)
  {
    Cut(s, steps, k + 1);
    before, after := CutAt(s, steps[..k + 1], k);
    assert steps[..k + 1][..k] == steps[..k] && steps[..k + 1][k + 1..] == [];
    MainCounts(s, steps[..k + 1]);
  }

  lemma MainGoesOn(before: State, step: Step, at: State, next: Step, done: nat)
    requires Wf(before) && Enabled(before, step) && OfMain(step)
    requires Wf(at) && at.main == Apply(before, step).main && Enabled(at, next) && OfMain(next)
    requires step.Spawn? ==> done == Started(at.main)
    requires step.Join? ==> done == JoinedBy(at.main)
    requires step.Destroy? ==> done == DestroyedBy(at.main)
    ensures MainFollows(step, !before.flag, done, next)
  {
  }

  /** Two steps of main with none of its own in between. Four workers are started; while nothing lowers the
      flag, main sleeps and exchanges flag after flag; a flag found down leads to the store of false, a
      check passed to the next test; once the flag is found down the four are joined, and three queues
      destroyed. */
  lemma {:induction false} NextOfMain(s: State, steps: seq<Step>, k: nat, m: nat)
    requires Initial(s) && Runs(s, steps) && k < m < |steps| && OfMain(steps[k]) && OfMain(steps[m])
    requires forall j | k < j < m :: !OfMain(steps[j])
    ensures MainFollows(steps[k], SomeLowers(steps[..k]), Count(steps[..k + 1], steps[k]), steps[m])
  {
    var before, after, at := CutTwice(s, steps, k, m);
    FlagDownIff(s, steps[..k]);
    var _, _ := CountsAt(s, steps, k);
    MainWaits(after, steps[k + 1..m]);
    MainGoesOn(before, steps[k], at, steps[m], Count(steps[..k + 1], steps[k]));
  }

  /** Main exits after as many. */
  lemma {:induction false} ExitMeansAllDone(s: State, steps: seq<Step>)
    requires Initial(s) && Runs(s, steps)
    ensures After(s, steps).main.Exited? <==> Count(steps, Destroy) == 3
    ensures After(s, steps).main.Exited? ==> Count(steps, Spawn) == WORKERS && Count(steps, Join) == WORKERS
  {
    MainCounts(s, steps);
  }

  lemma {:induction false} WorkerStarts(s: State, steps: seq<Step>, i: nat)
    requires Wf(s) && Runs(s, steps) && i < WORKERS && (s.workers[i].NotStarted? || s.workers[i].Initialising?)
    requires forall k | 0 <= k < |steps| :: !OfWorker(steps[k], i)
    ensures After(s, steps).workers[i].NotStarted? || After(s, steps).workers[i].Initialising?
    decreases |steps|
  {
    if steps == [] {
    } else {
      assert !OfWorker(steps[0], i);
      forall k | 0 <= k < |steps[1..]| ensures !OfWorker(steps[1..][k], i) {
        assert steps[1..][k] == steps[k + 1];
      }
      WorkerStarts(Apply(s, steps[0]), steps[1..], i);
    }
  }

  /** A worker's first step is frame.init, and main has started it before that. */
  lemma {:induction false} FirstOfWorker(s: State, steps: seq<Step>, i: nat, m: nat)
    requires Initial(s) && Runs(s, steps) && i < WORKERS && m < |steps| && OfWorker(steps[m], i)
    requires forall j | 0 <= j < m :: !OfWorker(steps[j], i)
    ensures steps[m].InitDone? && Count(steps[..m], Spawn) > i
  {
    var before, _ := CutAt(s, steps, m);
    WorkerStarts(s, steps[..m], i);
    ShutdownInvAlong(s, steps[..m]);
    StartedAlong(s, steps[..m]);
  }

  // ---------- the watchdog ----------

  /** Main's last step before position `n`. */
  lemma {:induction false} LastOfMain(steps: seq<Step>, n: nat) returns (a: nat)
    requires n <= |steps| && exists k | 0 <= k < n :: OfMain(steps[k])
    ensures a < n && OfMain(steps[a]) && forall k | a < k < n :: !OfMain(steps[k])
  {
    if OfMain(steps[n - 1]) {
      a := n - 1;
    } else {
      a := LastOfMain(steps, n - 1);
    }
  }

  /** The watchdog lowers the flag only after a flag was found down, in main's step just before. */
  lemma {:induction false} TerminatesAfterFailedCheck(s: State, steps: seq<Step>, m: nat) returns (k: nat)
    requires Initial(s) && Runs(s, steps) && m < |steps| && steps[m] == Terminate
    ensures k < m && steps[k].Exchange? && !steps[k].seen && forall j | k < j < m :: !OfMain(steps[j])
  {
    if forall j | 0 <= j < m :: !OfMain(steps[j]) {
      var before, _ := CutAt(s, steps, m);
      MainWaits(s, steps[..m]);
      assert false;
    }
    k := LastOfMain(steps, m);
    NextOfMain(s, steps, k, m);
  }

  /** A check that has found all flags up changes nothing else: main goes back to its loop test. */
  lemma {:induction false} PassedCheckGoesOn(s: State, steps: seq<Step>, k: nat)
    requires Wf(s) && Runs(s, steps) && k < |steps| && steps[k] == Exchange(WORKERS - 1, true)
    ensures Runs(s, steps[..k]) && Runs(s, steps[..k + 1])
    ensures
      var before, after := After(s, steps[..k]), After(s, steps[..k + 1]);
      after.main == Testing && after.flag == before.flag && after.workers == before.workers
  {
    Cut(s, steps, k + 1);
    var before, after := CutAt(s, steps[..k + 1], k);
    assert steps[..k + 1][..k] == steps[..k] && steps[..k + 1][k + 1..] == [];
  }

  lemma {:induction false} DogStaysUp(s: State, steps: seq<Step>, i: nat)
    requires Wf(s) && Runs(s, steps) && i < WORKERS && s.dogs[i]
    requires forall k | 0 <= k < |steps| :: !Exchanges(steps[k], i)
    ensures After(s, steps).dogs[i]
    decreases |steps|
  {
    if steps == [] {
    } else {
      assert !Exchanges(steps[0], i);
      forall k | 0 <= k < |steps[1..]| ensures !Exchanges(steps[1..][k], i) {
        assert steps[1..][k] == steps[k + 1];
      }
      DogStaysUp(Apply(s, steps[0]), steps[1..], i);
    }
  }

  predicate ReportedBetween(steps: seq<Step>, i: nat, k: nat, j: nat) {
    exists m | k < m < j && m < |steps| :: steps[m] == Report(i)
  }

  /** Of two exchanges of a flag with none in between, the second finds it up exactly if its worker has
      stored it in between. */
  lemma {:induction false} FoundUpIff(s: State, steps: seq<Step>, i: nat, k: nat, j: nat)
    requires Wf(s) && Runs(s, steps) && i < WORKERS && k < j < |steps|
    requires Exchanges(steps[k], i) && Exchanges(steps[j], i) && forall m | k < m < j :: !Exchanges(steps[m], i)
    ensures steps[j].seen <==> ReportedBetween(steps, i, k, j)
  {
    if steps[j].seen {
      var m := FoundUpMeansReported(s, steps, i, k, j);
    } else if m :| k < m < j && steps[m] == Report(i) {
      var _, after, at := CutTwice(s, steps, m, j);
      DogStaysUp(after, steps[m + 1..j], i);
      assert false;
    }
  }
}
