/** analyzer.c by itself: the frame as an object whose loop runs over what the two queues and malloc
    answer, round by round. Pipeline takes the same frame apart into steps, and StatArrays has the
    loops over the cells. */
module AnalyzerFrame {
  import opened CpuUsage
  import opened UsageStream

  /** A stat_cpu_array_t. `live` is false once it has been freed. */
  class Snapshot {
    var grid: Grid
    ghost var live: bool

    constructor (grid: Grid)
      ensures this.grid == grid && live
    {
      this.grid, live := grid, true;
    }

    /** stat_cpu_array_free: freeing twice is not allowed. */
    method Free()
      requires live
      modifies this`live
      ensures !live
    {
      ghost var dead := false;
      live := dead;
    }
  }

  /** One pass of the loop: the fetch times out; or it yields a snapshot, and then the allocation
      of a result and its push, where the code gets to them, succeed or not. */
  datatype Round = TimedOut | Fetched(snapshot: Snapshot, created: bool, accepted: bool)

  /** How many snapshots are received in the first `i` rounds. */
  function Count(rounds: seq<Round>, i: nat): nat
    requires i <= |rounds|
  {
    if i == 0 then 0 else Count(rounds, i - 1) + if rounds[i - 1].Fetched? then 1 else 0
  }

  /** The pairs whose result was not pushed in the first `i` rounds, when `held` snapshots were there
      before. */
  function Lost(rounds: seq<Round>, i: nat, held: nat): set<nat>
    requires i <= |rounds|
  {
    if i == 0 then {} else
    var position := held + Count(rounds, i - 1) - 1;
    var last := rounds[i - 1];
    if last.Fetched? && !(last.created && last.accepted) && position >= 0
    then Lost(rounds, i - 1, held) + {position} else Lost(rounds, i - 1, held)
  }

  function Pairs(n: nat): nat { if n == 0 then 0 else n - 1 }

  /** `all` is the snapshot held before the rounds, if any, and then those received, in order. */
  ghost predicate Arrive(rounds: seq<Round>, prev: Snapshot?, all: seq<Snapshot>) {
    var held := if prev == null then 0 else 1;
    && |all| == held + Count(rounds, |rounds|)
    && (prev != null ==> all[0] == prev)
    && forall i {:trigger rounds[i]} | 0 <= i < |rounds| && rounds[i].Fetched? ::
         held + Count(rounds, i) < |all| && all[held + Count(rounds, i)] == rounds[i].snapshot
  }

  lemma {:induction false} CountGrows(rounds: seq<Round>, i: nat, j: nat)
    requires i <= j <= |rounds|
    ensures Count(rounds, i) <= Count(rounds, j)
    decreases j
  {
    if i == j {
    } else {
      CountGrows(rounds, i, j - 1);
    }
  }

  lemma {:induction false} LostArePairs(rounds: seq<Round>, i: nat, held: nat)
    requires i <= |rounds|
    ensures forall k | k in Lost(rounds, i, held) :: k < Pairs(held + Count(rounds, i))
  {
    if i == 0 {
    } else {
      LostArePairs(rounds, i - 1, held);
    }
  }

  /** What one more round does to the stream, `n` snapshots having been there before it. */
  lemma {:induction false} StreamNext(rounds: seq<Round>, i: nat, held: nat, n: nat, grids: seq<Grid>, layout: Layout)
    requires i < |rounds| && AllFit(grids, layout) && layout.columns >= 8 && n == held + Count(rounds, i)
    requires if rounds[i].Fetched? then n < |grids| else n <= |grids|
    ensures
      var stream := Stream(grids, Lost(rounds, i, held), Pairs(n), layout);
      Stream(grids, Lost(rounds, i + 1, held), Pairs(held + Count(rounds, i + 1)), layout)
      == if rounds[i].Fetched? && n > 0 && rounds[i].created && rounds[i].accepted
         then stream + [Usage(grids[n - 1], grids[n], layout)] else stream
  {
    LostArePairs(rounds, i, held);
    StreamFrame(grids, grids, Lost(rounds, i, held), Lost(rounds, i + 1, held), Pairs(n), layout);
  }

  class Analyzer {
    const layout: Layout
    const delta: Snapshot
    var prev: Snapshot?
    var curr: Snapshot?

    /** analyzer_init. */
    constructor (layout: Layout, garbage: Grid)
      requires Fits(garbage, layout)
      ensures this.layout == layout && Valid() && prev == null && curr == null && fresh(delta)
    {
      this.layout := layout;
      prev, curr := null, null;
      delta := new Snapshot(garbage);
    }

    ghost predicate Valid()
      reads this, delta
    {
      delta.live && Fits(delta.grid, layout)
    }

    function Held(): nat
      reads this
    {
      if prev == null then 0 else 1
    }

    /** Each snapshot is a block of its own, apart from the delta. */
    ghost predicate Apart(all: seq<Snapshot>) {
      (forall k, l | 0 <= k < l < |all| :: all[k] != all[l]) && delta !in all
    }

    /** The snapshots hold their grids; those before number `done` are freed, the others live. */
    ghost predicate Freed(done: nat, all: seq<Snapshot>, grids: seq<Grid>)
      reads all
    {
      |all| == |grids| && forall k | 0 <= k < |all| :: all[k].grid == grids[k] && (all[k].live <==> done <= k)
    }

    /** One pass of the loop of analyzer_loop. */
    method Pass(round: Round, ghost n: nat, ghost all: seq<Snapshot>, ghost grids: seq<Grid>)
      returns (pushed: seq<seq<real>>)
      requires layout.columns >= 8 && Valid() && Apart(all) && AllFit(grids, layout) && Freed(Pairs(n), all, grids)
      requires n <= |all| && prev == if n == 0 then null else all[n - 1]
      requires round.Fetched? ==> n < |all| && all[n] == round.snapshot
      modifies this`prev, this`curr, delta`grid, set s | s in all :: s`live
      ensures Valid() && Freed(Pairs(if round.Fetched? then n + 1 else n), all, grids)
      ensures curr == if round.Fetched? then round.snapshot else null
      ensures prev == if round.Fetched? then round.snapshot else old(prev)
      ensures pushed == if round.Fetched? && n > 0 && round.created && round.accepted
                        then [Usage(grids[n - 1], grids[n], layout)] else []
    {
      pushed := [];
      curr := if round.Fetched? then round.snapshot else null;
      if curr != null {
        if prev != null {
          assert prev == all[n - 1] && prev in all;
          if !round.created {
            prev.Free();
          } else {
            delta.grid := GridDelta(prev.grid, curr.grid, layout);
            var result := Percentages(delta.grid, layout);
            prev.Free();
            if round.accepted {
              pushed := [result];
            }
          }
        }
        prev := curr;
      }
    }

    /** After `i` rounds, `held` snapshots having been there before them: the last snapshot is kept, the
        ones before it are freed, and `pushed` is the stream so far. */
    ghost predicate Reached(
        rounds: seq<Round>, i: nat, held: nat, all: seq<Snapshot>, grids: seq<Grid>, pushed: seq<seq<real>>)
      requires i <= |rounds| && layout.columns >= 8 && AllFit(grids, layout)
      reads this, delta, all
    {
      var n := held + Count(rounds, i);
      && Valid() && Apart(all) && n <= |all| && Freed(Pairs(n), all, grids)
      && prev == (if n == 0 then null else all[n - 1])
      && pushed == Stream(grids, Lost(rounds, i, held), Pairs(n), layout)
    }

    method Onward(rounds: seq<Round>, i: nat, pushed: seq<seq<real>>,
                  ghost first: Snapshot?, ghost held: nat, ghost all: seq<Snapshot>, ghost grids: seq<Grid>)
      returns (more: seq<seq<real>>)
      requires i < |rounds| && layout.columns >= 8 && AllFit(grids, layout)
      requires Arrive(rounds, first, all) && held == if first == null then 0 else 1
      requires Reached(rounds, i, held, all, grids, pushed)
      modifies this`prev, this`curr, delta`grid, set s | s in all :: s`live
      ensures Reached(rounds, i + 1, held, all, grids, more)
    {
      ghost var n := held + Count(rounds, i);
      CountGrows(rounds, i + 1, |rounds|);
      StreamNext(rounds, i, held, n, grids, layout);
      var line := Pass(rounds[i], n, all, grids);
      more := pushed + line;
    }

    /** analyzer_loop: whatever fails on the way, what it pushes is the stream of all the snapshots
        it has held, less the pairs that were lost; it frees each of them, once, but the last, which
        it keeps. */
    method Loop(rounds: seq<Round>, ghost all: seq<Snapshot>, ghost grids: seq<Grid>)
      returns (pushed: seq<seq<real>>)
      requires layout.columns >= 8 && Valid() && AllFit(grids, layout)
      requires Arrive(rounds, prev, all) && Apart(all) && Freed(0, all, grids)
      modifies this`prev, this`curr, delta`grid, set s | s in all :: s`live
      ensures Valid() && Freed(Pairs(|all|), all, grids)
      ensures pushed == Stream(grids, Lost(rounds, |rounds|, old(Held())), Pairs(|all|), layout)
      ensures prev == if all == [] then null else all[|all| - 1]
    {
      hide Apart;
      ghost var first, held := prev, Held();
      pushed := [];
      for i := 0 to |rounds|
        invariant Reached(rounds, i, held, all, grids, pushed)
      {
        pushed := Onward(rounds, i, pushed, first, held, all, grids);
      }
    }

    /** analyzer_cleanup. */
    method CleanUp()
      requires delta.live && (prev != null ==> prev.live && prev != delta)
      modifies delta`live, if prev == null then {} else {prev}
      ensures !delta.live && (prev != null ==> !prev.live)
    {
      if prev != null {
        prev.Free();
      }
      delta.Free();
    }
  }
}
