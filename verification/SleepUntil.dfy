/** execution_frame_sleep_until: sleep towards a deadline through any number of interruptions.
    The clock and thrd_sleep (section 7.26.5.7 of ISO/IEC 9899:2018) come in as what they answer:
    `first` is the reading the duration is computed from, `tests[i]` the reading at the i-th loop
    test, `naps[i]` the i-th sleep, `Some(left)` if a signal cut it short with `left` to go. */
module SleepUntil {
  import opened Common
  import opened Time

  /** What `remaining` holds at the i-th test: a sleep that is not cut short leaves it alone. */
  function Remaining(deadline: TimeSpec, first: TimeSpec, naps: seq<Option<TimeSpec>>, i: nat): TimeSpec
    requires i <= |naps|
  {
    if i == 0 then Dur(first, deadline)
    else if naps[i - 1].Some? then naps[i - 1].value
    else Remaining(deadline, first, naps, i - 1)
  }

  /** A sleep of `asked` between two readings: it takes at least what was asked, less what it
      reports to be left, and it never reports more than was asked or less than nothing. */
  predicate SleepsAtLeast(before: TimeSpec, after: TimeSpec, asked: TimeSpec, nap: Option<TimeSpec>) {
    var left := if nap.Some? then Total(nap.value) else 0;
    && (nap.Some? ==> Canonical(nap.value) && 0 <= left <= Total(asked))
    && Total(after) >= Total(before) + Total(asked) - left
  }

  /** The clock does not run backwards and sleeps last as long as they should; thrd_sleep is only
      bound to that for spans that are not negative. Some sleep is not interrupted. */
  ghost predicate Honest(deadline: TimeSpec, first: TimeSpec, tests: seq<TimeSpec>, naps: seq<Option<TimeSpec>>) {
    && Point(deadline) && Point(first) && |tests| == |naps| + 1
    && (forall i | 0 <= i < |tests| :: Point(tests[i]))
    && Total(first) <= Total(tests[0])
    && (forall i | 0 <= i < |naps| :: Total(tests[i]) <= Total(tests[i + 1]))
    && (forall i | 0 <= i < |naps| && Total(Remaining(deadline, first, naps, i)) >= 0 ::
          SleepsAtLeast(tests[i], tests[i + 1], Remaining(deadline, first, naps, i), naps[i]))
    && naps != [] && naps[|naps| - 1].None?
  }

  /** On return the deadline is reached; every span asked of thrd_sleep was positive and reached at
      least to the deadline; the first was the span from the first reading to the deadline, each other
      what the sleep before it had left; and the loop ended after the first sleep that was not interrupted. */
  method SleepUntil(deadline: TimeSpec, first: TimeSpec, tests: seq<TimeSpec>, naps: seq<Option<TimeSpec>>)
    returns (asked: seq<TimeSpec>)
    requires Honest(deadline, first, tests, naps)
    ensures |asked| <= |naps| && Total(tests[|asked|]) >= Total(deadline)
    ensures forall i | 0 <= i < |asked| ::
              && asked[i] == Remaining(deadline, first, naps, i)
              && Total(tests[i]) < Total(deadline) <= Total(tests[i]) + Total(asked[i])
    ensures asked != [] ==> Canonical(asked[0]) && Total(asked[0]) == Total(deadline) - Total(first)
    ensures forall i | 0 < i < |asked| :: naps[i - 1] == Some(asked[i])
    ensures Total(first) >= Total(deadline) ==> asked == []
  {
    var remaining := Dur(first, deadline);
    DurSubtracts(first, deadline);
    asked := [];
    var i := 0;
    PointsCompare(deadline, tests[0]);
    while Gt(deadline, tests[i])
      invariant i <= |naps| && |asked| == i
      invariant remaining == Remaining(deadline, first, naps, i)
      invariant Total(tests[i]) + Total(remaining) >= Total(deadline)
      invariant Gt(deadline, tests[i]) <==> Total(deadline) > Total(tests[i])
      invariant forall k | 0 <= k < i - 1 :: naps[k].Some?
      invariant i > 0 && naps[i - 1].None? ==> Total(tests[i]) >= Total(deadline)
      invariant forall k | 0 <= k < i ::
                  && asked[k] == Remaining(deadline, first, naps, k)
                  && Total(tests[k]) < Total(deadline) <= Total(tests[k]) + Total(asked[k])
      invariant Total(first) >= Total(deadline) ==> asked == [] && Total(tests[i]) >= Total(deadline)
      decreases |naps| - i
    {
      asked := asked + [remaining];
      assert SleepsAtLeast(tests[i], tests[i + 1], remaining, naps[i]);
      if naps[i].Some? {
        remaining := naps[i].value;
      }
      i := i + 1;
      PointsCompare(deadline, tests[i]);
    }
  }

  lemma PointsCompare(a: TimeSpec, b: TimeSpec)
    requires Point(a) && Point(b)
    ensures Gt(a, b) <==> Total(a) > Total(b)
  {
    PointIsCanonical(a);
    PointIsCanonical(b);
    GtIsGreater(a, b);
  }
}
