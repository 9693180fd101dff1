/** time.c: points in time and spans as a pair of seconds and nanoseconds. */
module Time {

  const NS_PER_SEC := 1_000_000_000
  const MS_PER_SEC := 1_000
  const NS_PER_MS := 1_000_000

  datatype TimeSpec = TimeSpec(sec: int, nsec: int)

  /** Division and remainder of C (section 6.5.5 of ISO/IEC 9899:2018): truncation toward zero,
      and a remainder with the sign of the dividend. */
  function Quot(a: int, b: int): int
    requires b > 0
  {
    if a >= 0 then a / b else -((-a) / b)
  }

  function Rem(a: int, b: int): int
    requires b > 0
  {
    a - Quot(a, b) * b
  }

  function Int(b: bool): int { if b then 1 else 0 }

  // ---------- the functions of time.c ----------

  function Norm(t: TimeSpec): TimeSpec {
    var nsec := Rem(t.nsec, NS_PER_SEC);
    var sec := t.sec + Quot(t.nsec, NS_PER_SEC);
    var differ := (sec > 0 && nsec < 0) || (sec < 0 && nsec > 0);
    TimeSpec(
      if differ then sec + Int(nsec > 0) - Int(nsec < 0) else sec,
      if differ then (if nsec > 0 then nsec - NS_PER_SEC else nsec + NS_PER_SEC) else nsec)
  }

  function Abs(t: TimeSpec): TimeSpec {
    TimeSpec(if t.sec >= 0 then t.sec else -t.sec, if t.nsec >= 0 then t.nsec else -t.nsec)
  }

  function NormAbs(t: TimeSpec): TimeSpec { Abs(Norm(t)) }

  function After(point: TimeSpec, delta: TimeSpec): TimeSpec {
    var nsec := point.nsec + delta.nsec;
    TimeSpec((point.sec + delta.sec) + Int(nsec >= NS_PER_SEC) - Int(nsec < 0),
             if nsec < 0 then NS_PER_SEC + nsec else Rem(nsec, NS_PER_SEC))
  }

  predicate Gt(left: TimeSpec, right: TimeSpec) {
    if left.sec == right.sec then left.nsec > right.nsec else left.sec > right.sec
  }

  /** timespan_ms: the argument counts milliseconds. */
  function SpanMs(ms: int): TimeSpec {
    TimeSpec(Quot(ms, MS_PER_SEC), Rem(ms, MS_PER_SEC) * NS_PER_MS)
  }

  function Dur(start: TimeSpec, end: TimeSpec): TimeSpec {
    Norm(TimeSpec(end.sec - start.sec, end.nsec - start.nsec))
  }

  function DurAbs(start: TimeSpec, end: TimeSpec): TimeSpec {
    NormAbs(TimeSpec(end.sec - start.sec, end.nsec - start.nsec))
  }

  function TimeLeft(start: TimeSpec, plannedEnd: TimeSpec, actual: TimeSpec): TimeSpec {
    var planned := Dur(start, plannedEnd);
    Norm(TimeSpec(planned.sec - actual.sec, planned.nsec - actual.nsec))
  }

  // ---------- what they mean ----------

  /** The exact number of nanoseconds. */
  function Total(t: TimeSpec): int { t.sec * NS_PER_SEC + t.nsec }

  /** A point in time as the header demands it. */
  predicate Point(t: TimeSpec) { t.sec >= 0 && 0 <= t.nsec < NS_PER_SEC }

  /** The normal form of a span: both fields of one sign, less than a second of nanoseconds. */
  predicate Canonical(t: TimeSpec) {
    -NS_PER_SEC < t.nsec < NS_PER_SEC && !(t.sec > 0 && t.nsec < 0) && !(t.sec < 0 && t.nsec > 0)
  }

  /** timespec_norm changes the form and not the value. */
  lemma NormIsCanonical(t: TimeSpec)
    ensures Canonical(Norm(t)) && Total(Norm(t)) == Total(t)
  {
  }

  /** There is one canonical form for each value. */
  lemma CanonicalIsUnique(a: TimeSpec, b: TimeSpec)
    requires Canonical(a) && Canonical(b)
    ensures Total(a) == Total(b) <==> a == b
  {
  }

  /** Two timespecs are worth the same exactly when they normalise to the same. */
  lemma NormDecidesEquality(a: TimeSpec, b: TimeSpec)
    ensures Total(a) == Total(b) <==> Norm(a) == Norm(b)
    ensures Norm(Norm(a)) == Norm(a)
  {
    NormIsCanonical(a);
    NormIsCanonical(b);
    NormIsCanonical(Norm(a));
    CanonicalIsUnique(Norm(a), Norm(b));
    CanonicalIsUnique(Norm(Norm(a)), Norm(a));
  }

  /** timepoint_after adds exactly, and yields a point exactly when the sum is not negative. */
  lemma AfterAdds(point: TimeSpec, delta: TimeSpec)
    requires Point(point) && Canonical(delta)
    ensures Total(After(point, delta)) == Total(point) + Total(delta)
    ensures Point(After(point, delta)) <==> Total(point) + Total(delta) >= 0
  {
  }

  lemma DurSubtracts(start: TimeSpec, end: TimeSpec)
    ensures Canonical(Dur(start, end)) && Total(Dur(start, end)) == Total(end) - Total(start)
  {
    NormIsCanonical(TimeSpec(end.sec - start.sec, end.nsec - start.nsec));
  }

  lemma PointIsCanonical(p: TimeSpec)
    requires Point(p)
    ensures Canonical(p)
  {
  }

  /** The duration to b, added to a, is b; negative durations included. */
  lemma AfterUndoesDur(a: TimeSpec, b: TimeSpec)
    requires Point(a) && Point(b)
    ensures After(a, Dur(a, b)) == b
  {
    DurSubtracts(a, b);
    AfterAdds(a, Dur(a, b));
    CanonicalIsUnique(After(a, Dur(a, b)), b);
  }

  /** The duration to the point a span later is that span, as long as there is such a point. */
  lemma DurUndoesAfter(a: TimeSpec, d: TimeSpec)
    requires Point(a) && Canonical(d)
    ensures Dur(a, After(a, d)) == d
  {
    DurSubtracts(a, After(a, d));
    AfterAdds(a, d);
    CanonicalIsUnique(Dur(a, After(a, d)), d);
  }

  /** timepoint_gt compares exact values, of points and of canonical spans of either sign alike. */
  lemma GtIsGreater(a: TimeSpec, b: TimeSpec)
    requires Canonical(a) && Canonical(b)
    ensures Gt(a, b) <==> Total(a) > Total(b)
  {
  }

  /** Later points and longer spans end later. */
  lemma AfterIsMonotone(a: TimeSpec, b: TimeSpec, d: TimeSpec, e: TimeSpec)
    requires Point(a) && Point(b) && Canonical(d) && Canonical(e)
    ensures Gt(a, b) <==> Gt(After(a, d), After(b, d))
    ensures Gt(d, e) <==> Gt(After(a, d), After(a, e))
  {
    AfterAdds(a, d);
    AfterAdds(b, d);
    AfterAdds(a, e);
    GtIsGreater(a, b);
    GtIsGreater(d, e);
  }

  /** What is left of a plan: planned end minus start minus what was used, exactly. */
  lemma TimeLeftIsExact(start: TimeSpec, plannedEnd: TimeSpec, actual: TimeSpec)
    ensures
      var left := TimeLeft(start, plannedEnd, actual);
      Canonical(left) && Total(left) == Total(plannedEnd) - Total(start) - Total(actual)
  {
    DurSubtracts(start, plannedEnd);
    var planned := Dur(start, plannedEnd);
    NormIsCanonical(TimeSpec(planned.sec - actual.sec, planned.nsec - actual.nsec));
  }

  function Negated(t: TimeSpec): TimeSpec { TimeSpec(-t.sec, -t.nsec) }

  lemma AbsOfCanonical(d: TimeSpec)
    requires Canonical(d)
    ensures Canonical(Abs(d)) && Abs(Negated(d)) == Abs(d)
    ensures Total(Abs(d)) == if Total(d) >= 0 then Total(d) else -Total(d)
  {
    if d.sec >= 0 && d.nsec >= 0 {
      assert Abs(d) == d;
    } else {
      assert Abs(d) == Negated(d);
    }
  }

  lemma DurReversed(a: TimeSpec, b: TimeSpec)
    ensures Dur(b, a) == Negated(Dur(a, b))
  {
    DurSubtracts(a, b);
    DurSubtracts(b, a);
    assert Total(Negated(Dur(a, b))) == -Total(Dur(a, b));
    CanonicalIsUnique(Dur(b, a), Negated(Dur(a, b)));
  }

  lemma DurAbsIsAbs(a: TimeSpec, b: TimeSpec, d: TimeSpec)
    requires d == Dur(a, b)
    ensures DurAbs(a, b) == Abs(d)
  {
  }

  /** The absolute duration does not depend on the order of the two points. */
  lemma DurAbsIsDistance(a: TimeSpec, b: TimeSpec)
    ensures DurAbs(a, b) == DurAbs(b, a) && Canonical(DurAbs(a, b))
    ensures Total(DurAbs(a, b)) == if Total(a) <= Total(b) then Total(b) - Total(a) else Total(a) - Total(b)
  {
    var d := Dur(a, b);
    DurSubtracts(a, b);
    DurReversed(a, b);
    DurAbsIsAbs(a, b, d);
    DurAbsIsAbs(b, a, Negated(d));
    AbsOfCanonical(d);
  }

  lemma SpanMsIsExact(ms: int)
    ensures Canonical(SpanMs(ms)) && Total(SpanMs(ms)) == ms * NS_PER_MS
  {
  }

  // ---------- 64-bit arithmetic ----------

  const MIN64 := -0x8000_0000_0000_0000
  const MAX64 := 0x7FFF_FFFF_FFFF_FFFF

  predicate Fits64(values: seq<int>) {
    forall i | 0 <= i < |values| :: MIN64 <= values[i] <= MAX64
  }

  predicate Spec64(t: TimeSpec) { Fits64([t.sec, t.nsec]) }

  /** Every value timespec_norm computes on the way. */
  function NormSteps(t: TimeSpec): seq<int> {
    var nsec := Rem(t.nsec, NS_PER_SEC);
    var quot := Quot(t.nsec, NS_PER_SEC);
    var sec := t.sec + quot;
    var differ := (sec > 0 && nsec < 0) || (sec < 0 && nsec > 0);
    [nsec, quot, sec]
    + (if differ then [sec + Int(nsec > 0), sec + Int(nsec > 0) - Int(nsec < 0),
                       if nsec > 0 then nsec - NS_PER_SEC else nsec + NS_PER_SEC] else [])
  }

  function DurSteps(start: TimeSpec, end: TimeSpec): seq<int> {
    [end.sec - start.sec, end.nsec - start.nsec] + NormSteps(TimeSpec(end.sec - start.sec, end.nsec - start.nsec))
  }

  /** Every value timespec_abs computes: it negates the negative fields. */
  function AbsSteps(t: TimeSpec): seq<int> {
    (if t.sec >= 0 then [] else [-t.sec]) + (if t.nsec >= 0 then [] else [-t.nsec])
  }

  /** Every value timepoint_after computes on the way, in the order of the expressions. */
  function AfterSteps(point: TimeSpec, delta: TimeSpec): seq<int> {
    var nsec := point.nsec + delta.nsec;
    var sum := point.sec + delta.sec;
    [nsec, sum, sum + Int(nsec >= NS_PER_SEC), sum + Int(nsec >= NS_PER_SEC) - Int(nsec < 0),
     if nsec < 0 then NS_PER_SEC + nsec else Rem(nsec, NS_PER_SEC)]
  }

  /** Durations between 64-bit points never overflow, on the way or at the end, and the absolute
      value never negates the least 64-bit number. */
  lemma DurNeverOverflows(start: TimeSpec, end: TimeSpec)
    requires Point(start) && Point(end) && Spec64(start) && Spec64(end)
    ensures Fits64(DurSteps(start, end)) && Fits64(AbsSteps(Dur(start, end))) && Spec64(DurAbs(start, end))
  {
    var sec, nsec := end.sec - start.sec, end.nsec - start.nsec;
    SpecFits(start);
    SpecFits(end);
    assert Rem(nsec, NS_PER_SEC) == nsec && Quot(nsec, NS_PER_SEC) == 0;
    assert -MAX64 <= sec <= MAX64;
    var d := Dur(start, end);
    assert -MAX64 <= d.sec <= MAX64 && -NS_PER_SEC < d.nsec < NS_PER_SEC;
    assert DurAbs(start, end) == Abs(d);
  }

  lemma SpecFits(p: TimeSpec)
    requires Spec64(p)
    ensures MIN64 <= p.sec <= MAX64 && MIN64 <= p.nsec <= MAX64
  {
    var fields := [p.sec, p.nsec];
    assert fields[0] == p.sec && fields[1] == p.nsec;
  }

  /** timepoint_after stays within 64 bits on the way exactly when its exact result does. */
  lemma AfterOverflowsIff(point: TimeSpec, delta: TimeSpec)
    requires Point(point) && Canonical(delta) && Spec64(point) && Spec64(delta)
    requires Total(point) + Total(delta) >= 0
    ensures Fits64(AfterSteps(point, delta)) <==> Spec64(After(point, delta))
  {
    var steps, after := AfterSteps(point, delta), After(point, delta);
    SpecFits(point);
    SpecFits(delta);
    assert steps[3] == after.sec && steps[4] == after.nsec;
    if Spec64(after) {
      SpecFits(after);
      assert delta.sec >= 0 || point.sec + delta.sec >= -1;
    }
  }
}
