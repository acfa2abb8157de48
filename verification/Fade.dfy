/** LED duty-cycle curves sampled every 4 ms, with an index of the instants at which the
    light is off. Times are nanoseconds. */
module Fade {
  type Sample = x: nat | x < 0x1_0000

  type Curve = seq<Sample>

  /** Samples are 1/250 s apart: sample `i` starts at this time. */
  function At(i: int): int { 4_000_000 * i }

  /** Go's integer division of a time by the sample length truncates toward zero. */
  function SampleIndex(t: int): int {
    if t >= 0 then t / 4_000_000 else -((-t) / 4_000_000)
  }

  function Length(c: Curve): int { At(|c|) }

  /** What the light does at an instant: the sample in force, and outside the curve its last one. */
  predicate DarkAt(c: Curve, t: int) {
    var i := SampleIndex(t);
    if c == [] then true
    else if i < 0 || i >= |c| then c[|c| - 1] == 0
    else c[i] == 0
  }

  /** `t` is the start of a sample that is off. */
  ghost predicate ZeroTime(c: Curve, t: int) {
    exists i | 0 <= i < |c| :: At(i) == t && c[i] == 0
  }

  predicate Ascending(zs: seq<int>) { forall i, j | 0 <= i < j < |zs| :: zs[i] < zs[j] }

  /** A list of times indexes a curve when it holds its off instants, ascending. */
  ghost predicate Indexes(zs: seq<int>, c: Curve) {
    Ascending(zs) && forall t :: t in zs <==> ZeroTime(c, t)
  }

  /** `z` is the least off instant from `t` on, or -1 if there is none. */
  ghost predicate NextZero(c: Curve, t: int, z: int) {
    if z < 0 then z == -1 && forall u | u >= t :: !ZeroTime(c, u)
    else z >= t && ZeroTime(c, z) && forall u | t <= u < z :: !ZeroTime(c, u)
  }

  lemma ZeroTimeSnoc(c: Curve, i: nat, t: int)
    requires i < |c|
    ensures ZeroTime(c[..i + 1], t) <==> ZeroTime(c[..i], t) || (t == At(i) && c[i] == 0)
  {
    if ZeroTime(c[..i], t) {
      var k :| 0 <= k < i && At(k) == t && c[..i][k] == 0;
      assert c[..i + 1][k] == 0;
    }
    if t == At(i) && c[i] == 0 { assert c[..i + 1][i] == 0; }
    if ZeroTime(c[..i + 1], t) {
      var k :| 0 <= k < i + 1 && At(k) == t && c[..i + 1][k] == 0;
      if k < i { assert c[..i][k] == 0; }
    }
  }

  /** Appending a sample appends its time to the index exactly when the sample is off. */
  lemma OneMoreSample(c: Curve, i: nat, zs: seq<int>)
    requires i < |c| && Indexes(zs, c[..i])
    ensures Indexes(if c[i] == 0 then zs + [At(i)] else zs, c[..i + 1])
  {
    forall k | 0 <= k < |zs| ensures zs[k] < At(i) {
      assert ZeroTime(c[..i], zs[k]);
    }
    forall t ensures ZeroTime(c[..i + 1], t) <==> ZeroTime(c[..i], t) || (t == At(i) && c[i] == 0) {
      ZeroTimeSnoc(c, i, t);
    }
  }

  class Fade {
    const samples: Curve
    var duration: int
    var zeroPoints: seq<int>
    var firstZero: int
    var lastZero: int
    var startsAtZero: bool
    var endsAtZero: bool

    /** An empty curve keeps zero in both end marks instead of -1. */
    ghost predicate Valid()
      reads this
    {
      && duration == Length(samples)
      && Indexes(zeroPoints, samples)
      && firstZero == (if samples == [] then 0 else if zeroPoints == [] then -1 else zeroPoints[0])
      && lastZero == (if samples == [] then 0 else if zeroPoints == [] then -1 else zeroPoints[|zeroPoints| - 1])
      && startsAtZero == (samples != [] && samples[0] == 0)
      && endsAtZero == (samples != [] && samples[|samples| - 1] == 0)
    }

    constructor Load(samples: Curve)
      ensures Valid() && this.samples == samples
    {
      this.samples := samples;
      duration := Length(samples);
      zeroPoints, firstZero, lastZero, startsAtZero, endsAtZero := [], 0, 0, false, false;
      new;
      FindZeroPoints();
    }

    method FindZeroPoints()
      requires duration == Length(samples) && zeroPoints == [] && firstZero == 0 && lastZero == 0
      requires !startsAtZero && !endsAtZero
      modifies this
      ensures Valid()
    {
      if |samples| == 0 { return; }
      zeroPoints, firstZero, lastZero := [], -1, -1;
      startsAtZero := samples[0] == 0;
      endsAtZero := samples[|samples| - 1] == 0;
      for i := 0 to |samples|
        invariant duration == Length(samples)
        invariant Indexes(zeroPoints, samples[..i])
        invariant zeroPoints != [] ==> zeroPoints[0] >= 0
        invariant firstZero == if zeroPoints == [] then -1 else zeroPoints[0]
        invariant lastZero == if zeroPoints == [] then -1 else zeroPoints[|zeroPoints| - 1]
        invariant startsAtZero == (samples[0] == 0)
        invariant endsAtZero == (samples[|samples| - 1] == 0)
      {
        var t := At(i);
        OneMoreSample(samples, i, zeroPoints);
        if samples[i] == 0 {
          zeroPoints := zeroPoints + [t];
          if firstZero < 0 { firstZero := t; }
          lastZero := t;
        }
      }
      assert samples[..|samples|] == samples;
    }

    predicate IsZeroAt(t: int): (dark: bool)
      requires Valid()
      reads this
      ensures dark == DarkAt(samples, t)
    {
      var i := SampleIndex(t);
      if |samples| == 0 then true
      else if i < 0 || i >= |samples| then endsAtZero
      else samples[i] == 0
    }

    method NextZeroAfter(t: int) returns (z: int)
      requires Valid()
      ensures NextZero(samples, t, z)
    {
      for k := 0 to |zeroPoints|
        invariant forall i | 0 <= i < k :: zeroPoints[i] < t
      {
        if zeroPoints[k] >= t {
          z := zeroPoints[k];
          assert ZeroTime(samples, z);
          assert forall u | u in zeroPoints :: exists i :: 0 <= i < |zeroPoints| && zeroPoints[i] == u;
          return;
        }
      }
      z := -1;
    }

    /** The curve never over-drives the light when its samples stay within the PWM period of 12000. */
    function DutyAt(t: int): (duty: real)
      requires Valid()
      reads this
      ensures (forall s | s in samples :: s <= 12000) ==> 0.0 <= duty <= 1.0
      ensures 0 <= t < duration ==> (duty == 0.0 <==> IsZeroAt(t))
    {
      if |samples| == 0 then 0.0
      else
        var i := SampleIndex(t);
        var clamped := if i < 0 then 0 else if i >= |samples| then |samples| - 1 else i;
        assert samples[clamped] in samples;
        samples[clamped] as real / 12000.0
    }
  }

  lemma InForce(t: int)
    requires t >= 0
    ensures At(SampleIndex(t)) <= t < At(SampleIndex(t) + 1)
    ensures forall i :: i >= 0 ==> SampleIndex(At(i)) == i
  {
  }

  lemma SplitLast(a: seq<int>)
    requires Ascending(a) && a != []
    ensures var front, last := a[..|a| - 1], a[|a| - 1];
      a == front + [last] && last in a && (forall t | t in a :: t <= last)
      && forall t :: t in front <==> t in a && t < last
  {
    var front, last := a[..|a| - 1], a[|a| - 1];
    assert a == front + [last];
    forall t | t in a && t < last ensures t in front {
      var i :| 0 <= i < |a| && a[i] == t;
      assert front[i] == t;
    }
    forall t | t in a ensures t <= last {
      var i :| 0 <= i < |a| && a[i] == t;
    }
    forall t | t in front ensures t < last {
      var i :| 0 <= i < |front| && front[i] == t;
    }
  }

  /** The index is determined by the samples. */
  lemma {:induction false} IndexIsUnique(a: seq<int>, b: seq<int>)
    requires Ascending(a) && Ascending(b) && forall t :: t in a <==> t in b
    ensures a == b
  {
    assert a != [] ==> a[0] in a;
    assert b != [] ==> b[0] in b;
    if a == [] {
    } else {
      assert a[|a| - 1] in b && b[|b| - 1] in a;
      SplitLast(a);
      SplitLast(b);
      IndexIsUnique(a[..|a| - 1], b[..|b| - 1]);
    }
  }

  lemma StaysLit(c: Curve, t: int, z: int, u: int)
    requires 0 <= t <= u < (if z >= 0 then z else Length(c)) <= Length(c) && NextZero(c, t, z) && !DarkAt(c, t)
    ensures !DarkAt(c, u)
  {
    InForce(u);
    InForce(t);
    var i := SampleIndex(u);
    if c[i] == 0 { assert ZeroTime(c, At(i)); }
  }

  /** Index and samples agree at every instant: from `t` to the next indexed zero the curve
      is lit if it is lit at `t`, and at that zero it is dark. */
  lemma NextZeroMeetsSamples(c: Curve, t: int, z: int)
    requires 0 <= t < Length(c) && NextZero(c, t, z)
    ensures z >= 0 ==> z < Length(c) && DarkAt(c, z)
    ensures !DarkAt(c, t) ==> forall u | t <= u < (if z >= 0 then z else Length(c)) :: !DarkAt(c, u)
  {
    if z >= 0 {
      var k :| 0 <= k < |c| && At(k) == z && c[k] == 0;
      InForce(z);
    }
    if !DarkAt(c, t) {
      forall u | t <= u < (if z >= 0 then z else Length(c)) ensures !DarkAt(c, u) {
        StaysLit(c, t, z, u);
      }
    }
  }
}
