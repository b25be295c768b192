/** Clock alignment with the server. Five probes are made to the time
    endpoint; each one that answers gives an offset estimate as in section 8
    of RFC 5905 with equal server receive and transmit times, and the offset
    kept is the upper median of the estimates, or 0 when no probe answered.
    Times are exact reals in milliseconds. */
module ClockSync {
  import opened Wrappers

  /** One answered probe: the client's send time, the server's time and the
      client's receive time. */
  datatype Probe = Probe(t0: real, t1: real, t3: real)

  /** The number of probes made. */
  const SAMPLE_COUNT: nat := 5

  /** `((t1 - t0) + (t2 - t3)) / 2` with `t2 = t1`: the server's reading
      less the midpoint of the client's send and receive readings. */
  function Offset(p: Probe): (offset: real)
    ensures offset == p.t1 - (p.t0 + p.t3) / 2.0
  {
    ((p.t1 - p.t0) + (p.t1 - p.t3)) / 2.0
  }

  /** With outbound delay `dOut`, return delay `dBack` and a server clock
      ahead of the client's by `skew`, the estimate is off by half the
      asymmetry of the delays; equal delays give the skew exactly. */
  lemma OffsetError(t0: real, skew: real, dOut: real, dBack: real)
    ensures Offset(Probe(t0, t0 + dOut + skew, t0 + dOut + dBack)) == skew + (dOut - dBack) / 2.0
    ensures dOut == dBack ==> Offset(Probe(t0, t0 + dOut + skew, t0 + dOut + dBack)) == skew
  {
  }

  /** The readings as the hook takes them: `t0` and `t3` from
      `performance.now()`, which counts from the page's time origin, and `t1`
      from the server's `Date.now()`, which counts from the epoch. With the
      client's epoch clock at `c0` when the probe is sent, a server clock
      ahead of it by `skew`, equal delays `d` each way and the page's origin at
      `origin` on the client's epoch clock, the estimate carries the origin
      as well as the skew. */
  lemma MixedClocksOffset(c0: real, skew: real, d: real, origin: real)
    ensures Offset(Probe(c0 - origin, c0 + d + skew, c0 + 2.0 * d - origin)) == skew + origin
    ensures origin != 0.0 ==> Offset(Probe(c0 - origin, c0 + d + skew, c0 + 2.0 * d - origin)) != skew
  {
  }

  /** `performance.timeOrigin + performance.now()`: the client's readings
      moved onto the epoch clock the server reads, which takes exactly the
      origin out of the estimate. */
  function EpochProbe(raw: Probe, timeOrigin: real): (p: Probe)
    ensures Offset(p) == Offset(raw) - timeOrigin
  {
    Probe(raw.t0 + timeOrigin, raw.t1, raw.t3 + timeOrigin)
  }

  /** With the readings on one clock, equal delays give the skew exactly. */
  lemma EpochClocksOffset(c0: real, skew: real, d: real, origin: real)
    ensures Offset(EpochProbe(Probe(c0 - origin, c0 + d + skew, c0 + 2.0 * d - origin), origin)) == skew
  {
    MixedClocksOffset(c0, skew, d, origin);
  }

  /** Every answered probe moved onto the epoch clock. */
  function EpochProbes(raw: seq<Option<Probe>>, timeOrigin: real): (probes: seq<Option<Probe>>)
    ensures |probes| == |raw|
    ensures forall k :: 0 <= k < |raw| ==>
      probes[k] == if raw[k].Some? then Some(EpochProbe(raw[k].value, timeOrigin)) else None
  {
    if raw == [] then []
    else [if raw[0].Some? then Some(EpochProbe(raw[0].value, timeOrigin)) else None] + EpochProbes(raw[1..], timeOrigin)
  }

  /** With the page's time origin at 0 the readings are already on the epoch
      clock, and nothing changes: this is the source's own estimate. */
  lemma {:induction false} EpochProbesWithoutOrigin(raw: seq<Option<Probe>>)
    ensures EpochProbes(raw, 0.0) == raw
  {
    if raw != [] {
      EpochProbesWithoutOrigin(raw[1..]);
      assert raw == [raw[0]] + raw[1..];
    }
  }

  /** The number of probes among the first `k` that answered. */
  function AnsweredBefore(probes: seq<Option<Probe>>, k: nat): (n: nat)
    requires k <= |probes|
    ensures n <= k
  {
    if k == 0 then 0 else AnsweredBefore(probes, k - 1) + (if probes[k - 1].Some? then 1 else 0)
  }

  /** The estimates of the first `k` probes, one per probe that answered. */
  function SamplesUpTo(probes: seq<Option<Probe>>, k: nat): (samples: seq<real>)
    requires k <= |probes|
    ensures |samples| == AnsweredBefore(probes, k)
  {
    if k == 0 then []
    else
      var prev := SamplesUpTo(probes, k - 1);
      if probes[k - 1].Some? then prev + [Offset(probes[k - 1].value)] else prev
  }

  /** Every estimate comes from an answered probe; all of the first `k`
      answering gives `k` estimates, none answering gives none. */
  lemma {:induction false} SamplesUpToFromProbes(probes: seq<Option<Probe>>, k: nat)
    requires k <= |probes|
    ensures forall i :: 0 <= i < |SamplesUpTo(probes, k)| ==>
      exists m :: 0 <= m < k && probes[m].Some? && SamplesUpTo(probes, k)[i] == Offset(probes[m].value)
    ensures (forall m :: 0 <= m < k ==> probes[m].Some?) ==> |SamplesUpTo(probes, k)| == k
    ensures (forall m :: 0 <= m < k ==> probes[m].None?) ==> SamplesUpTo(probes, k) == []
  {
    if k > 0 {
      SamplesUpToFromProbes(probes, k - 1);
      var s, sp := SamplesUpTo(probes, k), SamplesUpTo(probes, k - 1);
      forall i | 0 <= i < |s|
        ensures exists m :: 0 <= m < k && probes[m].Some? && s[i] == Offset(probes[m].value)
      {
        if i < |sp| {
          var m :| 0 <= m < k - 1 && probes[m].Some? && sp[i] == Offset(probes[m].value);
          assert s[i] == sp[i];
        } else {
          assert probes[k - 1].Some? && s[i] == Offset(probes[k - 1].value);
        }
      }
    } else {
      assert SamplesUpTo(probes, k) == [];
    }
  }

  /** The estimates of the probes that answered, in probe order. A probe that
      threw or got a non-ok answer is `None`. */
  function SamplesOf(probes: seq<Option<Probe>>): (samples: seq<real>)
    ensures |samples| <= |probes|
    ensures forall i :: 0 <= i < |samples| ==>
      exists k :: 0 <= k < |probes| && probes[k].Some? && samples[i] == Offset(probes[k].value)
    ensures (forall k :: 0 <= k < |probes| ==> probes[k].Some?) ==> |samples| == |probes|
    ensures (forall k :: 0 <= k < |probes| ==> probes[k].None?) ==> samples == []
  {
    SamplesUpToFromProbes(probes, |probes|);
    SamplesUpTo(probes, |probes|)
  }

  /** The probe at position `i` that answered gives the estimate at the
      position that counts the answered probes before it: the estimates keep
      probe order. */
  lemma {:induction false} SamplesInProbeOrder(probes: seq<Option<Probe>>, k: nat)
    requires k <= |probes|
    ensures forall i :: 0 <= i < k && probes[i].Some? ==>
      AnsweredBefore(probes, i) < |SamplesUpTo(probes, k)| &&
      SamplesUpTo(probes, k)[AnsweredBefore(probes, i)] == Offset(probes[i].value)
  {
    if k > 0 {
      SamplesInProbeOrder(probes, k - 1);
    }
  }

  /** For all the probes made: exactly one estimate per answered probe, in
      probe order. */
  lemma SamplesOfAnswered(probes: seq<Option<Probe>>)
    ensures |SamplesOf(probes)| == AnsweredBefore(probes, |probes|)
    ensures forall i :: 0 <= i < |probes| && probes[i].Some? ==>
      AnsweredBefore(probes, i) < |SamplesOf(probes)| &&
      SamplesOf(probes)[AnsweredBefore(probes, i)] == Offset(probes[i].value)
  {
    SamplesInProbeOrder(probes, |probes|);
  }

  predicate Sorted(s: seq<real>) {
    forall i, j :: 0 <= i < j < |s| ==> s[i] <= s[j]
  }

  /** A value no larger than the head of a sorted sequence can go in front. */
  lemma SortedCons(h: real, rest: seq<real>)
    requires Sorted(rest) && (rest == [] || h <= rest[0])
    ensures Sorted([h] + rest)
  {
    var r := [h] + rest;
    forall i, j | 0 <= i < j < |r| ensures r[i] <= r[j] {
      if i > 0 {
        assert r[i] == rest[i - 1] && r[j] == rest[j - 1];
      } else {
        assert r[j] == rest[j - 1];
        assert rest[0] <= rest[j - 1];
      }
    }
  }

  /** Insertion of `x` into a sorted sequence. */
  function Insert(x: real, s: seq<real>): (r: seq<real>)
    requires Sorted(s)
    ensures |r| == |s| + 1
    ensures r[0] == if s == [] || x <= s[0] then x else s[0]
    ensures Sorted(r) && multiset(r) == multiset(s) + multiset{x}
  {
    if s == [] || x <= s[0] then
      SortedCons(x, s);
      assert multiset([x] + s) == multiset{x} + multiset(s);
      [x] + s
    else
      var tail := s[1..];
      var rest := Insert(x, tail);
      MultisetOfCons(s);
      SortedCons(s[0], rest);
      assert multiset([s[0]] + rest) == multiset{s[0]} + multiset(rest);
      [s[0]] + rest
  }

  /** `samples.sort((a, b) => a - b)` as a value. */
  function SortedSamples(s: seq<real>): (r: seq<real>)
    ensures |r| == |s|
    ensures Sorted(r) && multiset(r) == multiset(s)
  {
    if s == [] then []
    else
      assert s == [s[0]] + s[1..];
      Insert(s[0], SortedSamples(s[1..]))
  }

  lemma HeadIsLeast(s: seq<real>, x: real)
    requires Sorted(s) && x in s
    ensures s[0] <= x
  {
    var i :| 0 <= i < |s| && s[i] == x;
    if i > 0 {
      assert s[0] <= s[i];
    }
  }

  lemma MultisetOfCons(s: seq<real>)
    requires s != []
    ensures multiset(s) == multiset{s[0]} + multiset(s[1..])
  {
    assert s == [s[0]] + s[1..];
  }

  lemma MultisetCancel(x: real, p: multiset<real>, q: multiset<real>)
    requires multiset{x} + p == multiset{x} + q
    ensures p == q
  {
    forall y ensures p[y] == q[y] {
      assert (multiset{x} + p)[y] == (multiset{x} + q)[y];
    }
  }

  /** Two sorted arrangements of the same values are the same sequence. */
  lemma {:induction false} SortedUnique(a: seq<real>, b: seq<real>)
    requires Sorted(a) && Sorted(b) && multiset(a) == multiset(b)
    ensures a == b
    decreases |a|
  {
    assert |a| == |multiset(a)| == |multiset(b)| == |b|;
    if a != [] {
      assert a[0] in multiset(b) && b[0] in multiset(a);
      HeadIsLeast(b, a[0]);
      HeadIsLeast(a, b[0]);
      assert a[0] == b[0];
      MultisetOfCons(a);
      MultisetOfCons(b);
      MultisetCancel(a[0], multiset(a[1..]), multiset(b[1..]));
      assert Sorted(a[1..]) by {
        forall i, j | 0 <= i < j < |a[1..]| ensures a[1..][i] <= a[1..][j] {
          assert a[1..][i] == a[i + 1] && a[1..][j] == a[j + 1];
        }
      }
      assert Sorted(b[1..]) by {
        forall i, j | 0 <= i < j < |b[1..]| ensures b[1..][i] <= b[1..][j] {
          assert b[1..][i] == b[i + 1] && b[1..][j] == b[j + 1];
        }
      }
      SortedUnique(a[1..], b[1..]);
      assert a == [a[0]] + a[1..] && b == [b[0]] + b[1..];
    }
  }

  /** The offset chosen: element `floor(n / 2)` of the sorted estimates, 0 with none. */
  function Median(samples: seq<real>): (m: real)
    ensures samples == [] ==> m == 0.0
    ensures samples != [] ==> m in samples
  {
    if samples == [] then 0.0
    else
      var t := SortedSamples(samples);
      assert t[|samples| / 2] in multiset(samples);
      t[|samples| / 2]
  }

  /** Exchanges `a[j - 1]` and `a[j]`. */
  method SwapDown(a: array<real>, j: int)
    requires 0 < j < a.Length
    modifies a
    ensures a[..] == old(a[..])[j - 1 := old(a[j])][j := old(a[j - 1])]
    ensures multiset(a[..]) == multiset(old(a[..]))
  {
    a[j - 1], a[j] := a[j], a[j - 1];
  }

  /** One pass of the insertion: `a[i]` moves down into the sorted prefix `a[..i]`. */
  method InsertInto(a: array<real>, i: int)
    requires 0 < i < a.Length && Sorted(a[..i])
    modifies a
    ensures Sorted(a[..i + 1])
    ensures multiset(a[..]) == multiset(old(a[..]))
  {
    var j := i;
    while j > 0 && a[j - 1] > a[j]
      invariant 0 <= j <= i
      invariant forall p, q :: 0 <= p < q <= i && p != j && q != j ==> a[p] <= a[q]
      invariant forall q :: j < q <= i ==> a[j] < a[q]
      invariant multiset(a[..]) == multiset(old(a[..]))
    {
      SwapDown(a, j);
      j := j - 1;
    }
  }

  /** `samples.sort((a, b) => a - b)`, in place, by insertion with adjacent swaps. */
  method SortAscending(a: array<real>)
    modifies a
    ensures Sorted(a[..])
    ensures multiset(a[..]) == multiset(old(a[..]))
  {
    if a.Length == 0 {
      return;
    }
    for i := 1 to a.Length
      invariant Sorted(a[..i])
      invariant multiset(a[..]) == multiset(old(a[..]))
    {
      InsertInto(a, i);
    }
  }

  /** `syncClockToServer`, given the outcome of each of its five probes: the
      answered probes' estimates are collected in order, sorted, and the
      upper median is returned; 0 when no probe answered. */
  method SyncClockToServer(probes: seq<Option<Probe>>) returns (offset: real)
    requires |probes| == SAMPLE_COUNT
    ensures offset == Median(SamplesOf(probes))
  {
    var samples: seq<real> := [];
    for i := 0 to SAMPLE_COUNT
      invariant samples == SamplesUpTo(probes, i)
    {
      var outcome := probes[i];
      if outcome.Some? {
        var p := outcome.value;
        var t2 := p.t1;
        var sample := ((p.t1 - p.t0) + (t2 - p.t3)) / 2.0;
        samples := samples + [sample];
      }
    }
    if |samples| == 0 {
      return 0.0;
    }
    var a := new real[|samples|](k requires 0 <= k < |samples| => samples[k]);
    assert a[..] == samples;
    SortAscending(a);
    SortedUnique(a[..], SortedSamples(samples));
    return a[a.Length / 2];
  }

  /** The chosen offset is one of the estimates, so it lies between the
      smallest and the largest; with no estimate it is 0. */
  lemma MedianIsASample(samples: seq<real>, lo: real, hi: real)
    ensures samples == [] ==> Median(samples) == 0.0
    ensures samples != [] ==> Median(samples) in samples
    ensures samples != [] && (forall x :: x in samples ==> lo <= x <= hi) ==> lo <= Median(samples) <= hi
  {
    if samples != [] {
      var t := SortedSamples(samples);
      assert |t| == |multiset(t)| == |multiset(samples)| == |samples|;
      assert t[|samples| / 2] in multiset(samples);
    }
  }

  /** At least `floor(n/2) + 1` of the sorted estimates are at most the
      chosen offset and at least `n - floor(n/2)` are at least it. */
  lemma MedianSplitsSorted(samples: seq<real>)
    requires samples != []
    ensures var t := SortedSamples(samples);
      && |t| == |samples|
      && (forall k :: 0 <= k <= |t| / 2 ==> t[k] <= Median(samples))
      && (forall k :: |t| / 2 <= k < |t| ==> t[k] >= Median(samples))
  {
    var t := SortedSamples(samples);
    var m := t[|t| / 2];
    forall k | 0 <= k <= |t| / 2 ensures t[k] <= m {
      if k < |t| / 2 {
        assert t[k] <= t[|t| / 2];
      }
    }
    forall k | |t| / 2 <= k < |t| ensures t[k] >= m {
      if k > |t| / 2 {
        assert t[|t| / 2] <= t[k];
      }
    }
  }

  /** How many of the values lie in `[lo, hi]`. */
  function CountWithin(s: seq<real>, lo: real, hi: real): (n: nat)
    ensures n <= |s|
  {
    if s == [] then 0 else (if lo <= s[0] <= hi then 1 else 0) + CountWithin(s[1..], lo, hi)
  }

  lemma {:induction false} CountWithinConcat(a: seq<real>, b: seq<real>, lo: real, hi: real)
    ensures CountWithin(a + b, lo, hi) == CountWithin(a, lo, hi) + CountWithin(b, lo, hi)
  {
    if a == [] {
      assert a + b == b;
    } else {
      assert (a + b)[0] == a[0];
      assert (a + b)[1..] == a[1..] + b;
      CountWithinConcat(a[1..], b, lo, hi);
    }
  }

  /** Taking one element out of a sequence takes it out of its multiset. */
  lemma MultisetRemoveAt(b: seq<real>, j: nat)
    requires j < |b|
    ensures multiset(b) == multiset{b[j]} + multiset(b[..j] + b[j + 1..])
  {
    assert b == b[..j] + [b[j]] + b[j + 1..];
  }

  /** Taking one element out of a sequence takes its share out of the count. */
  lemma CountWithinRemoveAt(b: seq<real>, j: nat, lo: real, hi: real)
    requires j < |b|
    ensures CountWithin(b, lo, hi) == (if lo <= b[j] <= hi then 1 else 0) + CountWithin(b[..j] + b[j + 1..], lo, hi)
  {
    CountWithinConcat(b[..j], [b[j]] + b[j + 1..], lo, hi);
    CountWithinConcat([b[j]], b[j + 1..], lo, hi);
    CountWithinConcat(b[..j], b[j + 1..], lo, hi);
    assert [b[j]] + b[j + 1..] == b[j..];
    assert b[..j] + b[j..] == b;
  }

  /** The count only depends on the values, not on their order. */
  lemma {:induction false} CountWithinPermutation(a: seq<real>, b: seq<real>, lo: real, hi: real)
    requires multiset(a) == multiset(b)
    ensures CountWithin(a, lo, hi) == CountWithin(b, lo, hi)
    decreases |a|
  {
    if a == [] {
      assert |b| == |multiset(b)| == 0;
    } else {
      assert a[0] in multiset(b);
      var j :| 0 <= j < |b| && b[j] == a[0];
      var rest := b[..j] + b[j + 1..];
      MultisetRemoveAt(b, j);
      MultisetOfCons(a);
      MultisetCancel(a[0], multiset(a[1..]), multiset(rest));
      CountWithinPermutation(a[1..], rest, lo, hi);
      CountWithinRemoveAt(b, j, lo, hi);
    }
  }

  /** Values that all lie outside `[lo, hi]` count for nothing. */
  lemma {:induction false} CountWithinNone(s: seq<real>, lo: real, hi: real)
    requires forall k :: 0 <= k < |s| ==> !(lo <= s[k] <= hi)
    ensures CountWithin(s, lo, hi) == 0
  {
    if s != [] {
      CountWithinNone(s[1..], lo, hi);
    }
  }

  /** Robustness of the median: when more than half of the estimates lie in
      `[lo, hi]`, so does the chosen offset, whatever the other estimates are.
      In particular, when most probes see symmetric delays the offset is the
      true skew. */
  lemma MajorityWithinBoundsBoundsMedian(samples: seq<real>, lo: real, hi: real)
    requires 2 * CountWithin(samples, lo, hi) > |samples|
    ensures lo <= Median(samples) <= hi
  {
    var t := SortedSamples(samples);
    CountWithinPermutation(samples, t, lo, hi);
    SortedMajorityBoundsMiddle(t, lo, hi);
  }

  lemma SortedMajorityBoundsMiddle(t: seq<real>, lo: real, hi: real)
    requires Sorted(t) && 2 * CountWithin(t, lo, hi) > |t|
    ensures t != [] && lo <= t[|t| / 2] <= hi
  {
    var n := |t|;
    var h := n / 2;
    var m := t[h];
    if m < lo {
      var low, high := t[..h + 1], t[h + 1..];
      assert t == low + high;
      forall k | 0 <= k < |low| ensures !(lo <= low[k] <= hi) {
        assert low[k] == t[k];
        if k < h {
          assert t[k] <= t[h];
        }
      }
      CountWithinNone(low, lo, hi);
      CountWithinConcat(low, high, lo, hi);
      assert false;
    }
    if m > hi {
      var low, high := t[..h], t[h..];
      assert t == low + high;
      forall k | 0 <= k < |high| ensures !(lo <= high[k] <= hi) {
        assert high[k] == t[h + k];
        if k > 0 {
          assert t[h] <= t[h + k];
        }
      }
      CountWithinNone(high, lo, hi);
      CountWithinConcat(low, high, lo, hi);
      assert false;
    }
  }
}
