// The per-key token bucket limiter: buckets refill lazily when they are used, and a garbage
// collector drops the ones that have been idle for ten minutes. Time is in seconds and tokens are
// exact reals.
module RateLimit {

  /** What one bucket holds. Capacity and refill rate follow from the configured requests per minute. */
  datatype Bucket = Bucket(tokens: real, lastRefill: real)

  type Buckets = map<string, Bucket>

  datatype Event = Allow(key: string, now: real) | Cleanup(now: real)

  datatype Outcome = Accepted | Rejected | Swept

  const IDLE: real := 600.0

  function Capacity(rpm: int): real {
    rpm as real
  }

  /** What d seconds add to a bucket: a sixtieth of d for each of the tokens of a minute. The sum keeps
      the proofs linear; GainIsProduct says that it is the product d * (rpm / 60). */
  function Gain(d: real, rpm: int): real
    decreases if rpm < 0 then -rpm + 1 else rpm
  {
    if rpm < 0 then -Gain(d, -rpm - 1) - d / 60.0
    else if rpm == 0 then 0.0
    else Gain(d, rpm - 1) + d / 60.0
  }

  function Min(a: real, b: real): real {
    if a > b then b else a
  }

  function Refilled(b: Bucket, now: real, rpm: int): Bucket {
    Bucket(Min(b.tokens + Gain(now - b.lastRefill, rpm), Capacity(rpm)), now)
  }

  /** The bucket a call on key works with: the stored one, or a new full one, after its refill. */
  function Current(bs: Buckets, key: string, now: real, rpm: int): Bucket {
    Refilled(if key in bs then bs[key] else Bucket(Capacity(rpm), now), now, rpm)
  }

  function Spend(b: Bucket): Bucket {
    if b.tokens < 1.0 then b else b.(tokens := b.tokens - 1.0)
  }

  function Apply(bs: Buckets, e: Event, rpm: int): Buckets {
    match e
    case Allow(key, now) => bs[key := Spend(Current(bs, key, now, rpm))]
    case Cleanup(now) => map k | k in bs && !(bs[k].lastRefill < now - IDLE) :: bs[k]
  }

  function Answer(bs: Buckets, e: Event, rpm: int): Outcome {
    match e
    case Allow(key, now) => if Current(bs, key, now, rpm).tokens < 1.0 then Rejected else Accepted
    case Cleanup(_) => Swept
  }

  /** The answers of a run of calls, one per call. */
  function Outcomes(bs: Buckets, es: seq<Event>, rpm: int): (os: seq<Outcome>)
    ensures |os| == |es|
    decreases |es|
  {
    if es == [] then []
    else [Answer(bs, es[0], rpm)] + Outcomes(Apply(bs, es[0], rpm), es[1..], rpm)
  }

  /** The clock never runs backwards. */
  predicate Ordered(es: seq<Event>, t: real) {
    es == [] || (t <= es[0].now && Ordered(es[1..], es[0].now))
  }

  /** Holds in every state the limiter can reach by time t. */
  predicate WellFormed(bs: Buckets, t: real, rpm: int) {
    forall k | k in bs ::
      bs[k].lastRefill <= t && (rpm >= 1 ==> 0.0 <= bs[k].tokens <= Capacity(rpm))
  }

  /** How many tokens key could spend at time t. */
  function Level(bs: Buckets, key: string, t: real, rpm: int): real {
    Current(bs, key, t, rpm).tokens
  }

  // ---------- refills ----------

  lemma OneMore(x: real, q: real)
    ensures (x + 1.0) * q == x * q + q
  {
  }

  lemma Negated(x: real, q: real)
    ensures (0.0 - x) * q == 0.0 - x * q
  {
  }

  lemma {:induction false} GainIsMultiple(d: real, rpm: nat)
    ensures Gain(d, rpm) == rpm as real * (d / 60.0)
  {
    if rpm > 0 {
      GainIsMultiple(d, rpm - 1);
      OneMore((rpm - 1) as real, d / 60.0);
      assert rpm as real == (rpm - 1) as real + 1.0;
    }
  }

  /** A negative limit takes away what the positive one adds. */
  lemma NegativeGain(d: real, rpm: int)
    requires rpm > 0
    ensures Gain(d, -rpm) == (-rpm) as real * (d / 60.0)
  {
    var q, x := d / 60.0, rpm as real;
    GainIsMultiple(d, rpm);
    Negated(x, q);
    assert Gain(d, -rpm) == 0.0 - Gain(d, rpm);
    assert (-rpm) as real == 0.0 - x;
  }

  lemma Sixtieth(d: real, x: real)
    ensures d * (x / 60.0) == x * (d / 60.0)
  {
    var p, q := x / 60.0, d / 60.0;
    assert d == 60.0 * q && x == 60.0 * p;
    assert 60.0 * q * p == 60.0 * p * q;
  }

  lemma {:induction false} GainIsProduct(d: real, rpm: int)
    ensures Gain(d, rpm) == d * (rpm as real / 60.0)
  {
    if rpm < 0 {
      NegativeGain(d, -rpm);
    } else {
      GainIsMultiple(d, rpm);
    }
    Sixtieth(d, rpm as real);
  }

  lemma {:induction false} GainAdds(a: real, b: real, rpm: nat)
    ensures Gain(a, rpm) + Gain(b, rpm) == Gain(a + b, rpm)
  {
    if rpm > 0 {
      GainAdds(a, b, rpm - 1);
    }
  }

  lemma {:induction false} GainIsMonotone(a: real, b: real, rpm: nat)
    requires a <= b
    ensures Gain(a, rpm) <= Gain(b, rpm)
  {
    if rpm > 0 {
      GainIsMonotone(a, b, rpm - 1);
    }
  }

  lemma {:induction false} NoTimeNoGain(rpm: int)
    ensures Gain(0.0, rpm) == 0.0
    decreases if rpm < 0 then -rpm + 1 else rpm
  {
    if rpm < 0 {
      NoTimeNoGain(-rpm - 1);
    } else if rpm > 0 {
      NoTimeNoGain(rpm - 1);
    }
  }

  /** Time never takes tokens away. */
  lemma GainIsNonNegative(d: real, rpm: nat)
    requires d >= 0.0
    ensures Gain(d, rpm) >= 0.0
  {
    NoTimeNoGain(rpm);
    GainIsMonotone(0.0, d, rpm);
  }

  /** Refilling in two steps is refilling once, so the moments at which a bucket is touched do not matter. */
  lemma RefillsCompose(b: Bucket, t1: real, t2: real, rpm: int)
    requires rpm >= 1 && b.lastRefill <= t1 <= t2
    ensures Refilled(Refilled(b, t1, rpm), t2, rpm) == Refilled(b, t2, rpm)
  {
    GainAdds(t1 - b.lastRefill, t2 - t1, rpm);
    GainIsNonNegative(t2 - t1, rpm);
  }

  /** A bucket idle for ten minutes is full again: dropping it and starting a new one is the same. */
  lemma IdleBucketIsFull(b: Bucket, now: real, rpm: int)
    requires rpm >= 1 && 0.0 <= b.tokens && b.lastRefill <= now - IDLE
    ensures Refilled(b, now, rpm).tokens == Capacity(rpm)
  {
    GainIsMonotone(IDLE, now - b.lastRefill, rpm);
    GainIsProduct(IDLE, rpm);
  }

  /** What key can spend later depends only on what it can spend now. */
  lemma LevelLater(bs: Buckets, key: string, t1: real, t2: real, rpm: int)
    requires rpm >= 1 && WellFormed(bs, t1, rpm) && t1 <= t2
    ensures Level(bs, key, t2, rpm)
         == Min(Level(bs, key, t1, rpm) + Gain(t2 - t1, rpm), Capacity(rpm))
  {
    GainIsNonNegative(t2 - t1, rpm);
    NoTimeNoGain(rpm);
    if key in bs {
      RefillsCompose(bs[key], t1, t2, rpm);
    }
  }

  lemma LevelBounds(bs: Buckets, key: string, t: real, now: real, rpm: int)
    requires rpm >= 1 && WellFormed(bs, t, rpm) && t <= now
    ensures 0.0 <= Level(bs, key, now, rpm) <= Capacity(rpm)
  {
    NoTimeNoGain(rpm);
    if key in bs {
      GainIsNonNegative(now - bs[key].lastRefill, rpm);
    }
  }

  /** A bucket refilled at the same moment again does not change. */
  lemma RefillAgain(b: Bucket, rpm: int)
    requires b.tokens <= Capacity(rpm)
    ensures Refilled(b, b.lastRefill, rpm) == b
  {
    NoTimeNoGain(rpm);
  }

  // ---------- one call ----------

  lemma ApplyKeepsWellFormed(bs: Buckets, e: Event, t: real, rpm: int)
    requires WellFormed(bs, t, rpm) && t <= e.now
    ensures WellFormed(Apply(bs, e, rpm), e.now, rpm)
  {
    if e.Allow? && rpm >= 1 {
      LevelBounds(bs, e.key, t, e.now, rpm);
    }
  }

  /** The tokens a call takes from key: one if it is an accepted call on key, none otherwise. */
  function Taken(bs: Buckets, e: Event, key: string, rpm: int): real {
    if e.Allow? && e.key == key && Answer(bs, e, rpm) == Accepted then 1.0 else 0.0
  }

  /** No call changes what key can spend by more than what it takes. */
  lemma LevelAfter(bs: Buckets, e: Event, key: string, t: real, rpm: int)
    requires rpm >= 1 && WellFormed(bs, t, rpm) && t <= e.now
    ensures Level(Apply(bs, e, rpm), key, e.now, rpm) == Level(bs, key, e.now, rpm) - Taken(bs, e, key, rpm)
  {
    var bs' := Apply(bs, e, rpm);
    match e
    case Allow(k, now) =>
      if k == key {
        RefillAgain(bs'[key], rpm);
      }
    case Cleanup(now) =>
      if key in bs && bs[key].lastRefill < now - IDLE {
        IdleBucketIsFull(bs[key], now, rpm);
        RefillAgain(Bucket(Capacity(rpm), now), rpm);
      }
  }

  // ---------- what a client can observe ----------

  /** No sequence of later calls can tell the two states apart. */
  ghost predicate Same(bs1: Buckets, bs2: Buckets, t: real, rpm: int) {
    forall key :: Level(bs1, key, t, rpm) == Level(bs2, key, t, rpm)
  }

  lemma SameLater(bs1: Buckets, bs2: Buckets, t1: real, t2: real, rpm: int)
    requires rpm >= 1 && t1 <= t2
    requires WellFormed(bs1, t1, rpm) && WellFormed(bs2, t1, rpm) && Same(bs1, bs2, t1, rpm)
    ensures Same(bs1, bs2, t2, rpm)
  {
    forall key ensures Level(bs1, key, t2, rpm) == Level(bs2, key, t2, rpm) {
      LevelLater(bs1, key, t1, t2, rpm);
      LevelLater(bs2, key, t1, t2, rpm);
    }
  }

  lemma SameAfter(bs1: Buckets, bs2: Buckets, e: Event, t: real, rpm: int)
    requires rpm >= 1 && t <= e.now
    requires WellFormed(bs1, t, rpm) && WellFormed(bs2, t, rpm) && Same(bs1, bs2, t, rpm)
    ensures Answer(bs1, e, rpm) == Answer(bs2, e, rpm)
    ensures Same(Apply(bs1, e, rpm), Apply(bs2, e, rpm), e.now, rpm)
  {
    SameLater(bs1, bs2, t, e.now, rpm);
    if e.Allow? {
      assert Level(bs1, e.key, e.now, rpm) == Level(bs2, e.key, e.now, rpm);
    }
    forall key
      ensures Level(Apply(bs1, e, rpm), key, e.now, rpm) == Level(Apply(bs2, e, rpm), key, e.now, rpm)
    {
      LevelAfter(bs1, e, key, t, rpm);
      LevelAfter(bs2, e, key, t, rpm);
    }
  }

  lemma SilentAfter(bs1: Buckets, bs2: Buckets, e: Event, t: real, rpm: int)
    requires rpm >= 1 && t <= e.now
    requires WellFormed(bs1, t, rpm) && WellFormed(bs2, t, rpm) && Same(bs1, bs2, t, rpm)
    requires Answer(bs1, e, rpm) != Accepted
    ensures Same(Apply(bs1, e, rpm), bs2, e.now, rpm)
  {
    SameLater(bs1, bs2, t, e.now, rpm);
    forall key ensures Level(Apply(bs1, e, rpm), key, e.now, rpm) == Level(bs2, key, e.now, rpm) {
      LevelAfter(bs1, e, key, t, rpm);
    }
  }

  /** The elements of xs that keep marks. */
  function Kept<T>(xs: seq<T>, keep: seq<bool>): seq<T>
    requires |xs| == |keep|
  {
    if xs == [] then [] else (if keep[0] then [xs[0]] else []) + Kept(xs[1..], keep[1..])
  }

  /** Only garbage collections and rejected calls are left out. */
  predicate OnlySilentDropped(os: seq<Outcome>, keep: seq<bool>)
    requires |os| == |keep|
  {
    forall i | 0 <= i < |os| :: !keep[i] ==> os[i] != Accepted
  }

  lemma OutcomesFromNext(bs: Buckets, es: seq<Event>, keep: seq<bool>, rpm: int)
    requires |keep| == |es| > 0
    ensures Outcomes(bs, es, rpm)[1..] == Outcomes(Apply(bs, es[0], rpm), es[1..], rpm)
    ensures OnlySilentDropped(Outcomes(bs, es, rpm), keep) ==>
      OnlySilentDropped(Outcomes(Apply(bs, es[0], rpm), es[1..], rpm), keep[1..])
  {
    var os := Outcomes(bs, es, rpm);
    assert os[1..] == Outcomes(Apply(bs, es[0], rpm), es[1..], rpm);
    assert forall i | 0 <= i < |os[1..]| :: os[1..][i] == os[i + 1] && keep[1..][i] == keep[i + 1];
  }

  lemma {:induction false} InvisibleFrom(
      bs1: Buckets, bs2: Buckets, es: seq<Event>, keep: seq<bool>, t: real, rpm: int)
    requires rpm >= 1 && |keep| == |es| && Ordered(es, t)
    requires WellFormed(bs1, t, rpm) && WellFormed(bs2, t, rpm) && Same(bs1, bs2, t, rpm)
    requires OnlySilentDropped(Outcomes(bs1, es, rpm), keep)
    ensures Kept(Outcomes(bs1, es, rpm), keep) == Outcomes(bs2, Kept(es, keep), rpm)
    decreases |es|
  {
    if es != [] {
      var e := es[0];
      OutcomesFromNext(bs1, es, keep, rpm);
      ApplyKeepsWellFormed(bs1, e, t, rpm);
      if keep[0] {
        ApplyKeepsWellFormed(bs2, e, t, rpm);
        SameAfter(bs1, bs2, e, t, rpm);
        InvisibleFrom(Apply(bs1, e, rpm), Apply(bs2, e, rpm), es[1..], keep[1..], e.now, rpm);
        assert Kept(es, keep)[0] == e && Kept(es, keep)[1..] == Kept(es[1..], keep[1..]);
      } else {
        SilentAfter(bs1, bs2, e, t, rpm);
        assert WellFormed(bs2, e.now, rpm);
        InvisibleFrom(Apply(bs1, e, rpm), bs2, es[1..], keep[1..], e.now, rpm);
        assert Kept(es, keep) == Kept(es[1..], keep[1..]);
      }
    }
  }

  /** A limit below one call a minute rejects everything, so there nothing can be disturbed. */
  lemma {:induction false} NoLimitNoCalls(bs1: Buckets, bs2: Buckets, es: seq<Event>, keep: seq<bool>, rpm: int)
    requires rpm < 1 && |keep| == |es|
    ensures forall i | 0 <= i < |es| :: Outcomes(bs1, es, rpm)[i] != Accepted
    ensures Kept(Outcomes(bs1, es, rpm), keep) == Outcomes(bs2, Kept(es, keep), rpm)
    decreases |es|
  {
    if es != [] {
      var e := es[0];
      var rest := Kept(es[1..], keep[1..]);
      if keep[0] {
        assert Kept(es, keep) == [e] + rest && (([e] + rest)[1..]) == rest;
        NoLimitNoCalls(Apply(bs1, e, rpm), Apply(bs2, e, rpm), es[1..], keep[1..], rpm);
      } else {
        assert Kept(es, keep) == rest;
        NoLimitNoCalls(Apply(bs1, e, rpm), bs2, es[1..], keep[1..], rpm);
      }
      var os := Outcomes(bs1, es, rpm);
      assert os[1..] == Outcomes(Apply(bs1, e, rpm), es[1..], rpm);
      forall i | 0 <= i < |es| ensures os[i] != Accepted {
        if i > 0 { assert os[i] == os[1..][i - 1]; }
      }
    }
  }

  /** Garbage collection and rejected calls change no answer of any other call, wherever they stand in
      the run: leaving out any of them leaves every remaining answer as it was. */
  lemma {:induction false} CleanupAndRejectionsAreInvisible(
      bs: Buckets, es: seq<Event>, keep: seq<bool>, t: real, rpm: int)
    requires |keep| == |es| && Ordered(es, t) && WellFormed(bs, t, rpm)
    requires OnlySilentDropped(Outcomes(bs, es, rpm), keep)
    ensures Kept(Outcomes(bs, es, rpm), keep) == Outcomes(bs, Kept(es, keep), rpm)
  {
    if rpm >= 1 {
      InvisibleFrom(bs, bs, es, keep, t, rpm);
    } else {
      NoLimitNoCalls(bs, bs, es, keep, rpm);
    }
  }

  // ---------- how much gets through ----------

  /** The calls for key accepted at a time in [from, to]. */
  function AcceptedIn(es: seq<Event>, os: seq<Outcome>, key: string, from: real, to: real): nat
    requires |es| == |os|
  {
    if es == [] then 0
    else (if es[0].Allow? && es[0].key == key && from <= es[0].now <= to && os[0] == Accepted then 1 else 0)
         + AcceptedIn(es[1..], os[1..], key, from, to)
  }

  lemma {:induction false} NoneAfter(es: seq<Event>, os: seq<Outcome>, key: string, from: real, to: real, t: real)
    requires |es| == |os| && Ordered(es, t) && to < t
    ensures AcceptedIn(es, os, key, from, to) == 0
  {
    if es != [] {
      NoneAfter(es[1..], os[1..], key, from, to, es[0].now);
    }
  }

  /** What can still be accepted for key in [from, to], seen from time t. */
  function Budget(bs: Buckets, key: string, from: real, to: real, t: real, rpm: int): real {
    if t < from then Capacity(rpm) + Gain(to - from, rpm)
    else Level(bs, key, t, rpm) + Gain(to - t, rpm)
  }

  lemma BudgetStep(bs: Buckets, e: Event, key: string, from: real, to: real, t: real, rpm: int)
    requires rpm >= 1 && WellFormed(bs, t, rpm) && t <= e.now <= to && from <= to
    ensures Budget(Apply(bs, e, rpm), key, from, to, e.now, rpm)
            + (if from <= e.now then Taken(bs, e, key, rpm) else 0.0)
         <= Budget(bs, key, from, to, t, rpm)
  {
    LevelAfter(bs, e, key, t, rpm);
    LevelBounds(bs, key, t, e.now, rpm);
    LevelLater(bs, key, t, e.now, rpm);
    GainAdds(e.now - t, to - e.now, rpm);
    if from <= e.now {
      GainIsMonotone(to - e.now, to - from, rpm);
    }
  }

  lemma BudgetIsNonNegative(bs: Buckets, key: string, from: real, to: real, t: real, rpm: int)
    requires rpm >= 1 && WellFormed(bs, t, rpm) && t <= to && from <= to
    ensures Budget(bs, key, from, to, t, rpm) >= 0.0
  {
    LevelBounds(bs, key, t, t, rpm);
    GainIsNonNegative(to - t, rpm);
    GainIsNonNegative(to - from, rpm);
  }

  /** Inside the window, what gets accepted was there already or has been refilled. */
  lemma {:induction false} WindowFrom(
      bs: Buckets, es: seq<Event>, key: string, from: real, to: real, t: real, rpm: int)
    requires rpm >= 1 && Ordered(es, t) && WellFormed(bs, t, rpm) && t <= to && from <= to
    ensures AcceptedIn(es, Outcomes(bs, es, rpm), key, from, to) as real <= Budget(bs, key, from, to, t, rpm)
    decreases |es|
  {
    var os := Outcomes(bs, es, rpm);
    BudgetIsNonNegative(bs, key, from, to, t, rpm);
    if es != [] {
      var e := es[0];
      assert os[1..] == Outcomes(Apply(bs, e, rpm), es[1..], rpm);
      if to < e.now {
        NoneAfter(es[1..], os[1..], key, from, to, e.now);
      } else {
        ApplyKeepsWellFormed(bs, e, t, rpm);
        WindowFrom(Apply(bs, e, rpm), es[1..], key, from, to, e.now, rpm);
        BudgetStep(bs, e, key, from, to, t, rpm);
      }
    }
  }

  lemma {:induction false} NothingAccepted(es: seq<Event>, os: seq<Outcome>, key: string, from: real, to: real)
    requires |es| == |os| && forall i | 0 <= i < |os| :: os[i] != Accepted
    ensures AcceptedIn(es, os, key, from, to) == 0
  {
    if es != [] {
      NothingAccepted(es[1..], os[1..], key, from, to);
    }
  }

  lemma WindowBound(bs: Buckets, es: seq<Event>, key: string, from: real, to: real, t: real, rpm: int)
    requires rpm >= 1 && Ordered(es, t) && WellFormed(bs, t, rpm) && from <= to
    ensures AcceptedIn(es, Outcomes(bs, es, rpm), key, from, to) as real <= Capacity(rpm) + Gain(to - from, rpm)
  {
    GainIsNonNegative(to - from, rpm);
    if to < t {
      NoneAfter(es, Outcomes(bs, es, rpm), key, from, to, t);
    } else {
      WindowFrom(bs, es, key, from, to, t, rpm);
      BudgetBound(bs, key, from, to, t, rpm);
    }
  }

  /** There is never more to accept than a full bucket and what is refilled. */
  lemma BudgetBound(bs: Buckets, key: string, from: real, to: real, t: real, rpm: int)
    requires rpm >= 1 && WellFormed(bs, t, rpm) && from <= to && t <= to
    ensures Budget(bs, key, from, to, t, rpm) <= Capacity(rpm) + Gain(to - from, rpm)
  {
    GainIsNonNegative(to - from, rpm);
    LevelBounds(bs, key, t, t, rpm);
    if from <= t {
      GainIsMonotone(to - t, to - from, rpm);
    }
  }

  lemma GainPerMinute(d: real, rpm: int)
    ensures Gain(d, rpm) == rpm as real * d / 60.0
  {
    GainIsProduct(d, rpm);
  }

  /** Over any d seconds at most one full bucket plus what refills meanwhile gets through. */
  lemma RateBound(bs: Buckets, es: seq<Event>, key: string, from: real, d: real, t: real, rpm: int)
    requires rpm >= 1 && Ordered(es, t) && WellFormed(bs, t, rpm) && d >= 0.0
    ensures AcceptedIn(es, Outcomes(bs, es, rpm), key, from, from + d) as real
            <= rpm as real + rpm as real * d / 60.0
  {
    WindowBound(bs, es, key, from, from + d, t, rpm);
    assert from + d - from == d;
    GainPerMinute(d, rpm);
  }

  /** Without a positive limit nothing gets through. */
  lemma NothingWithoutLimit(bs: Buckets, es: seq<Event>, key: string, from: real, to: real, rpm: int)
    requires rpm < 1
    ensures AcceptedIn(es, Outcomes(bs, es, rpm), key, from, to) == 0
  {
    NoLimitNoCalls(bs, bs, es, seq(|es|, _ => true), rpm);
    NothingAccepted(es, Outcomes(bs, es, rpm), key, from, to);
  }

  /** Every call for key comes at free or later, and each at least gap after the one before. */
  predicate Spaced(es: seq<Event>, key: string, free: real, gap: real) {
    es == [] ||
    if es[0].Allow? && es[0].key == key
    then free <= es[0].now && Spaced(es[1..], key, es[0].now + gap, gap)
    else Spaced(es[1..], key, free, gap)
  }

  /** Key can spend a token at free, or now if free is past. */
  predicate Ready(bs: Buckets, key: string, free: real, t: real, rpm: int) {
    Level(bs, key, t, rpm) + (if t <= free then Gain(free - t, rpm) else 0.0) >= 1.0
  }

  lemma OneGap(rpm: int)
    requires rpm >= 1
    ensures Gain(60.0 / rpm as real, rpm) == 1.0
  {
    GainIsProduct(60.0 / rpm as real, rpm);
  }

  lemma ReadyStep(bs: Buckets, e: Event, key: string, free: real, t: real, rpm: int)
    requires rpm >= 1 && WellFormed(bs, t, rpm) && t <= e.now && Ready(bs, key, free, t, rpm)
    ensures free <= e.now ==> Level(bs, key, e.now, rpm) >= 1.0
    ensures Taken(bs, e, key, rpm) == 0.0 ==> Ready(Apply(bs, e, rpm), key, free, e.now, rpm)
  {
    LevelAfter(bs, e, key, t, rpm);
    LevelLater(bs, key, t, e.now, rpm);
    GainIsNonNegative(e.now - t, rpm);
    if free <= e.now {
      if t <= free {
        GainIsMonotone(free - t, e.now - t, rpm);
      }
      NoTimeNoGain(rpm);
    } else {
      GainIsNonNegative(free - e.now, rpm);
      GainAdds(e.now - t, free - e.now, rpm);
    }
  }

  lemma {:induction false} SpacedFrom(bs: Buckets, es: seq<Event>, key: string, free: real, t: real, rpm: int)
    requires rpm >= 1 && Ordered(es, t) && WellFormed(bs, t, rpm)
    requires Spaced(es, key, free, 60.0 / rpm as real) && Ready(bs, key, free, t, rpm)
    ensures forall i | 0 <= i < |es| && es[i].Allow? && es[i].key == key ::
              Outcomes(bs, es, rpm)[i] == Accepted
    decreases |es|
  {
    if es != [] {
      var e := es[0];
      var bs' := Apply(bs, e, rpm);
      var os := Outcomes(bs, es, rpm);
      assert os[1..] == Outcomes(bs', es[1..], rpm);
      ApplyKeepsWellFormed(bs, e, t, rpm);
      ReadyStep(bs, e, key, free, t, rpm);
      if e.Allow? && e.key == key {
        var gap := 60.0 / rpm as real;
        OneGap(rpm);
        LevelBounds(bs', key, e.now, e.now, rpm);
        assert e.now + gap - e.now == gap;
        SpacedFrom(bs', es[1..], key, e.now + gap, e.now, rpm);
      } else {
        SpacedFrom(bs', es[1..], key, free, e.now, rpm);
      }
      forall i | 0 <= i < |es| && es[i].Allow? && es[i].key == key
        ensures os[i] == Accepted
      {
        if i > 0 { assert os[i] == os[1..][i - 1] && es[i] == es[1..][i - 1]; }
      }
    }
  }

  /** A new client that waits 60/rpm seconds between its calls is never rejected, whatever others do. */
  lemma SpacedClientIsNeverRejected(bs: Buckets, es: seq<Event>, key: string, t: real, rpm: int)
    requires rpm >= 1 && Ordered(es, t) && WellFormed(bs, t, rpm) && key !in bs
    requires Spaced(es, key, t, 60.0 / rpm as real)
    ensures forall i | 0 <= i < |es| && es[i].Allow? && es[i].key == key ::
              Outcomes(bs, es, rpm)[i] == Accepted
  {
    RefillAgain(Bucket(Capacity(rpm), t), rpm);
    SpacedFrom(bs, es, key, t, t, rpm);
  }

  // ---------- exactly when a call is rejected ----------

  /** The buckets after all the events. */
  function After(bs: Buckets, es: seq<Event>, rpm: int): Buckets {
    if es == [] then bs else Apply(After(bs, es[..|es| - 1], rpm), es[|es| - 1], rpm)
  }

  lemma {:induction false} AfterFirst(bs: Buckets, es: seq<Event>, rpm: int)
    requires es != []
    ensures After(bs, es, rpm) == After(Apply(bs, es[0], rpm), es[1..], rpm)
    decreases |es|
  {
    if |es| > 1 {
      var front := es[..|es| - 1];
      AfterFirst(bs, front, rpm);
      assert es[1..][..|es| - 2] == front[1..];
    } else {
      assert es[..0] == [] && es[1..] == [];
      assert After(bs, es[..0], rpm) == bs;
    }
  }

  lemma {:induction false} OutcomeAt(bs: Buckets, es: seq<Event>, i: nat, rpm: int)
    requires i < |es|
    ensures Outcomes(bs, es, rpm)[i] == Answer(After(bs, es[..i], rpm), es[i], rpm)
    decreases |es|
  {
    var os := Outcomes(bs, es, rpm);
    if i > 0 {
      assert os[1..] == Outcomes(Apply(bs, es[0], rpm), es[1..], rpm);
      assert os[i] == os[1..][i - 1];
      OutcomeAt(Apply(bs, es[0], rpm), es[1..], i - 1, rpm);
      AfterFirst(bs, es[..i], rpm);
      assert es[..i][1..] == es[1..][..i - 1];
    }
  }

  lemma {:induction false} OrderedAt(es: seq<Event>, t: real, j: nat, i: nat)
    requires Ordered(es, t) && j <= i < |es|
    ensures t <= es[j].now <= es[i].now
    decreases |es|
  {
    if i > 0 {
      if j > 0 {
        OrderedAt(es[1..], es[0].now, j - 1, i - 1);
      } else {
        OrderedAt(es[1..], es[0].now, i - 1, i - 1);
      }
    }
  }

  lemma {:induction false} AfterIsWellFormed(bs: Buckets, es: seq<Event>, i: nat, t: real, rpm: int)
    requires Ordered(es, t) && WellFormed(bs, t, rpm) && i < |es|
    ensures WellFormed(After(bs, es[..i], rpm), es[i].now, rpm)
    ensures i > 0 ==> WellFormed(After(bs, es[..i], rpm), es[i - 1].now, rpm)
    decreases i
  {
    OrderedAt(es, t, i, i);
    if i > 0 {
      OrderedAt(es, t, i - 1, i);
      AfterIsWellFormed(bs, es, i - 1, t, rpm);
      assert es[..i][..i - 1] == es[..i - 1];
      ApplyKeepsWellFormed(After(bs, es[..i - 1], rpm), es[i - 1], es[i - 1].now, rpm);
    }
  }

  /** What key can spend when the i-th event comes. */
  function LevelAt(bs: Buckets, es: seq<Event>, key: string, i: nat, rpm: int): real
    requires i < |es|
  {
    Level(After(bs, es[..i], rpm), key, es[i].now, rpm)
  }

  /** The calls for key that were accepted from the j-th event on and before the i-th. */
  function AcceptedFrom(es: seq<Event>, os: seq<Outcome>, key: string, j: nat, i: nat): nat
    requires j <= i <= |es| == |os|
    decreases i
  {
    if i == j then 0
    else AcceptedFrom(es, os, key, j, i - 1)
         + if es[i - 1].Allow? && es[i - 1].key == key && os[i - 1] == Accepted then 1 else 0
  }

  /** From one event to the next. */
  lemma LevelNext(bs: Buckets, es: seq<Event>, key: string, i: nat, t: real, rpm: int)
    requires rpm >= 1 && Ordered(es, t) && WellFormed(bs, t, rpm) && 0 < i < |es|
    ensures var taken := AcceptedFrom(es, Outcomes(bs, es, rpm), key, i - 1, i) as real;
      LevelAt(bs, es, key, i, rpm)
      == Min(LevelAt(bs, es, key, i - 1, rpm) - taken + Gain(es[i].now - es[i - 1].now, rpm), Capacity(rpm))
  {
    var before, e := After(bs, es[..i - 1], rpm), es[i - 1];
    OrderedAt(es, t, i - 1, i);
    AfterIsWellFormed(bs, es, i - 1, t, rpm);
    AfterIsWellFormed(bs, es, i, t, rpm);
    assert es[..i][..i - 1] == es[..i - 1];
    OutcomeAt(bs, es, i - 1, rpm);
    LevelAfter(before, e, key, e.now, rpm);
    LevelLater(Apply(before, e, rpm), key, e.now, es[i].now, rpm);
  }

  lemma GainOver(es: seq<Event>, j: nat, i: nat, rpm: nat)
    requires j < i < |es|
    ensures Gain(es[i - 1].now - es[j].now, rpm) + Gain(es[i].now - es[i - 1].now, rpm)
         == Gain(es[i].now - es[j].now, rpm)
  {
    GainAdds(es[i - 1].now - es[j].now, es[i].now - es[i - 1].now, rpm);
    assert es[i - 1].now - es[j].now + (es[i].now - es[i - 1].now) == es[i].now - es[j].now;
  }

  lemma {:induction false} LevelAtMost(bs: Buckets, es: seq<Event>, key: string, j: nat, i: nat, t: real, rpm: int)
    requires rpm >= 1 && Ordered(es, t) && WellFormed(bs, t, rpm) && j <= i < |es|
    ensures LevelAt(bs, es, key, i, rpm)
         <= Capacity(rpm) + Gain(es[i].now - es[j].now, rpm)
            - AcceptedFrom(es, Outcomes(bs, es, rpm), key, j, i) as real
    decreases i
  {
    AfterIsWellFormed(bs, es, i, t, rpm);
    if i == j {
      NoTimeNoGain(rpm);
      LevelBounds(After(bs, es[..i], rpm), key, es[i].now, es[i].now, rpm);
    } else {
      LevelAtMost(bs, es, key, j, i - 1, t, rpm);
      LevelNext(bs, es, key, i, t, rpm);
      GainOver(es, j, i, rpm);
    }
  }

  /** There is an event at which the bucket was full: what has come in and gone out since is what is left. */
  lemma {:induction false} FullSince(bs: Buckets, es: seq<Event>, key: string, i: nat, t: real, rpm: int)
    returns (j: nat)
    requires rpm >= 1 && Ordered(es, t) && WellFormed(bs, t, rpm) && key !in bs && i < |es|
    ensures j <= i
    ensures LevelAt(bs, es, key, i, rpm)
         == Capacity(rpm) + Gain(es[i].now - es[j].now, rpm)
            - AcceptedFrom(es, Outcomes(bs, es, rpm), key, j, i) as real
    decreases i
  {
    NoTimeNoGain(rpm);
    j := i;
    if i == 0 {
      assert es[..0] == [];
    } else {
      var k := FullSince(bs, es, key, i - 1, t, rpm);
      LevelNext(bs, es, key, i, t, rpm);
      GainOver(es, k, i, rpm);
      if LevelAt(bs, es, key, i, rpm) != Capacity(rpm) {
        j := k;
      }
    }
  }

  /** The calls from the j-th event on are more than the limit lets through up to the i-th. */
  ghost predicate Exhausted(es: seq<Event>, os: seq<Outcome>, key: string, j: nat, i: nat, rpm: int)
    requires j <= i < |es| == |os|
  {
    AcceptedFrom(es, os, key, j, i) as real > rpm as real - 1.0 + rpm as real * (es[i].now - es[j].now) / 60.0
  }

  lemma ExhaustedIsGain(es: seq<Event>, os: seq<Outcome>, key: string, j: nat, i: nat, rpm: int)
    requires j <= i < |es| == |os|
    ensures Exhausted(es, os, key, j, i, rpm) <==>
      AcceptedFrom(es, os, key, j, i) as real > rpm as real - 1.0 + Gain(es[i].now - es[j].now, rpm)
  {
    GainPerMinute(es[i].now - es[j].now, rpm);
  }

  lemma RejectedIsLow(bs: Buckets, es: seq<Event>, key: string, i: nat, rpm: int)
    requires i < |es| && es[i].Allow? && es[i].key == key
    ensures Outcomes(bs, es, rpm)[i] == Rejected <==> LevelAt(bs, es, key, i, rpm) < 1.0
    ensures Outcomes(bs, es, rpm)[i] == Accepted <==> !(LevelAt(bs, es, key, i, rpm) < 1.0)
  {
    OutcomeAt(bs, es, i, rpm);
  }

  lemma RejectedSince(bs: Buckets, es: seq<Event>, key: string, i: nat, t: real, rpm: int) returns (j: nat)
    requires rpm >= 1 && Ordered(es, t) && WellFormed(bs, t, rpm) && key !in bs
    requires i < |es| && es[i].Allow? && es[i].key == key && Outcomes(bs, es, rpm)[i] == Rejected
    ensures j <= i && Exhausted(es, Outcomes(bs, es, rpm), key, j, i, rpm)
  {
    j := FullSince(bs, es, key, i, t, rpm);
    RejectedIsLow(bs, es, key, i, rpm);
    ExhaustedIsGain(es, Outcomes(bs, es, rpm), key, j, i, rpm);
  }

  lemma ExhaustedRejects(bs: Buckets, es: seq<Event>, key: string, j: nat, i: nat, t: real, rpm: int)
    requires rpm >= 1 && Ordered(es, t) && WellFormed(bs, t, rpm)
    requires j <= i < |es| && es[i].Allow? && es[i].key == key
    requires Exhausted(es, Outcomes(bs, es, rpm), key, j, i, rpm)
    ensures Outcomes(bs, es, rpm)[i] == Rejected
  {
    LevelAtMost(bs, es, key, j, i, t, rpm);
    RejectedIsLow(bs, es, key, i, rpm);
    ExhaustedIsGain(es, Outcomes(bs, es, rpm), key, j, i, rpm);
  }

  /** A call of a client that the limiter did not know at the beginning is rejected exactly when in some
      window of d seconds that ends with it more than rpm - 1 + rpm*d/60 calls of the client were accepted,
      whatever other clients do and however often the collector runs. */
  lemma {:induction false} RejectedExactlyWhen(bs: Buckets, es: seq<Event>, key: string, i: nat, t: real, rpm: int)
    requires rpm >= 1 && Ordered(es, t) && WellFormed(bs, t, rpm) && key !in bs
    requires i < |es| && es[i].Allow? && es[i].key == key
    ensures var os := Outcomes(bs, es, rpm);
      os[i] == Rejected <==> exists j | 0 <= j <= i :: Exhausted(es, os, key, j, i, rpm)
  {
    var os := Outcomes(bs, es, rpm);
    if os[i] == Rejected {
      var j := RejectedSince(bs, es, key, i, t, rpm);
      assert Exhausted(es, os, key, j, i, rpm);
    }
    if j :| 0 <= j <= i && Exhausted(es, os, key, j, i, rpm) {
      ExhaustedRejects(bs, es, key, j, i, t, rpm);
    }
  }

  /** The calls for key before the i-th event. */
  function CallsBefore(es: seq<Event>, key: string, i: nat): nat
    requires i <= |es|
  {
    if i == 0 then 0 else CallsBefore(es, key, i - 1) + if es[i - 1].Allow? && es[i - 1].key == key then 1 else 0
  }

  lemma {:induction false} AcceptedAreCalls(es: seq<Event>, os: seq<Outcome>, key: string, j: nat, i: nat)
    requires j <= i <= |es| == |os|
    ensures AcceptedFrom(es, os, key, j, i) <= CallsBefore(es, key, i)
    decreases i
  {
    if i > j {
      AcceptedAreCalls(es, os, key, j, i - 1);
    }
  }

  /** The first rpm calls of a new client get through, whenever they come. */
  lemma {:induction false} BurstIsAccepted(bs: Buckets, es: seq<Event>, key: string, i: nat, t: real, rpm: int)
    requires rpm >= 1 && Ordered(es, t) && WellFormed(bs, t, rpm) && key !in bs
    requires i < |es| && es[i].Allow? && es[i].key == key && CallsBefore(es, key, i) < rpm
    ensures Outcomes(bs, es, rpm)[i] == Accepted
  {
    RejectedIsLow(bs, es, key, i, rpm);
    if Outcomes(bs, es, rpm)[i] == Rejected {
      var j := RejectedSince(bs, es, key, i, t, rpm);
      NotExhausted(es, Outcomes(bs, es, rpm), key, j, i, t, rpm);
    }
  }

  lemma NotExhausted(es: seq<Event>, os: seq<Outcome>, key: string, j: nat, i: nat, t: real, rpm: int)
    requires rpm >= 1 && Ordered(es, t) && j <= i < |es| == |os| && CallsBefore(es, key, i) < rpm
    ensures !Exhausted(es, os, key, j, i, rpm)
  {
    AcceptedAreCalls(es, os, key, j, i);
    OrderedAt(es, t, j, i);
    GainIsNonNegative(es[i].now - es[j].now, rpm);
    ExhaustedIsGain(es, os, key, j, i, rpm);
    assert AcceptedFrom(es, os, key, j, i) <= rpm - 1;
  }

  // ---------- the limiter ----------

  class TokenBucket {
    var tokens: real
    const maxTokens: real
    const refillRate: real
    var lastRefill: real

    constructor (maxTokens: real, refillRate: real, now: real)
      ensures tokens == this.maxTokens == maxTokens
      ensures this.refillRate == refillRate && lastRefill == now
    {
      this.tokens, this.maxTokens := maxTokens, maxTokens;
      this.refillRate, this.lastRefill := refillRate, now;
    }

    ghost function Value(): Bucket
      reads this
    {
      Bucket(tokens, lastRefill)
    }

    method Refill(now: real, ghost rpm: int)
      requires maxTokens == Capacity(rpm) && refillRate == rpm as real / 60.0
      modifies this
      ensures Value() == Refilled(old(Value()), now, rpm)
    {
      var elapsed := now - lastRefill;
      GainIsProduct(elapsed, rpm);
      tokens := tokens + elapsed * refillRate;
      if tokens > maxTokens {
        tokens := maxTokens;
      }
      lastRefill := now;
    }
  }

  class RateLimiter {
    const requestsPerMin: int
    var buckets: map<string, TokenBucket>

    ghost predicate Valid()
      reads this, buckets.Values
    {
      && (forall k | k in buckets ::
            buckets[k].maxTokens == Capacity(requestsPerMin) && buckets[k].refillRate == requestsPerMin as real / 60.0)
      && (forall k, l | k in buckets && l in buckets && k != l :: buckets[k] != buckets[l])
    }

    ghost function View(): Buckets
      reads this, buckets.Values
    {
      map k | k in buckets :: buckets[k].Value()
    }

    constructor (requestsPerMin: int)
      ensures Valid() && View() == map[] && this.requestsPerMin == requestsPerMin
    {
      this.requestsPerMin := requestsPerMin;
      buckets := map[];
    }

    method Allow(key: string, now: real) returns (ok: bool)
      requires Valid()
      modifies this, buckets.Values
      ensures Valid() && fresh(buckets.Values - old(buckets.Values))
      ensures View() == Apply(old(View()), Event.Allow(key, now), requestsPerMin)
      ensures ok <==> Answer(old(View()), Event.Allow(key, now), requestsPerMin) == Accepted
    {
      GetOrCreate(key, now);
      ok := TakeFrom(key, now);
    }

    /** Refills the bucket and takes a token out of it when there is one. */
    method TakeFrom(key: string, now: real) returns (ok: bool)
      requires Valid() && key in buckets
      modifies buckets.Values
      ensures Valid()
      ensures View() == old(View())[key := Spend(Refilled(old(View())[key], now, requestsPerMin))]
      ensures ok <==> !(Refilled(old(View())[key], now, requestsPerMin).tokens < 1.0)
    {
      ghost var before := View();
      var bucket := buckets[key];
      bucket.Refill(now, requestsPerMin);
      if bucket.tokens < 1.0 {
        ok := false;
      } else {
        bucket.tokens := bucket.tokens - 1.0;
        ok := true;
      }
      assert forall k | k in buckets && k != key :: buckets[k] != bucket;
      assert View() == before[key := bucket.Value()];
    }

    method GetOrCreate(key: string, now: real)
      requires Valid()
      modifies this`buckets
      ensures Valid() && fresh(buckets.Values - old(buckets.Values)) && key in buckets
      ensures View() == if key in old(buckets) then old(View())
                        else old(View())[key := Bucket(Capacity(requestsPerMin), now)]
    {
      if key !in buckets {
        var maxTokens := requestsPerMin as real;
        var created := new TokenBucket(maxTokens, maxTokens / 60.0, now);
        buckets := buckets[key := created];
      }
    }

    method Cleanup(now: real)
      requires Valid()
      modifies this
      ensures Valid() && buckets.Values <= old(buckets.Values)
      ensures forall k :: k in buckets <==> k in old(buckets) && !(old(buckets[k].lastRefill) < now - 600.0)
      ensures View() == Apply(old(View()), Event.Cleanup(now), requestsPerMin)
    {
      var cutoff := now - 600.0;
      var todo := buckets.Keys;
      ghost var all := buckets;
      while todo != {}
        invariant todo <= all.Keys && buckets.Keys <= all.Keys
        invariant forall k | k in all :: k in buckets <==> k in todo || !(all[k].lastRefill < cutoff)
        invariant forall k | k in buckets :: buckets[k] == all[k]
      {
        var key :| key in todo;
        todo := todo - {key};
        if buckets[key].lastRefill < cutoff {
          buckets := buckets - {key};
        }
      }
      assert forall k | k in all :: k in buckets <==> !(all[k].lastRefill < cutoff);
    }
  }
}
