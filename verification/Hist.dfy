/** The log-linear latency histogram: 90 buckets a decade from one microsecond to ten seconds,
    an underflow bucket in front and an overflow bucket behind. Durations are nanoseconds. */
module Hist {
  import opened Arithmetic

  const DECADES := 7
  const PER_DECADE := 90
  const BUCKETS := DECADES * PER_DECADE + 2
  const OVERFLOW := BUCKETS - 1
  const MICRO := 1_000
  const TEN_SECONDS := 10_000_000_000

  // ---- buckets --------------------------------------------------------------------------------

  /** `m` tenths of the start of decade `k`: 100 ns in the first, ten times more in each next. */
  function Edge(k: nat, m: nat): nat { if k == 0 then 100 * m else 10 * Edge(k - 1, m) }

  /** The exclusive upper bound of a bucket; the overflow bucket saturates. */
  function Upper(i: int): nat {
    if i <= 0 then MICRO
    else if i >= OVERFLOW then TEN_SECONDS
    else Edge((i - 1) / PER_DECADE, (i - 1) % PER_DECADE + 11)
  }

  function FirstAbove(d: int, i: nat): (r: nat)
    requires i <= OVERFLOW
    decreases OVERFLOW - i
  {
    if i == OVERFLOW || d < Upper(i) then i else FirstAbove(d, i + 1)
  }

  /** The bucket of a duration: the first whose upper bound lies above it. */
  function Index(d: int): nat { FirstAbove(d, 0) }

  lemma {:induction false} EdgeNext(k: nat, m: nat)
    ensures Edge(k, m + 1) == Edge(k, m) + Edge(k, 1) && Edge(k, 1) > 0
    ensures m >= 10 ==> 10 * Edge(k, m + 1) <= 11 * Edge(k, m)
  {
    if k > 0 { EdgeNext(k - 1, m); }
  }

  /** A decade ends where the next begins. */
  lemma {:induction false} EdgeCarries(k: nat)
    ensures Edge(k, 100) == Edge(k + 1, 10)
  {
    if k > 0 { EdgeCarries(k - 1); }
  }

  lemma Place(k: nat, r: nat)
    requires r < PER_DECADE
    ensures (k * PER_DECADE + r) / PER_DECADE == k && (k * PER_DECADE + r) % PER_DECADE == r
  {
  }

  /** The bucket of mantissa `m` in decade `k` reaches from `m` to `m + 1`. */
  lemma BoundsAt(k: nat, m: nat)
    requires k < DECADES && 10 <= m < 100
    ensures Upper(k * PER_DECADE + m - 9) == Edge(k, m + 1)
    ensures Upper(k * PER_DECADE + m - 10) == Edge(k, m)
  {
    Place(k, m - 10);
    if m > 10 {
      Place(k, m - 11);
    } else if k > 0 {
      Place(k - 1, PER_DECADE - 1);
      EdgeCarries(k - 1);
    }
  }

  /** Bucket bounds grow, by at most a tenth. */
  lemma UpperGrows(i: nat)
    requires 0 < i < OVERFLOW
    ensures Upper(i - 1) < Upper(i)
    ensures 10 * Upper(i) <= 11 * Upper(i - 1)
  {
    var k, m := (i - 1) / PER_DECADE, (i - 1) % PER_DECADE + 10;
    BoundsAt(k, m);
    EdgeNext(k, m);
  }

  lemma {:induction false} UpperMonotone(i: nat, j: nat)
    requires i <= j < OVERFLOW
    ensures Upper(i) <= Upper(j)
  {
    if i < j {
      UpperMonotone(i, j - 1);
      UpperGrows(j);
    }
  }

  lemma LastUpper()
    ensures Upper(OVERFLOW - 1) == TEN_SECONDS
  {
    BoundsAt(6, 99);
  }

  lemma {:induction false} FirstAboveBounds(d: int, i: nat)
    requires i <= OVERFLOW && (i > 0 ==> Upper(i - 1) <= d)
    ensures var r := FirstAbove(d, i);
      i <= r <= OVERFLOW && (r > 0 ==> Upper(r - 1) <= d) && (r < OVERFLOW ==> d < Upper(r))
    decreases OVERFLOW - i
  {
    if i < OVERFLOW && d >= Upper(i) {
      FirstAboveBounds(d, i + 1);
    }
  }

  /** A duration lies between the bounds of its bucket, and of no other. */
  lemma IndexBounds(d: int)
    ensures var r := Index(d);
      r <= OVERFLOW && (r > 0 ==> Upper(r - 1) <= d) && (r < OVERFLOW ==> d < Upper(r))
  {
    FirstAboveBounds(d, 0);
  }

  lemma IndexUnique(d: int, i: nat)
    requires i < OVERFLOW && d < Upper(i) && (i > 0 ==> Upper(i - 1) <= d)
    ensures Index(d) == i
  {
    IndexBounds(d);
    var r := Index(d);
    if r < i {
      UpperMonotone(r, i - 1);
    } else if i < r {
      UpperMonotone(i, r - 1);
    }
  }

  lemma IndexMonotone(d: int, e: int)
    requires d <= e
    ensures Index(d) <= Index(e)
  {
    IndexBounds(d);
    IndexBounds(e);
    if Index(e) < Index(d) {
      UpperMonotone(Index(e), Index(d) - 1);
    }
  }

  /** The reported bound is above the duration, and within a tenth of it in the covered range. */
  lemma UpperIsClose(d: int)
    ensures d < TEN_SECONDS ==> d < Upper(Index(d))
    ensures d >= TEN_SECONDS <==> Index(d) == OVERFLOW
    ensures MICRO <= d < TEN_SECONDS ==> 10 * Upper(Index(d)) <= 11 * d
  {
    IndexBounds(d);
    LastUpper();
    var i := Index(d);
    if i < OVERFLOW {
      UpperMonotone(i, OVERFLOW - 1);
      if i > 0 { UpperGrows(i); }
    }
  }

  /** Whatever lies beyond the range is reported as ten seconds, whatever lies before it as one
      microsecond. */
  lemma Saturates(i: int)
    ensures i >= OVERFLOW ==> Upper(i) == 10_000_000_000
    ensures i <= 0 ==> Upper(i) == 1_000
  {
  }

  lemma EdgeTop()
    ensures Edge(DECADES, 10) == TEN_SECONDS
  {
    assert Edge(7, 10) == TEN_SECONDS;
  }

  /** The bucket by decade and mantissa. */
  method HistIndex(d: int) returns (i: nat)
    ensures i == Index(d) && i < BUCKETS
  {
    UpperIsClose(d);
    IndexBounds(d);
    if d < MICRO {
      return 0;
    }
    if d >= TEN_SECONDS {
      return OVERFLOW;
    }
    var base, k := 1000, 0;
    while d >= base * 10
      invariant StartsDecade(base, k) && base <= d && k < DECADES
      decreases d - base
    {
      NextDecade(base, k);
      base := base * 10;
      k := k + 1;
    }
    var m := d / (base / 10);
    BucketOf(d, k, m);
    i := 1 + k * PER_DECADE + (m - 10);
  }

  ghost predicate StartsDecade(base: nat, k: nat) { base == 10 * Edge(k, 1) }

  lemma NextDecade(base: nat, k: nat)
    requires StartsDecade(base, k) && k < DECADES
    ensures StartsDecade(base * 10, k + 1) && base > 0
    ensures k + 1 == DECADES ==> base * 10 == TEN_SECONDS
  {
    EdgeNext(k, 1);
    EdgeTimes(DECADES, 10);
    EdgeTop();
  }

  lemma {:induction false} EdgeTimes(k: nat, m: nat)
    ensures Edge(k, m) == m * Edge(k, 1)
  {
    if k > 0 { EdgeTimes(k - 1, m); }
  }

  lemma Mantissa(d: int, step: nat, m: int)
    requires step > 0 && 10 * step <= d < 100 * step && m == d / step
    ensures 10 <= m < 100 && m * step <= d < m * step + step
  {
    assert d == m * step + d % step;
    TimesMonotone(m + 1, 10, step);
    TimesMonotone(100, m, step);
  }

  lemma BucketOf(d: int, k: nat, m: int)
    requires k < DECADES && 10 * Edge(k, 1) <= d < 100 * Edge(k, 1) && m == d / Edge(k, 1)
    ensures 10 <= m < 100 && Index(d) == k * PER_DECADE + m - 9
  {
    Mantissa(d, Edge(k, 1), m);
    EdgeTimes(k, m);
    EdgeNext(k, m);
    BoundsAt(k, m);
    IndexUnique(d, k * PER_DECADE + m - 9);
  }

  /** The upper bound of a bucket by repeated multiplication. */
  method HistUpper(i: int) returns (d: nat)
    ensures d == Upper(i)
  {
    if i <= 0 {
      return MICRO;
    }
    if i >= OVERFLOW {
      return TEN_SECONDS;
    }
    var k, m := (i - 1) / PER_DECADE, (i - 1) % PER_DECADE + 10;
    var step := 100;
    for j := 0 to k
      invariant step == Edge(j, 1)
    {
      step := step * 10;
    }
    d := (m + 1) * step;
    EdgeTimes(k, m + 1);
  }

  // ---- counting observations ------------------------------------------------------------------

  /** How many observations lie in bucket `i`, and in the buckets up to `i`. */
  function InBucket(obs: seq<int>, i: int): nat {
    if obs == [] then 0 else InBucket(obs[1..], i) + if Index(obs[0]) == i then 1 else 0
  }

  function UpToBucket(obs: seq<int>, i: int): nat {
    if obs == [] then 0 else UpToBucket(obs[1..], i) + if Index(obs[0]) <= i then 1 else 0
  }

  /** How many observations are below `v`, and at most `v`. */
  function Smaller(obs: seq<int>, v: int): nat {
    if obs == [] then 0 else Smaller(obs[1..], v) + if obs[0] < v then 1 else 0
  }

  function AtMost(obs: seq<int>, v: int): nat {
    if obs == [] then 0 else AtMost(obs[1..], v) + if obs[0] <= v then 1 else 0
  }

  /** `v` is at place `rank` when the observations are sorted. */
  predicate HasRank(obs: seq<int>, v: int, rank: nat) {
    v in obs && Smaller(obs, v) < rank <= AtMost(obs, v)
  }

  lemma {:induction false} UpToNext(obs: seq<int>, i: int)
    ensures UpToBucket(obs, i) == UpToBucket(obs, i - 1) + InBucket(obs, i)
  {
    if obs != [] { UpToNext(obs[1..], i); }
  }

  lemma {:induction false} UpToAll(obs: seq<int>)
    ensures UpToBucket(obs, -1) == 0 && UpToBucket(obs, OVERFLOW) == |obs|
  {
    if obs != [] {
      IndexBounds(obs[0]);
      UpToAll(obs[1..]);
    }
  }

  lemma {:induction false} InBucketConcat(a: seq<int>, b: seq<int>, i: int)
    ensures InBucket(a + b, i) == InBucket(a, i) + InBucket(b, i)
  {
    if a == [] {
      assert a + b == b;
    } else {
      assert (a + b)[1..] == a[1..] + b;
      InBucketConcat(a[1..], b, i);
    }
  }

  /** Everything up to the bucket below `v`'s is smaller than `v`; everything at most `v` is
      in a bucket up to its own. */
  lemma {:induction false} BucketsAndOrder(obs: seq<int>, v: int, i: int)
    ensures i < Index(v) ==> UpToBucket(obs, i) <= Smaller(obs, v)
    ensures Index(v) <= i ==> AtMost(obs, v) <= UpToBucket(obs, i)
  {
    if obs != [] {
      BucketsAndOrder(obs[1..], v, i);
      if obs[0] <= v { IndexMonotone(obs[0], v); } else { IndexMonotone(v, obs[0]); }
    }
  }

  /** The bucket where the running count first reaches a rank holds that observation. */
  lemma RankInBucket(obs: seq<int>, v: int, rank: nat, i: int)
    requires HasRank(obs, v, rank) && UpToBucket(obs, i - 1) < rank <= UpToBucket(obs, i)
    ensures Index(v) == i
  {
    BucketsAndOrder(obs, v, i);
    BucketsAndOrder(obs, v, i - 1);
  }

  lemma {:induction false} CountsAgree(obs: seq<int>, u: int, w: int)
    requires u < w && forall x <- obs :: x < w ==> x <= u
    ensures AtMost(obs, u) == Smaller(obs, w)
  {
    if obs != [] {
      assert obs[0] in obs && forall x <- obs[1..] :: x in obs;
      CountsAgree(obs[1..], u, w);
    }
  }

  lemma {:induction false} SmallerThanAtMost(obs: seq<int>, v: int)
    ensures Smaller(obs, v) <= AtMost(obs, v)
    ensures v in obs ==> Smaller(obs, v) < AtMost(obs, v)
  {
    if obs != [] { SmallerThanAtMost(obs[1..], v); }
  }

  lemma {:induction false} GreatestBelow(obs: seq<int>, w: int) returns (u: int)
    requires Smaller(obs, w) > 0
    ensures u in obs && u < w && forall x <- obs :: x < w ==> x <= u
  {
    assert obs == [obs[0]] + obs[1..];
    if Smaller(obs[1..], w) == 0 {
      u := obs[0];
      NoneBelow(obs[1..], w);
    } else {
      u := GreatestBelow(obs[1..], w);
      if u < obs[0] < w { u := obs[0]; }
    }
  }

  lemma {:induction false} NoneBelow(obs: seq<int>, w: int)
    requires Smaller(obs, w) == 0
    ensures forall x <- obs :: x >= w
  {
    if obs != [] {
      assert obs == [obs[0]] + obs[1..];
      NoneBelow(obs[1..], w);
    }
  }

  lemma {:induction false} AllBelow(obs: seq<int>, w: int)
    requires forall x <- obs :: x < w
    ensures Smaller(obs, w) == |obs|
  {
    if obs != [] {
      assert obs[0] in obs && forall x <- obs[1..] :: x in obs;
      AllBelow(obs[1..], w);
    }
  }

  lemma {:induction false} Bounded(obs: seq<int>) returns (w: int)
    ensures forall x <- obs :: x < w
  {
    w := 0;
    if obs != [] {
      assert obs == [obs[0]] + obs[1..];
      w := Bounded(obs[1..]);
      if w <= obs[0] { w := obs[0] + 1; }
    }
  }

  lemma {:induction false} RankBelow(obs: seq<int>, rank: nat, w: int) returns (v: int)
    requires 1 <= rank <= Smaller(obs, w)
    ensures HasRank(obs, v, rank)
    decreases Smaller(obs, w)
  {
    v := GreatestBelow(obs, w);
    CountsAgree(obs, v, w);
    SmallerThanAtMost(obs, v);
    if Smaller(obs, v) >= rank {
      v := RankBelow(obs, rank, v);
    }
  }

  /** Every rank up to the count has exactly one value. */
  lemma RankExists(obs: seq<int>, rank: nat) returns (v: int)
    requires 1 <= rank <= |obs|
    ensures HasRank(obs, v, rank) && forall u :: HasRank(obs, u, rank) ==> u == v
  {
    var w := Bounded(obs);
    AllBelow(obs, w);
    v := RankBelow(obs, rank, w);
    forall u | HasRank(obs, u, rank) ensures u == v {
      AtMostBelow(obs, u, v);
      AtMostBelow(obs, v, u);
    }
  }

  lemma {:induction false} AtMostBelow(obs: seq<int>, u: int, v: int)
    ensures u < v ==> AtMost(obs, u) <= Smaller(obs, v)
  {
    if obs != [] { AtMostBelow(obs[1..], u, v); }
  }

  // ---- the histogram --------------------------------------------------------------------------

  /** The rank a quantile asks for: ceil(q * total), at least 1 and at most the total.
      `q` is `num / den`; None is not-a-number. */
  datatype Quantile = NaN | Q(num: int, den: nat)

  function Rank(q: Quantile, total: nat): (r: nat)
    requires total > 0 && (q.Q? ==> q.den > 0)
    ensures 1 <= r <= total
  {
    var exact := if q.NaN? || q.num <= 0 then 0 else (q.num * total + q.den - 1) / q.den;
    if exact < 1 then 1 else if exact > total then total else exact
  }

  /** A proper quantile is the smallest rank that covers that share of the observations. */
  lemma RankIsCeiling(q: Quantile, total: nat)
    requires total > 0 && q.Q? && 0 < q.num <= q.den
    ensures (Rank(q, total) - 1) * q.den < q.num * total <= Rank(q, total) * q.den
  {
    var x, r := q.num * total, (q.num * total + q.den - 1) / q.den;
    assert x > 0;
    assert x + q.den - 1 == r * q.den + (x + q.den - 1) % q.den;
    TimesMonotone(r, 0, q.den);
    TimesMonotone(total, r - 1, q.den);
    TimesMonotone(q.num, q.den, total);
  }

  /** Not a number and nothing ask for the smallest observation, everything for the largest. */
  lemma RankEnds(q: Quantile, total: nat)
    requires total > 0 && (q.Q? ==> q.den > 0)
    ensures q.NaN? || q.num <= 0 ==> Rank(q, total) == 1
    ensures q.Q? && q.num >= q.den ==> Rank(q, total) == total
  {
    if q.Q? && q.num >= q.den {
      TimesMonotone(q.den, q.num, total);
      var x := q.num * total + q.den - 1;
      assert x == (x / q.den) * q.den + x % q.den;
      TimesMonotone(x / q.den + 1, total, q.den);
    }
  }

  class Histogram {
    const b: array<nat>
    ghost var obs: seq<int>

    ghost predicate Valid()
      reads this, b
    {
      b.Length == BUCKETS && forall i :: 0 <= i < BUCKETS ==> b[i] == InBucket(obs, i)
    }

    constructor ()
      ensures Valid() && fresh(b) && obs == []
    {
      b := new nat[BUCKETS](_ => 0);
      obs := [];
    }

    method Record(d: int)
      requires Valid()
      modifies this, b
      ensures Valid() && obs == old(obs) + [d]
    {
      var i := HistIndex(d);
      b[i] := b[i] + 1;
      forall j | 0 <= j < BUCKETS ensures InBucket(obs + [d], j) == InBucket(obs, j) + if j == i then 1 else 0 {
        InBucketConcat(obs, [d], j);
        assert [d][1..] == [] && InBucket([d], j) == if j == i then 1 else 0;
      }
      obs := obs + [d];
    }

    method Count() returns (n: nat)
      requires Valid()
      ensures n == |obs|
    {
      n := 0;
      UpToAll(obs);
      for i := 0 to BUCKETS
        invariant n == UpToBucket(obs, i - 1)
      {
        UpToNext(obs, i);
        n := n + b[i];
      }
    }

    /** Above the observation of that rank, by at most a tenth in the covered range; ten
        seconds and more saturate. */
    method QuantileOf(q: Quantile) returns (d: nat, ghost v: int)
      requires Valid() && (q.Q? ==> q.den > 0)
      ensures obs == [] ==> d == 0
      ensures obs != [] ==> HasRank(obs, v, Rank(q, |obs|)) && d == Upper(Index(v))
      ensures obs != [] && v < TEN_SECONDS ==> v < d
      ensures obs != [] && MICRO <= v < TEN_SECONDS ==> 10 * d <= 11 * v
      ensures obs != [] && v >= TEN_SECONDS ==> d == TEN_SECONDS
    {
      var total := Count();
      if total == 0 {
        return 0, 0;
      }
      var rank := Rank(q, total);
      v := RankExists(obs, rank);
      UpToAll(obs);
      UpperIsClose(v);
      var cum := 0;
      for i := 0 to BUCKETS
        invariant cum == UpToBucket(obs, i - 1) && cum < rank
      {
        UpToNext(obs, i);
        cum := cum + b[i];
        if cum >= rank {
          RankInBucket(obs, v, rank, i);
          d := HistUpper(i);
          return;
        }
      }
      assert false;
    }

    /** The histogram of both lists of observations; `o` may be this one. */
    method Merge(o: Histogram)
      requires Valid() && o.Valid() && (o == this || o.b != b)
      modifies this, b
      ensures Valid() && obs == old(obs) + old(o.obs)
      ensures o != this ==> o.Valid() && o.obs == old(o.obs)
    {
      for i := 0 to BUCKETS
        invariant obs == old(obs) && o.obs == old(o.obs)
        invariant forall j :: 0 <= j < i ==> b[j] == old(b[j]) + old(o.b[j])
        invariant forall j :: i <= j < BUCKETS ==> b[j] == old(b[j])
        invariant o != this ==> o.b[..] == old(o.b[..])
      {
        if o.b[i] != 0 {
          b[i] := b[i] + o.b[i];
        }
      }
      forall j | 0 <= j < BUCKETS ensures InBucket(old(obs) + old(o.obs), j) == b[j] {
        InBucketConcat(old(obs), old(o.obs), j);
      }
      obs := obs + o.obs;
    }

    method Reset()
      requires Valid()
      modifies this, b
      ensures Valid() && obs == []
    {
      for i := 0 to BUCKETS
        invariant forall j :: 0 <= j < i ==> b[j] == 0
      {
        b[i] := 0;
      }
      obs := [];
    }
  }
}
