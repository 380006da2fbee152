/** The arrival ledger of one voice stream: 24-bit wire sequence numbers are unwrapped
    against the highest one seen and ticked off in a bit set. */
module Ledger {

  const WRAP := 0x100_0000
  const MAX64 := 0x1_0000_0000_0000_0000

  function Dist(a: nat, b: nat): nat { if a > b then a - b else b - a }

  // ---- unwrapping -----------------------------------------------------------------------------

  /** A representable value that goes on the wire as `s`. */
  predicate Candidate(v: nat, s: nat) { v < MAX64 && v % WRAP == s % WRAP }

  function Unwrapped(ref: nat, s: nat): nat {
    var low, hi := s % WRAP, ref - ref % WRAP;
    var below := if hi >= WRAP && Dist(hi - WRAP + low, ref) < Dist(hi + low, ref) then hi - WRAP + low else hi + low;
    var above := (hi + WRAP) % MAX64 + low;
    if Dist(above, ref) < Dist(below, ref) then above else below
  }

  method Unwrap24(ref: nat, s: nat) returns (best: nat)
    requires ref < MAX64
    ensures best == Unwrapped(ref, s)
    ensures Candidate(best, s)
    ensures forall v :: Candidate(v, s) ==> Dist(best, ref) <= Dist(v, ref)
  {
    var low := s % WRAP;
    var hi := ref - ref % WRAP;
    best := hi + low;
    var bestD := Dist(best, ref);
    if hi >= WRAP {
      var c := hi - WRAP + low;
      if Dist(c, ref) < bestD {
        best, bestD := c, Dist(c, ref);
      }
    }
    var c := (hi + WRAP) % MAX64 + low;
    if Dist(c, ref) < bestD {
      best := c;
    }
    UnwrappedIsNearest(ref, s);
  }

  /** Values with the same low bits are a whole wrap apart. */
  lemma SameLow(v: nat, hi: nat, low: nat)
    requires hi % WRAP == 0 && low < WRAP && v % WRAP == low
    ensures v < hi + low ==> v <= hi - WRAP + low
    ensures v > hi + low ==> v >= hi + WRAP + low
  {
    var q, h := v / WRAP, hi / WRAP;
    assert v == q * WRAP + low && hi == h * WRAP;
  }

  lemma AboveWraps(hi: nat)
    requires hi % WRAP == 0 && hi < MAX64
    ensures hi + WRAP <= MAX64
    ensures (hi + WRAP) % MAX64 == if hi + WRAP == MAX64 then 0 else hi + WRAP
  {
    assert MAX64 == 0x100_0000_0000 * WRAP;
    assert hi == hi / WRAP * WRAP;
  }

  /** The three values the unwrapping compares, by their distance from the reference. */
  lemma ThreeCandidates(ref: nat, low: nat, hi: nat, v: nat, u: nat)
    requires low < WRAP && hi <= ref < hi + WRAP && ref < MAX64 && (hi == 0 || hi >= WRAP)
    requires v <= hi - WRAP + low || v == hi + low || v >= hi + WRAP + low
    requires v >= hi + WRAP + low ==> hi + WRAP < MAX64
    requires u == Chosen(ref, low, hi)
    ensures Dist(u, ref) <= Dist(v, ref)
  {
  }

  function Chosen(ref: nat, low: nat, hi: nat): nat {
    var below := if hi >= WRAP && Dist(hi - WRAP + low, ref) < Dist(hi + low, ref) then hi - WRAP + low else hi + low;
    var above := if hi + WRAP == MAX64 then low else hi + WRAP + low;
    if Dist(above, ref) < Dist(below, ref) then above else below
  }

  /** No representable value with these low bits is nearer. */
  lemma UnwrappedIsNearest(ref: nat, s: nat)
    requires ref < MAX64
    ensures Candidate(Unwrapped(ref, s), s)
    ensures forall v :: Candidate(v, s) ==> Dist(Unwrapped(ref, s), ref) <= Dist(v, ref)
  {
    var low, hi := s % WRAP, ref - ref % WRAP;
    HighPart(ref);
    AboveWraps(hi);
    assert Unwrapped(ref, s) == Chosen(ref, low, hi);
    ChosenIsCandidate(ref, low, hi);
    forall v | Candidate(v, s) ensures Dist(Unwrapped(ref, s), ref) <= Dist(v, ref) {
      SameLow(v, hi, low);
      ThreeCandidates(ref, low, hi, v, Unwrapped(ref, s));
    }
  }

  lemma HighPart(ref: nat)
    ensures var hi := ref - ref % WRAP; hi % WRAP == 0 && hi <= ref < hi + WRAP
  {
    assert ref - ref % WRAP == ref / WRAP * WRAP;
  }

  lemma ChosenIsCandidate(ref: nat, low: nat, hi: nat)
    requires low < WRAP && hi % WRAP == 0 && hi + WRAP <= MAX64
    ensures Chosen(ref, low, hi) < MAX64 && Chosen(ref, low, hi) % WRAP == low
  {
  }

  /** A value less than half the range away from the reference is recovered exactly. */
  lemma NearIsExact(ref: nat, v: nat)
    requires ref < MAX64 && v < MAX64 && Dist(v, ref) < WRAP / 2
    ensures Unwrapped(ref, v % WRAP) == v
  {
    UnwrappedIsNearest(ref, v % WRAP);
    assert Candidate(v, v % WRAP);
    Congruent(Unwrapped(ref, v % WRAP), v);
  }

  lemma Congruent(u: nat, v: nat)
    requires u % WRAP == v % WRAP && Dist(u, v) < WRAP
    ensures u == v
  {
  }

  /** `ref` and `v` both lie in the window of `n` values from `base`. */
  predicate Within(base: nat, n: nat, ref: nat, v: nat) {
    base <= ref < base + n && base <= v < base + n && base + n <= MAX64
  }

  /** Whatever the highest arrival so far, every value of an `n`-wide window is recovered. */
  ghost predicate WindowExact(n: nat) {
    forall base: nat, ref: nat, v: nat :: Within(base, n, ref, v) ==> Unwrapped(ref, v % WRAP) == v
  }

  /** Exactly when unwrapping is sound for a window: it spans at most 2^23, half the range. */
  lemma WindowExactIff(n: nat)
    requires n <= MAX64
    ensures WindowExact(n) <==> n <= 8_388_608
  {
    if n <= WRAP / 2 {
      forall base: nat, ref: nat, v: nat | Within(base, n, ref, v) ensures Unwrapped(ref, v % WRAP) == v {
        NearIsExact(ref, v);
      }
    } else if n <= WRAP {
      var base := WRAP + WRAP / 2;
      assert Within(base, n, base, 2 * WRAP);
      assert Unwrapped(base, (2 * WRAP) % WRAP) == WRAP;
    } else {
      assert Within(0, n, 0, WRAP);
      assert Unwrapped(0, WRAP % WRAP) == 0;
    }
  }

  // ---- words of bits ----------------------------------------------------------------------------

  /** A shift amount as a machine number. */
  function Amount(k: nat): (a: bv7)
    requires k < 64
    ensures a < 64 && a as nat == k
  {
    if k == 0 then 0 else Amount(k - 1) + 1
  }

  function Mask(k: nat): bv64
    requires k < 64
  {
    (1 as bv64) << Amount(k)
  }

  lemma MaskWords(x: bv64, a: bv7, c: bv7)
    requires a < 64 && c < 64
    ensures ((x | ((1 as bv64) << a)) & ((1 as bv64) << c)) != 0 <==> (x & ((1 as bv64) << c)) != 0 || a == c
  {
  }

  lemma SetBit(x: bv64, k: nat, c: nat)
    requires k < 64 && c < 64
    ensures (x | Mask(k)) & Mask(c) != 0 <==> x & Mask(c) != 0 || k == c
  {
    MaskWords(x, Amount(k), Amount(c));
  }

  predicate Bit(bits: seq<bv64>, i: nat)
    requires i < 64 * |bits|
  {
    bits[i / 64] & Mask(i % 64) != 0
  }

  /** Ticking bit `i` ticks no other. */
  lemma TickBit(bits: seq<bv64>, i: nat, j: nat)
    requires i < 64 * |bits| && j < 64 * |bits|
    ensures Bit(bits[i / 64 := bits[i / 64] | Mask(i % 64)], j) <==> Bit(bits, j) || i == j
  {
    if i / 64 == j / 64 {
      SetBit(bits[i / 64], i % 64, j % 64);
    }
  }

  /** `got` are those of the first `n` offsets whose bit is set. */
  ghost predicate Ticked(bits: seq<bv64>, n: nat, got: set<nat>)
    requires n <= 64 * |bits|
  {
    forall i {:trigger Bit(bits, i)} :: 0 <= i < n ==> (i in got <==> Bit(bits, i))
  }

  lemma TickOne(bits: seq<bv64>, n: nat, got: set<nat>, i: nat)
    requires i < n <= 64 * |bits| && Ticked(bits, n, got)
    ensures Ticked(bits[i / 64 := bits[i / 64] | Mask(i % 64)], n, got + {i})
  {
    var next := bits[i / 64 := bits[i / 64] | Mask(i % 64)];
    forall j | 0 <= j < n ensures j in got + {i} <==> Bit(next, j) {
      TickBit(bits, i, j);
    }
  }

  // ---- what a mark does ---------------------------------------------------------------------------

  /** `got` are the offsets that arrived. */
  datatype Tally = Tally(base: nat, n: nat, got: set<nat>, highest: nat, seen: bool,
                         unique: nat, dups: nat, reordered: nat, outOfRange: nat)

  function Empty(base: nat, n: nat): Tally { Tally(base, n, {}, base, false, 0, 0, 0, 0) }

  /** The tally after the unwrapped value `u` arrived. */
  function Counted(t: Tally, u: nat): Tally {
    if u < t.base || u - t.base >= t.n then t.(outOfRange := t.outOfRange + 1)
    else if u - t.base in t.got then t.(dups := t.dups + 1)
    else
      var next := t.(got := t.got + {u - t.base}, unique := t.unique + 1);
      if t.seen && u < t.highest then next.(reordered := t.reordered + 1)
      else next.(highest := u, seen := true)
  }

  function Marked(t: Tally, s: nat): Tally {
    Counted(t, Unwrapped(t.highest, s))
  }

  datatype Gap = Gap(start: nat, len: nat)

  predicate AllMissing(got: set<nat>, i: nat, j: nat) { forall k :: i <= k < j ==> k !in got }
  predicate NoneMissing(got: set<nat>, i: nat, j: nat) { forall k :: i <= k < j ==> k in got }

  /** `gaps` are, in order, the maximal runs of missing offsets below `n`: behind the last one
      nothing is missing, in front of it an offset arrived, and the rest lies before it. */
  ghost predicate Bursts(got: set<nat>, n: nat, gaps: seq<Gap>) {
    if gaps == [] then NoneMissing(got, 0, n)
    else
      var g := gaps[|gaps| - 1];
      && g.len > 0 && g.start + g.len <= n
      && AllMissing(got, g.start, g.start + g.len) && NoneMissing(got, g.start + g.len, n)
      && (g.start > 0 ==> g.start - 1 in got)
      && Bursts(got, g.start, gaps[..|gaps| - 1])
  }

  function Lengths(gaps: seq<Gap>): seq<nat> { seq(|gaps|, i requires 0 <= i < |gaps| => gaps[i].len) }

  function Sum(lens: seq<nat>): nat { if lens == [] then 0 else Sum(lens[..|lens| - 1]) + lens[|lens| - 1] }

  function Below(got: set<nat>, i: nat): set<nat> { set j | j in got && j < i }

  lemma BelowNext(got: set<nat>, i: nat)
    ensures |Below(got, i + 1)| == |Below(got, i)| + if i in got then 1 else 0
  {
    assert Below(got, i + 1) == if i in got then Below(got, i) + {i} else Below(got, i);
  }

  /** Arrived and missing offsets together are all of them. */
  lemma {:induction false} BelowRun(got: set<nat>, i: nat, j: nat)
    requires i <= j
    ensures AllMissing(got, i, j) ==> |Below(got, j)| == |Below(got, i)|
    ensures NoneMissing(got, i, j) ==> |Below(got, j)| == |Below(got, i)| + (j - i)
  {
    if i < j {
      BelowRun(got, i, j - 1);
      BelowNext(got, j - 1);
    }
  }

  /** The bursts add up to what is missing. */
  lemma {:induction false} BurstsSum(got: set<nat>, n: nat, gaps: seq<Gap>)
    requires Bursts(got, n, gaps)
    ensures Sum(Lengths(gaps)) + |Below(got, n)| == n
  {
    if gaps == [] {
      assert Below(got, 0) == {};
      BelowRun(got, 0, n);
    } else {
      var g, p := gaps[|gaps| - 1], gaps[..|gaps| - 1];
      BurstsSum(got, g.start, p);
      assert Lengths(gaps)[..|gaps| - 1] == Lengths(p);
      BelowRun(got, g.start, g.start + g.len);
      BelowRun(got, g.start + g.len, n);
    }
  }

  /** Every missing offset lies in a burst. */
  lemma {:induction false} BurstsCover(got: set<nat>, n: nat, gaps: seq<Gap>, i: nat)
    requires Bursts(got, n, gaps) && i < n && i !in got
    ensures exists g <- gaps :: g.start <= i < g.start + g.len
  {
    assert gaps != [];
    var g := gaps[|gaps| - 1];
    if i < g.start {
      BurstsCover(got, g.start, gaps[..|gaps| - 1], i);
    } else {
      assert g in gaps;
    }
  }

  /** A scan in progress: the bursts so far and the run of missing offsets still open. */
  datatype Progress = Progress(gaps: seq<Gap>, run: nat)

  ghost predicate Scan(got: set<nat>, i: nat, p: Progress) {
    && p.run <= i && Bursts(got, i - p.run, p.gaps) && AllMissing(got, i - p.run, i)
    && (i - p.run > 0 ==> i - p.run - 1 in got)
  }

  function EndRun(p: Progress, i: nat): (q: Progress)
    requires p.run <= i
    ensures q.run == 0 && Lengths(q.gaps) == if p.run > 0 then Lengths(p.gaps) + [p.run] else Lengths(p.gaps)
  {
    if p.run > 0 then Progress(p.gaps + [Gap(i - p.run, p.run)], 0) else p
  }

  lemma EndRunFinds(got: set<nat>, i: nat, p: Progress)
    requires Scan(got, i, p)
    ensures Bursts(got, i, EndRun(p, i).gaps)
  {
    if p.run > 0 {
      var all := EndRun(p, i).gaps;
      assert all[..|all| - 1] == p.gaps;
    }
  }

  lemma BurstsExtend(got: set<nat>, i: nat, gaps: seq<Gap>)
    requires Bursts(got, i, gaps) && i in got
    ensures Bursts(got, i + 1, gaps)
  {
    if gaps == [] {
      assert NoneMissing(got, 0, i + 1);
    } else {
      assert NoneMissing(got, gaps[|gaps| - 1].start + gaps[|gaps| - 1].len, i + 1);
    }
  }

  lemma ScanArrived(got: set<nat>, i: nat, p: Progress)
    requires Scan(got, i, p) && i in got
    ensures Scan(got, i + 1, EndRun(p, i))
  {
    EndRunFinds(got, i, p);
    BurstsExtend(got, i, EndRun(p, i).gaps);
    assert AllMissing(got, i + 1, i + 1);
  }

  lemma ScanMissing(got: set<nat>, i: nat, p: Progress)
    requires Scan(got, i, p) && i !in got
    ensures Scan(got, i + 1, p.(run := p.run + 1))
  {
    assert i + 1 - (p.run + 1) == i - p.run;
  }

  function Scanned(got: set<nat>, i: nat): (p: Progress)
    ensures p.run <= i
  {
    if i == 0 then Progress([], 0)
    else
      var p := Scanned(got, i - 1);
      if i - 1 in got then EndRun(p, i - 1) else p.(run := p.run + 1)
  }

  lemma {:induction false} ScannedIsScan(got: set<nat>, i: nat)
    ensures Scan(got, i, Scanned(got, i))
  {
    if i > 0 {
      ScannedIsScan(got, i - 1);
      if i - 1 in got {
        ScanArrived(got, i - 1, Scanned(got, i - 1));
      } else {
        ScanMissing(got, i - 1, Scanned(got, i - 1));
      }
    }
  }

  /** The finished scan has exactly the bursts. */
  lemma ScanFindsBursts(got: set<nat>, n: nat)
    requires forall i <- got :: i < n
    ensures var gaps := EndRun(Scanned(got, n), n).gaps;
      Bursts(got, n, gaps) && Sum(Lengths(gaps)) + |got| == n
  {
    ScannedIsScan(got, n);
    EndRunFinds(got, n, Scanned(got, n));
    BurstsSum(got, n, EndRun(Scanned(got, n), n).gaps);
    assert Below(got, n) == got;
  }

  datatype Report = Report(expected: nat, unique: nat, lost: nat, dups: nat, reordered: nat,
                           outOfRange: nat, bursts: seq<nat>)

  class RecvLedger {
    const base: nat
    const n: nat
    const bits: array<bv64>
    var highest: nat
    var seen: bool
    var unique: nat
    var dups: nat
    var reordered: nat
    var outOfRange: nat

    ghost var got: set<nat>

    /** `got` is what the words hold. */
    ghost predicate Stored()
      reads this`got, bits
    {
      bits.Length == (n + 63) / 64 && Ticked(bits[..], n, got) && forall i <- got :: i < n
    }

    ghost predicate Valid()
      reads this, bits
    {
      Stored() && highest < MAX64 && unique == |got|
    }

    ghost function View(): Tally
      reads this
    {
      Tally(base, n, got, highest, seen, unique, dups, reordered, outOfRange)
    }

    constructor (base: nat, n: int)
      requires base < MAX64
      ensures Valid() && fresh(bits)
      ensures View() == Empty(base, if n < 0 then 0 else n)
    {
      var size: nat := if n < 0 then 0 else n;
      this.base, this.n := base, size;
      bits := new bv64[(size + 63) / 64](_ => 0);
      highest, seen, unique, dups, reordered, outOfRange := base, false, 0, 0, 0, 0;
      got := {};
    }

    method Test(i: nat) returns (b: bool)
      requires Stored() && i < n
      ensures b == (i in got)
    {
      b := bits[i / 64] & Mask(i % 64) != 0;
      assert b == Bit(bits[..], i);
    }

    method Tick(i: nat)
      requires Stored() && i < n
      modifies bits, this`got
      ensures Stored() && got == old(got) + {i}
    {
      ghost var was := bits[..];
      bits[i / 64] := bits[i / 64] | Mask(i % 64);
      assert bits[..] == was[i / 64 := was[i / 64] | Mask(i % 64)];
      TickOne(was, n, got, i);
      got := got + {i};
    }

    /** Counts the arrival of an unwrapped value. */
    method Arrive(u: nat) returns (dup: bool, late: bool)
      requires Valid() && u < MAX64
      modifies this, bits
      ensures Valid() && View() == Counted(old(View()), u)
      ensures dup == (dups == old(dups) + 1) && late == (reordered == old(reordered) + 1) && !(dup && late)
    {
      if u < base || u - base >= n {
        outOfRange := outOfRange + 1;
        return false, false;
      }
      var i := u - base;
      var had := Test(i);
      if had {
        dups := dups + 1;
        return true, false;
      }
      Tick(i);
      unique := unique + 1;
      late := Follow(u);
      return false, late;
    }

    /** A first arrival is late, or the highest so far. */
    method Follow(u: nat) returns (late: bool)
      modifies this`highest, this`seen, this`reordered
      ensures late == (old(seen) && u < old(highest))
      ensures if late then reordered == old(reordered) + 1 && highest == old(highest) && seen
              else reordered == old(reordered) && highest == u && seen
    {
      if seen && u < highest {
        reordered := reordered + 1;
        return true;
      }
      highest, seen := u, true;
      return false;
    }

    method Mark(s: nat) returns (dup: bool, late: bool)
      requires Valid()
      modifies this, bits
      ensures Valid() && View() == Marked(old(View()), s)
      ensures dup == (dups == old(dups) + 1) && late == (reordered == old(reordered) + 1) && !(dup && late)
    {
      var u := Unwrap24(highest, s);
      dup, late := Arrive(u);
    }

    method Result() returns (r: Report, ghost gaps: seq<Gap>)
      requires Valid()
      ensures r.expected == n && r.unique == unique && r.lost + unique == n
      ensures r.dups == dups && r.reordered == reordered && r.outOfRange == outOfRange
      ensures Bursts(got, n, gaps) && r.bursts == Lengths(gaps) && Sum(r.bursts) == r.lost
    {
      var bursts: seq<nat> := [];
      var run := 0;
      for i := 0 to n
        invariant run == Scanned(got, i).run && bursts == Lengths(Scanned(got, i).gaps)
      {
        var had := Test(i);
        if !had {
          run := run + 1;
        } else if run > 0 {
          bursts, run := bursts + [run], 0;
        }
      }
      gaps := EndRun(Scanned(got, n), n).gaps;
      if run > 0 {
        bursts := bursts + [run];
      }
      ScanFindsBursts(got, n);
      r := Report(n, unique, n - unique, dups, reordered, outOfRange, bursts);
    }
  }

  // ---- the counters mean what they say ------------------------------------------------------------

  function Fold(t: Tally, vs: seq<nat>): Tally {
    if vs == [] then t else Marked(Fold(t, vs[..|vs| - 1]), vs[|vs| - 1] % WRAP)
  }

  predicate InWindow(base: nat, n: nat, v: nat) { base <= v < base + n }

  /** Close enough to every value of the window to be told apart from it. */
  predicate Near(base: nat, n: nat, v: nat) {
    v < MAX64 && v < base + WRAP / 2 && base < v + WRAP / 2 && base + n < v + 1 + WRAP / 2
  }

  /** The offsets that arrived at all. */
  function Arrived(base: nat, n: nat, vs: seq<nat>): set<nat> {
    if vs == [] then {}
    else
      var before, v := vs[..|vs| - 1], vs[|vs| - 1];
      Arrived(base, n, before) + if InWindow(base, n, v) then {v - base} else {}
  }

  /** An arrival is outside the window, a repeat, or late behind a greater one. */
  datatype Kind = Stray | Repeat | Late

  predicate Is(kind: Kind, base: nat, n: nat, before: seq<nat>, v: nat) {
    match kind
    case Stray => !InWindow(base, n, v)
    case Repeat => InWindow(base, n, v) && v in before
    case Late => InWindow(base, n, v) && v !in before && exists w <- before :: InWindow(base, n, w) && w > v
  }

  /** How many arrivals are of a kind, each given all the earlier ones. */
  function Count(kind: Kind, base: nat, n: nat, vs: seq<nat>): nat {
    if vs == [] then 0
    else
      var before, v := vs[..|vs| - 1], vs[|vs| - 1];
      Count(kind, base, n, before) + if Is(kind, base, n, before, v) then 1 else 0
  }

  /** The definition of every counter. */
  ghost predicate Counts(t: Tally, vs: seq<nat>) {
    Totals(t, vs) && IsHighest(t, vs)
  }

  ghost predicate Totals(t: Tally, vs: seq<nat>) {
    && t.got == Arrived(t.base, t.n, vs) && t.unique == |t.got|
    && t.dups == Count(Repeat, t.base, t.n, vs)
    && t.reordered == Count(Late, t.base, t.n, vs)
    && t.outOfRange == Count(Stray, t.base, t.n, vs)
  }

  /** The highest arrival of the window, or its base before the first. */
  ghost predicate IsHighest(t: Tally, vs: seq<nat>) {
    && (t.seen <==> exists v <- vs :: InWindow(t.base, t.n, v))
    && (if t.seen then t.highest in vs && InWindow(t.base, t.n, t.highest) else t.highest == t.base)
    && (forall v <- vs :: InWindow(t.base, t.n, v) ==> v <= t.highest)
  }

  lemma CountNext(kind: Kind, base: nat, n: nat, vs: seq<nat>, v: nat)
    ensures Count(kind, base, n, vs + [v]) == Count(kind, base, n, vs) + if Is(kind, base, n, vs, v) then 1 else 0
  {
    assert (vs + [v])[..|vs + [v]| - 1] == vs;
  }

  /** `CountedNext` on the list as a whole. */
  lemma CountedLast(t: Tally, vs: seq<nat>)
    requires vs != [] && Counts(t, vs[..|vs| - 1])
    ensures Counts(Counted(t, vs[|vs| - 1]), vs)
  {
    assert vs[..|vs| - 1] + [vs[|vs| - 1]] == vs;
    CountedNext(t, vs[..|vs| - 1], vs[|vs| - 1]);
  }

  lemma CountedNext(t: Tally, vs: seq<nat>, v: nat)
    requires Counts(t, vs)
    ensures Counts(Counted(t, v), vs + [v])
  {
    TotalsNext(t, vs, v);
    HighestNext(t, vs, v);
  }

  lemma TotalsNext(t: Tally, vs: seq<nat>, v: nat)
    requires Counts(t, vs)
    ensures Totals(Counted(t, v), vs + [v])
  {
    KindsNext(t, vs, v);
    ArrivedNext(t.base, t.n, vs, v);
    CountedCases(t, v);
  }

  /** The branches of a mark as differences of the counters. */
  lemma CountedCases(t: Tally, v: nat)
    requires t.unique == |t.got|
    ensures var (u, inside, had) := (Counted(t, v), InWindow(t.base, t.n, v), v - t.base in t.got);
      && u.base == t.base && u.n == t.n && u.unique == |u.got|
      && u.got == (if inside then t.got + {v - t.base} else t.got)
      && u.outOfRange == t.outOfRange + (if inside then 0 else 1)
      && u.dups == t.dups + (if inside && had then 1 else 0)
      && u.reordered == t.reordered + (if inside && !had && t.seen && v < t.highest then 1 else 0)
  {
  }

  lemma ArrivedNext(base: nat, n: nat, vs: seq<nat>, v: nat)
    ensures Arrived(base, n, vs + [v]) == if InWindow(base, n, v) then Arrived(base, n, vs) + {v - base}
        else Arrived(base, n, vs)
    ensures InWindow(base, n, v) ==> (v in vs <==> v - base in Arrived(base, n, vs))
  {
    assert (vs + [v])[..|vs + [v]| - 1] == vs;
    if InWindow(base, n, v) { ArrivedHas(base, n, vs, v); }
  }

  lemma {:induction false} ArrivedHas(base: nat, n: nat, vs: seq<nat>, v: nat)
    requires InWindow(base, n, v)
    ensures v - base in Arrived(base, n, vs) <==> v in vs
  {
    if vs != [] {
      ArrivedHas(base, n, vs[..|vs| - 1], v);
      assert vs == vs[..|vs| - 1] + [vs[|vs| - 1]];
    }
  }

  lemma HighestNext(t: Tally, vs: seq<nat>, v: nat)
    requires IsHighest(t, vs) && t.got == Arrived(t.base, t.n, vs)
    ensures IsHighest(Counted(t, v), vs + [v])
  {
    ArrivedNext(t.base, t.n, vs, v);
  }

  /** Which branch a mark takes is which kind of arrival it is. */
  lemma KindsNext(t: Tally, vs: seq<nat>, v: nat)
    requires IsHighest(t, vs) && t.got == Arrived(t.base, t.n, vs)
    ensures var (inside, had) := (InWindow(t.base, t.n, v), v - t.base in t.got);
      && Count(Stray, t.base, t.n, vs + [v]) == Count(Stray, t.base, t.n, vs) + (if inside then 0 else 1)
      && Count(Repeat, t.base, t.n, vs + [v]) == Count(Repeat, t.base, t.n, vs) + (if inside && had then 1 else 0)
      && Count(Late, t.base, t.n, vs + [v])
         == Count(Late, t.base, t.n, vs) + (if inside && !had && t.seen && v < t.highest then 1 else 0)
  {
    ArrivedNext(t.base, t.n, vs, v);
    CountNext(Stray, t.base, t.n, vs, v);
    CountNext(Repeat, t.base, t.n, vs, v);
    CountNext(Late, t.base, t.n, vs, v);
  }

  /** Every arrival is new, a repeat or a stray. */
  lemma {:induction false} EveryArrivalCounted(base: nat, n: nat, vs: seq<nat>)
    ensures |Arrived(base, n, vs)| + Count(Repeat, base, n, vs) + Count(Stray, base, n, vs) == |vs|
  {
    if vs != [] {
      var p, v := vs[..|vs| - 1], vs[|vs| - 1];
      EveryArrivalCounted(base, n, p);
      if InWindow(base, n, v) {
        ArrivedHas(base, n, p, v);
        AddOne(Arrived(base, n, p), v - base);
      }
      CountLast(Repeat, base, n, vs);
      CountLast(Stray, base, n, vs);
    }
  }

  lemma AddOne(s: set<nat>, x: nat)
    ensures |s + {x}| == |s| + if x in s then 0 else 1
  {
    if x in s { assert s + {x} == s; }
  }

  lemma CountLast(kind: Kind, base: nat, n: nat, vs: seq<nat>)
    requires vs != []
    ensures var (p, v) := (vs[..|vs| - 1], vs[|vs| - 1]);
      Count(kind, base, n, vs) == Count(kind, base, n, p) + if Is(kind, base, n, p, v) then 1 else 0
  {
  }

  /** The fold over the values themselves. */
  function Plain(t: Tally, vs: seq<nat>): Tally {
    if vs == [] then t else Counted(Plain(t, vs[..|vs| - 1]), vs[|vs| - 1])
  }

  lemma {:induction false} PlainCounts(base: nat, n: nat, vs: seq<nat>)
    ensures var t := Plain(Empty(base, n), vs); Counts(t, vs) && t.base == base && t.n == n
  {
    if vs != [] {
      PlainCounts(base, n, vs[..|vs| - 1]);
      CountedLast(Plain(Empty(base, n), vs[..|vs| - 1]), vs);
    }
  }

  lemma {:induction false} FoldIsPlain(base: nat, n: nat, vs: seq<nat>)
    requires base < MAX64 && base + n <= MAX64 && forall v <- vs :: Near(base, n, v)
    ensures Fold(Empty(base, n), vs) == Plain(Empty(base, n), vs)
  {
    if vs != [] {
      var p, v := vs[..|vs| - 1], vs[|vs| - 1];
      FoldIsPlain(base, n, p);
      PlainCounts(base, n, p);
      assert Near(base, n, v);
      NearIsExact(Plain(Empty(base, n), p).highest, v);
    }
  }

  /** Over any arrivals that can be told apart from the window, every counter is its
      definition, and every mark is counted once. */
  lemma CountersAreDefinitions(base: nat, n: nat, vs: seq<nat>)
    requires base < MAX64 && base + n <= MAX64 && forall v <- vs :: Near(base, n, v)
    ensures var t := Fold(Empty(base, n), vs);
      Counts(t, vs) && t.base == base && t.n == n && t.unique + t.dups + t.outOfRange == |vs|
  {
    FoldIsPlain(base, n, vs);
    PlainCounts(base, n, vs);
    EveryArrivalCounted(base, n, vs);
  }

  lemma {:induction false} NoStrays(base: nat, n: nat, vs: seq<nat>)
    requires forall v <- vs :: InWindow(base, n, v)
    ensures Count(Stray, base, n, vs) == 0
  {
    if vs != [] {
      NoStrays(base, n, vs[..|vs| - 1]);
    }
  }

  /** For a window of at most half the range, every arrival of the window qualifies, and none
      is out of range. */
  lemma WindowArrivals(base: nat, n: nat, vs: seq<nat>)
    requires base < MAX64 && base + n <= MAX64 && n <= WRAP / 2 && forall v <- vs :: InWindow(base, n, v)
    ensures var t := Fold(Empty(base, n), vs);
      Counts(t, vs) && t.outOfRange == 0 && t.unique + t.dups == |vs|
  {
    CountersAreDefinitions(base, n, vs);
    NoStrays(base, n, vs);
  }
}
