/** The lock-free single-producer single-consumer sample ring. Indices are 64-bit and
    wrap; the ring size is a power of two, so masking an index is taking it modulo the size.
    One step is one atomic load or store, or the copy of one sample. */
module Ring {
  import opened Arithmetic

  const U64: nat := 0x1_0000_0000_0000_0000
  const FRAME_SAMPLES: nat := 480

  function Pow2(k: nat): (p: nat)
    ensures p >= 1
  {
    if k == 0 then 1 else 2 * Pow2(k - 1)
  }

  ghost predicate Size(size: nat) {
    exists k :: 0 <= k <= 63 && size == Pow2(k)
  }

  /** The remainder, by repeated subtraction; `ModIsRemainder` ties it to `%`. */
  function Mod(k: nat, m: nat): (r: nat)
    requires m > 0
    ensures r < m
  {
    if k < m then k else Mod(k - m, m)
  }

  /** Unsigned 64-bit addition and subtraction. */
  function Add64(a: nat, b: nat): nat { Mod(a + b, U64) }
  function Sub64(a: nat, b: nat): nat { if a >= b then Mod(a - b, U64) else U64 - 1 - Mod(b - a - 1, U64) }

  // ---- arithmetic -----------------------------------------------------------------------

  lemma {:induction false} Pow2Divides(k: nat, m: nat)
    requires k <= m
    ensures exists q: nat :: q >= 1 && Pow2(m) == q * Pow2(k)
    decreases m
  {
    if k == m {
      assert Pow2(m) == 1 * Pow2(k);
    } else {
      Pow2Divides(k, m - 1);
      var q: nat :| q >= 1 && Pow2(m - 1) == q * Pow2(k);
      assert 2 * (q * Pow2(k)) == (2 * q) * Pow2(k);
    }
  }

  lemma Pow2Of64()
    ensures Pow2(64) == U64
  {
    assert Pow2(8) == 256;
    assert Pow2(16) == 65536;
    assert Pow2(24) == 0x1000000;
    assert Pow2(32) == 0x1_0000_0000;
    assert Pow2(40) == 0x100_0000_0000;
    assert Pow2(48) == 0x1_0000_0000_0000;
    assert Pow2(56) == 0x100_0000_0000_0000;
  }

  lemma SizeDivides(size: nat) returns (q: nat)
    requires Size(size)
    ensures 1 <= size < U64 && q >= 1 && U64 == q * size
  {
    var k :| 0 <= k <= 63 && size == Pow2(k);
    Pow2Of64();
    Pow2Divides(k, 64);
    q :| q >= 1 && Pow2(64) == q * Pow2(k);
    Pow2Divides(k, 63);
    var p: nat :| p >= 1 && Pow2(63) == p * Pow2(k);
    assert Pow2(63) >= Pow2(k) by { MulAtLeast(p, Pow2(k)); }
    assert Pow2(64) == 2 * Pow2(63);
  }

  lemma MulAtLeast(p: nat, x: nat)
    requires p >= 1
    ensures p * x >= x
  {
    assert p * x == x + (p - 1) * x;
  }

  lemma {:induction false} ModIsRemainder(k: nat, m: nat)
    requires m > 0
    ensures Mod(k, m) == k % m
  {
    if k >= m {
      ModIsRemainder(k - m, m);
      var q := (k - m) / m;
      assert k - m == q * m + (k - m) % m;
      RemainderUnique(k, m, q + 1, (k - m) % m);
    } else {
      RemainderUnique(k, m, 0, k);
    }
  }

  lemma RemainderUnique(x: nat, m: nat, q: nat, r: nat)
    requires m > 0 && x == q * m + r && r < m
    ensures x % m == r
  {
    var p := x / m;
    assert x == p * m + x % m;
    TimesLess(p, q, m);
    TimesLess(q, p, m);
  }

  /** `Sub64` is subtraction modulo 2^64. */
  lemma SubIsRemainder(a: nat, b: nat)
    ensures Sub64(a, b) == (a - b) % U64
  {
    if a >= b { ModIsRemainder(a - b, U64); } else { ModIsRemainder(b - a - 1, U64); }
  }

  lemma {:induction false} ModSum(a: nat, b: nat, m: nat)
    requires m > 0
    ensures Mod(Mod(a, m) + b, m) == Mod(a + b, m)
  {
    if a >= m { ModSum(a - m, b, m); }
  }

  lemma {:induction false} ModMultiple(x: nat, q: nat, m: nat)
    requires m > 0
    ensures Mod(x + q * m, m) == Mod(x, m)
  {
    if q > 0 {
      assert q * m == (q - 1) * m + m;
      ModMultiple(x, q - 1, m);
    }
  }

  lemma {:induction false} ModTwice(x: nat, q: nat, m: nat, big: nat)
    requires m > 0 && q > 0 && big == q * m && big > 0
    ensures Mod(Mod(x, big), m) == Mod(x, m)
  {
    if x >= big {
      ModTwice(x - big, q, m, big);
      ModMultiple(x - big, q, m);
    }
  }

  /** Wrapping an index does not move its slot. */
  lemma SlotOfWrapped(t: nat, i: nat, size: nat)
    requires Size(size)
    ensures size > 0 && Mod(Add64(Mod(t, U64), i), size) == Mod(t + i, size)
  {
    var q := SizeDivides(size);
    ModSum(t, i, U64);
    ModTwice(t + i, q, size, U64);
  }

  /** The distance of two wrapped indices is the true one while it is below 2^64. */
  lemma {:induction false} SubOfWrapped(t: nat, u: nat)
    requires u <= t < u + U64
    ensures Sub64(Mod(t, U64), Mod(u, U64)) == t - u
  {
    if u >= U64 { SubOfWrapped(t - U64, u - U64); }
  }

  lemma AddOfWrapped(t: nat, n: nat)
    ensures Add64(Mod(t, U64), n) == Mod(t + n, U64)
  {
    ModSum(t, n, U64);
  }

  lemma {:induction false} SlotsDiffer(a: nat, b: nat, size: nat)
    requires a < b < a + size
    ensures Mod(a, size) != Mod(b, size)
  {
    if a >= size { SlotsDiffer(a - size, b - size, size); }
  }

  // ---- the two threads -------------------------------------------------------------------

  /** `seen` is the true total behind the wrapped value a thread loaded. */
  datatype Producer = PIdle | PLoaded(src: seq<real>, rd: nat, seen: nat) | PCopy(src: seq<real>, i: nat)

  datatype Consumer =
    | CIdle
    | CLoaded(len: nat, ws: nat, seen: nat)
    | CCopy(n: nat, got: seq<real>)
    | CDrain(ws: nat, seen: nat)

  datatype Offer = Offer(src: seq<real>, kept: bool)
  datatype Taken = Read(data: seq<real>) | Skipped(count: nat)

  /** `w`, `r` and the counters are what the ring stores; `offers` and `taken` record what
      the two sides did. */
  datatype State = State(
    buf: seq<real>, w: nat, r: nat, dropped: nat, underruns: nat,
    prod: Producer, cons: Consumer,
    offers: seq<Offer>, taken: seq<Taken>)

  datatype Step =
    | WriteLoad(src: seq<real>) | WriteDecide | WriteSample | WriteStore
    | ReadLoad(len: nat) | ReadDecide | ReadSample | ReadStore
    | DrainLoad | DrainStore

  function Kept(offers: seq<Offer>): seq<real> {
    if |offers| == 0 then []
    else
      var o := offers[|offers| - 1];
      Kept(offers[..|offers| - 1]) + (if o.kept then o.src else [])
  }

  function Lost(offers: seq<Offer>): nat {
    if |offers| == 0 then 0
    else
      var o := offers[|offers| - 1];
      Lost(offers[..|offers| - 1]) + (if o.kept then 0 else |o.src|)
  }

  function Amount(t: Taken): nat {
    if t.Read? then |t.data| else t.count
  }

  function Total(taken: seq<Taken>): nat {
    if |taken| == 0 then 0 else Total(taken[..|taken| - 1]) + Amount(taken[|taken| - 1])
  }

  /** The reads are consecutive pieces of `stream`, with nothing left out but the skips. */
  ghost predicate InOrder(taken: seq<Taken>, stream: seq<real>) {
    |taken| == 0 ||
    (var n := |taken| - 1;
     var at := Total(taken[..n]);
     && InOrder(taken[..n], stream)
     && at + Amount(taken[n]) <= |stream|
     && (taken[n].Read? ==> taken[n].data == stream[at..at + |taken[n].data|]))
  }

  ghost predicate CanStep(s: State, t: Step) {
    match t
    case WriteLoad(src) => s.prod.PIdle?
    case WriteDecide => s.prod.PLoaded?
    case WriteSample => s.prod.PCopy? && s.prod.i < |s.prod.src|
    case WriteStore => s.prod.PCopy? && s.prod.i == |s.prod.src|
    case ReadLoad(len) => s.cons.CIdle?
    case ReadDecide => s.cons.CLoaded?
    case ReadSample => s.cons.CCopy? && |s.cons.got| < s.cons.n
    case ReadStore => s.cons.CCopy? && |s.cons.got| == s.cons.n
    case DrainLoad => s.cons.CIdle?
    case DrainStore => s.cons.CDrain?
  }

  ghost function Written(s: State): nat { |Kept(s.offers)| }
  ghost function Consumed(s: State): nat { Total(s.taken) }

  function WriteSlot(s: State): nat
    requires s.prod.PCopy? && |s.buf| > 0
  {
    Mod(Add64(s.w, s.prod.i), |s.buf|)
  }

  function ReadSlot(s: State): nat
    requires s.cons.CCopy? && |s.buf| > 0
  {
    Mod(Add64(s.r, |s.cons.got|), |s.buf|)
  }

  ghost function Next(s: State, t: Step): State
    requires CanStep(s, t) && |s.buf| > 0
  {
    match t
    case WriteLoad(src) => s.(prod := PLoaded(src, s.r, Consumed(s)))
    case WriteDecide =>
      var free := Sub64(|s.buf|, Sub64(s.w, s.prod.rd));
      var n := |s.prod.src|;
      if n > free then s.(dropped := s.dropped + n, offers := s.offers + [Offer(s.prod.src, false)], prod := PIdle)
      else s.(prod := PCopy(s.prod.src, 0))
    case WriteSample =>
      s.(buf := s.buf[WriteSlot(s) := s.prod.src[s.prod.i]], prod := s.prod.(i := s.prod.i + 1))
    case WriteStore =>
      s.(w := Add64(s.w, |s.prod.src|), offers := s.offers + [Offer(s.prod.src, true)], prod := PIdle)
    case ReadLoad(len) => s.(cons := CLoaded(len, s.w, Written(s)))
    case ReadDecide =>
      var avail := Sub64(s.cons.ws, s.r);
      var s1 := if avail < s.cons.len then s.(underruns := s.underruns + 1) else s;
      if avail < s.cons.len && avail == 0 then s1.(cons := CIdle)
      else s1.(cons := CCopy(if avail < s.cons.len then avail else s.cons.len, []))
    case ReadSample => s.(cons := s.cons.(got := s.cons.got + [s.buf[ReadSlot(s)]]))
    case ReadStore =>
      s.(r := Add64(s.r, s.cons.n), taken := s.taken + [Read(s.cons.got)], cons := CIdle)
    case DrainLoad => s.(cons := CDrain(s.w, Written(s)))
    case DrainStore =>
      var skipped := if s.cons.seen >= Consumed(s) then s.cons.seen - Consumed(s) else 0;
      s.(r := s.cons.ws, taken := s.taken + [Skipped(skipped)],
         cons := CIdle)
  }

  // ---- invariant --------------------------------------------------------------------------

  /** Slot of the stream position `k`. */
  ghost predicate Holds(s: State, k: nat, v: real) {
    |s.buf| > 0 && s.buf[Mod(k, |s.buf|)] == v
  }

  ghost predicate IndexInv(s: State) {
    && Size(|s.buf|) && |s.buf| > 0
    && s.w == Mod(Written(s), U64) && s.r == Mod(Consumed(s), U64)
    && Consumed(s) <= Written(s) <= Consumed(s) + |s.buf|
    && s.dropped == Lost(s.offers)
  }

  ghost predicate DataInv(s: State) {
    && (forall k :: Consumed(s) <= k < Written(s) ==> Holds(s, k, Kept(s.offers)[k]))
    && InOrder(s.taken, Kept(s.offers))
  }

  ghost predicate ProdInv(s: State) {
    match s.prod
    case PIdle => true
    case PLoaded(src, rd, seen) => rd == Mod(seen, U64) && seen <= Consumed(s) && Written(s) <= seen + |s.buf|
    case PCopy(src, i) =>
      && i <= |src| && Written(s) + |src| <= Consumed(s) + |s.buf|
      && forall j :: 0 <= j < i ==> Holds(s, Written(s) + j, src[j])
  }

  ghost predicate ConsInv(s: State) {
    match s.cons
    case CIdle => true
    case CLoaded(len, ws, seen) => ws == Mod(seen, U64) && Consumed(s) <= seen <= Written(s)
    case CCopy(n, got) =>
      && |got| <= n && Consumed(s) + n <= Written(s)
      && got == Kept(s.offers)[Consumed(s)..Consumed(s) + |got|]
    case CDrain(ws, seen) => ws == Mod(seen, U64) && Consumed(s) <= seen <= Written(s)
  }

  ghost predicate Inv(s: State) {
    IndexInv(s) && DataInv(s) && ProdInv(s) && ConsInv(s)
  }

  lemma OfferSnoc(offers: seq<Offer>, o: Offer)
    ensures Kept(offers + [o]) == Kept(offers) + (if o.kept then o.src else [])
    ensures Lost(offers + [o]) == Lost(offers) + (if o.kept then 0 else |o.src|)
  {
    assert (offers + [o])[..|offers + [o]| - 1] == offers;
  }

  lemma TakenSnoc(taken: seq<Taken>, t: Taken)
    ensures Total(taken + [t]) == Total(taken) + Amount(t)
  {
    assert (taken + [t])[..|taken + [t]| - 1] == taken;
  }

  lemma InOrderSnoc(taken: seq<Taken>, t: Taken, stream: seq<real>)
    requires InOrder(taken, stream) && Total(taken) + Amount(t) <= |stream|
    requires t.Read? ==> t.data == stream[Total(taken)..Total(taken) + |t.data|]
    ensures InOrder(taken + [t], stream)
  {
    assert (taken + [t])[..|taken + [t]| - 1] == taken;
  }

  lemma {:induction false} InOrderGrows(taken: seq<Taken>, stream: seq<real>, more: seq<real>)
    requires InOrder(taken, stream)
    ensures InOrder(taken, stream + more)
  {
    if taken != [] {
      var n := |taken| - 1;
      InOrderGrows(taken[..n], stream, more);
      var at := Total(taken[..n]);
      if taken[n].Read? {
        assert (stream + more)[at..at + |taken[n].data|] == stream[at..at + |taken[n].data|];
      }
    }
  }

  /** The free space the producer computes is the true one at the time of its load. */
  lemma FreeSpace(s: State)
    requires IndexInv(s) && ProdInv(s) && s.prod.PLoaded?
    ensures Sub64(|s.buf|, Sub64(s.w, s.prod.rd)) == |s.buf| - (Written(s) - s.prod.seen)
      <= |s.buf| - (Written(s) - Consumed(s))
  {
    var q := SizeDivides(|s.buf|);
    SubOfWrapped(Written(s), s.prod.seen);
  }

  /** The producer decides on the free space it can prove: the chunk fits below the
      consumer's position at the load, and the consumer only moves away from it. */
  lemma DecideKeeps(s: State)
    requires Inv(s) && s.prod.PLoaded?
    ensures Inv(Next(s, WriteDecide))
    ensures Next(s, WriteDecide).prod.PIdle? <==> |s.prod.src| > |s.buf| - (Written(s) - s.prod.seen)
  {
    FreeSpace(s);
    var t := Next(s, WriteDecide);
    OfferSnoc(s.offers, Offer(s.prod.src, false));
    assert Kept(s.offers) + [] == Kept(s.offers);
    assert Kept(t.offers) == Kept(s.offers) && t.taken == s.taken && t.buf == s.buf && t.cons == s.cons;
  }

  /** The slot written next holds no sample that is still buffered, nor one of this chunk. */
  lemma WriteSlotIsFree(s: State)
    requires IndexInv(s) && ProdInv(s) && CanStep(s, WriteSample)
    ensures WriteSlot(s) == Mod(Written(s) + s.prod.i, |s.buf|)
    ensures forall k :: Consumed(s) <= k < Written(s) + s.prod.i ==> Mod(k, |s.buf|) != WriteSlot(s)
  {
    SlotOfWrapped(Written(s), s.prod.i, |s.buf|);
    forall k | Consumed(s) <= k < Written(s) + s.prod.i ensures Mod(k, |s.buf|) != WriteSlot(s) {
      SlotsDiffer(k, Written(s) + s.prod.i, |s.buf|);
    }
  }

  lemma WriteSampleKeeps(s: State)
    requires Inv(s) && CanStep(s, WriteSample)
    ensures Inv(Next(s, WriteSample))
    ensures WriteSlot(s) == Mod(Written(s) + s.prod.i, |s.buf|)
    ensures forall k :: Consumed(s) <= k < Written(s) + s.prod.i ==> Mod(k, |s.buf|) != WriteSlot(s)
  {
    WriteSlotIsFree(s);
    WriteSampleData(s);
    WriteSampleProd(s);
  }

  lemma WriteSampleProd(s: State)
    requires IndexInv(s) && ProdInv(s) && CanStep(s, WriteSample)
    ensures ProdInv(Next(s, WriteSample))
  {
    WriteSlotIsFree(s);
    var t := Next(s, WriteSample);
    forall j | 0 <= j < t.prod.i ensures Holds(t, Written(t) + j, t.prod.src[j]) {
      if j < s.prod.i { assert Holds(s, Written(s) + j, s.prod.src[j]); }
    }
  }

  lemma WriteSampleData(s: State)
    requires IndexInv(s) && DataInv(s) && ProdInv(s) && CanStep(s, WriteSample)
    ensures DataInv(Next(s, WriteSample))
  {
    WriteSlotIsFree(s);
    var t := Next(s, WriteSample);
    forall k | Consumed(t) <= k < Written(t) ensures Holds(t, k, Kept(t.offers)[k]) {
      assert Holds(s, k, Kept(s.offers)[k]);
    }
  }

  lemma WriteStoreData(s: State)
    requires Inv(s) && CanStep(s, WriteStore)
    ensures DataInv(Next(s, WriteStore)) && Kept(Next(s, WriteStore).offers) == Kept(s.offers) + s.prod.src
  {
    var src, a := s.prod.src, Kept(s.offers);
    OfferSnoc(s.offers, Offer(src, true));
    InOrderGrows(s.taken, a, src);
    var t := Next(s, WriteStore);
    forall k | Consumed(t) <= k < Written(t) ensures Holds(t, k, Kept(t.offers)[k]) {
      if k < Written(s) {
        assert Holds(s, k, a[k]);
      } else {
        assert Holds(s, Written(s) + (k - Written(s)), src[k - Written(s)]);
      }
    }
  }

  lemma WriteStoreIndex(s: State)
    requires IndexInv(s) && ProdInv(s) && CanStep(s, WriteStore)
    ensures IndexInv(Next(s, WriteStore))
  {
    OfferSnoc(s.offers, Offer(s.prod.src, true));
    AddOfWrapped(Written(s), |s.prod.src|);
  }

  lemma WriteStoreKeeps(s: State)
    requires Inv(s) && CanStep(s, WriteStore)
    ensures Inv(Next(s, WriteStore))
  {
    WriteStoreData(s);
    WriteStoreIndex(s);
    WriteStoreOthers(s, Next(s, WriteStore));
  }

  lemma WriteStoreOthers(s: State, t: State)
    requires ConsInv(s) && t.cons == s.cons && t.taken == s.taken && t.prod.PIdle?
    requires Kept(s.offers) <= Kept(t.offers)
    ensures ConsInv(t) && ProdInv(t)
  {
    var a, b := Kept(s.offers), Kept(t.offers);
    if s.cons.CCopy? {
      assert b[Consumed(s)..Consumed(s) + |s.cons.got|] == a[Consumed(s)..Consumed(s) + |s.cons.got|];
    }
  }

  lemma AvailableIs(s: State)
    requires IndexInv(s) && ConsInv(s) && s.cons.CLoaded?
    ensures Sub64(s.cons.ws, s.r) == s.cons.seen - Consumed(s)
  {
    var q := SizeDivides(|s.buf|);
    SubOfWrapped(s.cons.seen, Consumed(s));
  }

  lemma ReadDecideKeeps(s: State)
    requires Inv(s) && s.cons.CLoaded?
    ensures Inv(Next(s, ReadDecide))
  {
    AvailableIs(s);
    OnlyConsumerMoved(s, Next(s, ReadDecide));
  }

  /** A read asks for what was buffered when it loaded the index, and no more than it wants;
      it counts as short exactly if that is less. */
  lemma ReadDecides(s: State)
    requires Inv(s) && s.cons.CLoaded?
    ensures var (u, avail) := (Next(s, ReadDecide), s.cons.seen - Consumed(s));
      && (u.cons == if avail == 0 && s.cons.len > 0 then CIdle
                    else CCopy(if avail < s.cons.len then avail else s.cons.len, []))
      && u.underruns == s.underruns + if avail < s.cons.len then 1 else 0
  {
    AvailableIs(s);
  }

  /** A drain skips everything that was buffered when it loaded the index. */
  lemma DrainSkips(s: State)
    requires Inv(s) && s.cons.CDrain?
    ensures var u := Next(s, DrainStore);
      Consumed(u) == s.cons.seen && u.cons.CIdle? && u.prod == s.prod && u.offers == s.offers
  {
    TakenSnoc(s.taken, Skipped(s.cons.seen - Consumed(s)));
  }

  /** What the consumer loaded is what was written by then. */
  lemma LoadsSee(s: State, len: nat)
    requires CanStep(s, ReadLoad(len)) && CanStep(s, DrainLoad) && |s.buf| > 0
    ensures Next(s, ReadLoad(len)).cons == CLoaded(len, s.w, Written(s))
    ensures Next(s, DrainLoad).cons == CDrain(s.w, Written(s))
  {
  }

  /** The sample read next is the next one of the stream. */
  lemma ReadSlotHolds(s: State)
    requires IndexInv(s) && DataInv(s) && ConsInv(s) && CanStep(s, ReadSample)
    ensures var at := Consumed(s) + |s.cons.got|;
      ReadSlot(s) == Mod(at, |s.buf|) && at < Written(s) && s.buf[ReadSlot(s)] == Kept(s.offers)[at]
  {
    SlotOfWrapped(Consumed(s), |s.cons.got|, |s.buf|);
    var at := Consumed(s) + |s.cons.got|;
    assert Holds(s, at, Kept(s.offers)[at]);
  }

  lemma ReadSampleKeeps(s: State)
    requires Inv(s) && CanStep(s, ReadSample)
    ensures Inv(Next(s, ReadSample))
    ensures ReadSlot(s) == Mod(Consumed(s) + |s.cons.got|, |s.buf|)
  {
    ReadSlotHolds(s);
    ReadSampleCons(s);
    OnlyConsumerMoved(s, Next(s, ReadSample));
  }

  lemma SliceSnoc(a: seq<real>, lo: nat, hi: nat)
    requires lo <= hi < |a|
    ensures a[lo..hi + 1] == a[lo..hi] + [a[hi]]
  {
  }

  lemma ReadSampleCons(s: State)
    requires IndexInv(s) && DataInv(s) && ConsInv(s) && CanStep(s, ReadSample)
    ensures ConsInv(Next(s, ReadSample))
  {
    ReadSlotHolds(s);
    SliceSnoc(Kept(s.offers), Consumed(s), Consumed(s) + |s.cons.got|);
  }

  lemma OnlyConsumerMoved(s: State, t: State)
    requires IndexInv(s) && DataInv(s) && ProdInv(s) && t == s.(cons := t.cons, underruns := t.underruns)
    ensures IndexInv(t) && DataInv(t) && ProdInv(t)
  {
    assert forall k, v :: Holds(t, k, v) <==> Holds(s, k, v);
  }

  /** What taking samples out does to the indices and the record of reads. */
  ghost predicate Consumes(s: State, u: State) {
    IndexInv(u) && InOrder(u.taken, Kept(u.offers)) && Consumed(s) <= Consumed(u) && Written(u) == Written(s)
  }

  lemma TookIndex(s: State, u: State, took: Taken)
    requires IndexInv(s) && InOrder(s.taken, Kept(s.offers))
    requires u == s.(r := u.r, taken := s.taken + [took], cons := u.cons)
    requires u.r == Mod(Consumed(s) + Amount(took), U64) && Consumed(s) + Amount(took) <= Written(s)
    requires took.Read? ==> took.data == Kept(s.offers)[Consumed(s)..Consumed(s) + |took.data|]
    ensures Consumes(s, u)
  {
    TakenSnoc(s.taken, took);
    InOrderSnoc(s.taken, took, Kept(s.offers));
  }

  lemma ReadStoreIndex(s: State)
    requires IndexInv(s) && ConsInv(s) && InOrder(s.taken, Kept(s.offers)) && CanStep(s, ReadStore)
    ensures Consumes(s, Next(s, ReadStore))
  {
    AddOfWrapped(Consumed(s), s.cons.n);
    TookIndex(s, Next(s, ReadStore), Read(s.cons.got));
  }

  lemma DrainStoreIndex(s: State)
    requires IndexInv(s) && ConsInv(s) && InOrder(s.taken, Kept(s.offers)) && CanStep(s, DrainStore)
    ensures Consumes(s, Next(s, DrainStore))
  {
    TookIndex(s, Next(s, DrainStore), Skipped(s.cons.seen - Consumed(s)));
  }

  lemma ConsumeKeeps(s: State, t: Step)
    requires Inv(s) && CanStep(s, t) && (t.ReadStore? || t.DrainStore?)
    ensures Inv(Next(s, t))
  {
    if t.ReadStore? { ReadStoreIndex(s); } else { DrainStoreIndex(s); }
    var u := Next(s, t);
    assert u.buf == s.buf && u.offers == s.offers && u.prod == s.prod;
    forall k | Consumed(u) <= k < Written(u) ensures Holds(u, k, Kept(u.offers)[k]) {
      assert Holds(s, k, Kept(s.offers)[k]);
    }
    if u.prod.PCopy? {
      forall j | 0 <= j < u.prod.i ensures Holds(u, Written(u) + j, u.prod.src[j]) {
        assert Holds(s, Written(s) + j, s.prod.src[j]);
      }
    }
  }

  lemma StepKeepsInv(s: State, t: Step)
    requires Inv(s) && CanStep(s, t)
    ensures Inv(Next(s, t))
  {
    match t
    case WriteLoad(src) =>
    case WriteDecide => DecideKeeps(s);
    case WriteSample => WriteSampleKeeps(s);
    case WriteStore => WriteStoreKeeps(s);
    case ReadLoad(len) =>
    case ReadDecide => ReadDecideKeeps(s);
    case ReadSample => ReadSampleKeeps(s);
    case ReadStore => ConsumeKeeps(s, t);
    case DrainLoad =>
    case DrainStore => ConsumeKeeps(s, t);
  }

  // ---- every interleaving -----------------------------------------------------------------

  ghost predicate Run(buf: seq<real>, ts: seq<Step>)
    requires |buf| > 0
    decreases |ts|, 0
  {
    |ts| == 0 ||
    (Run(buf, ts[..|ts| - 1]) && CanStep(Exec(buf, ts[..|ts| - 1]), ts[|ts| - 1]))
  }

  ghost function Exec(buf: seq<real>, ts: seq<Step>): (s: State)
    requires |buf| > 0 && Run(buf, ts)
    ensures |s.buf| == |buf|
    decreases |ts|, 1
  {
    if |ts| == 0 then State(buf, 0, 0, 0, 0, PIdle, CIdle, [], [])
    else Next(Exec(buf, ts[..|ts| - 1]), ts[|ts| - 1])
  }

  lemma {:induction false} RunKeepsInv(buf: seq<real>, ts: seq<Step>)
    requires |buf| > 0 && Size(|buf|) && Run(buf, ts)
    ensures Inv(Exec(buf, ts))
  {
    if |ts| > 0 {
      RunKeepsInv(buf, ts[..|ts| - 1]);
      StepKeepsInv(Exec(buf, ts[..|ts| - 1]), ts[|ts| - 1]);
    }
  }

  /** For every interleaving: the sample about to be written is neither the one being read
      nor any sample still buffered; the buffered amount is never negative nor above the
      size; chunks are kept or dropped whole and every dropped sample is counted; and the
      reads are the kept stream in order, with only drains skipping. */
  lemma RingIsSafe(buf: seq<real>, ts: seq<Step>)
    requires |buf| > 0 && Size(|buf|) && Run(buf, ts)
    ensures var s := Exec(buf, ts);
      && Consumed(s) <= Written(s) <= Consumed(s) + |s.buf|
      && InOrder(s.taken, Kept(s.offers))
      && s.dropped == Lost(s.offers)
      && (CanStep(s, WriteSample) ==>
            && (CanStep(s, ReadSample) ==> WriteSlot(s) != ReadSlot(s))
            && forall k :: Consumed(s) <= k < Written(s) ==> Mod(k, |s.buf|) != WriteSlot(s))
  {
    RunKeepsInv(buf, ts);
    var s := Exec(buf, ts);
    if CanStep(s, WriteSample) {
      WriteSampleKeeps(s);
      if CanStep(s, ReadSample) {
        ReadSampleKeeps(s);
      }
    }
  }

  // ---- calls that nothing interrupts --------------------------------------------------------

  ghost predicate Leads(s: State, ts: seq<Step>, u: State)
    requires |s.buf| > 0
    decreases |ts|
  {
    if ts == [] then s == u else CanStep(s, ts[0]) && Leads(Next(s, ts[0]), ts[1..], u)
  }

  lemma LeadsBy(s: State, t: Step, ts: seq<Step>, u: State)
    requires |s.buf| > 0 && CanStep(s, t) && |Next(s, t).buf| > 0 && Leads(Next(s, t), ts, u)
    ensures Leads(s, [t] + ts, u)
  {
    assert ([t] + ts)[1..] == ts;
  }

  /** The rest of a chunk is copied and stored. */
  lemma {:induction false} CopiesRest(s: State) returns (ts: seq<Step>, u: State)
    requires Inv(s) && s.prod.PCopy?
    ensures Leads(s, ts, u) && Inv(u)
    ensures u.prod.PIdle? && u.cons == s.cons && u.taken == s.taken && u.dropped == s.dropped
    ensures u.offers == s.offers + [Offer(s.prod.src, true)]
    decreases |s.prod.src| - s.prod.i
  {
    if s.prod.i == |s.prod.src| {
      StepKeepsInv(s, WriteStore);
      ts, u := [WriteStore], Next(s, WriteStore);
    } else {
      StepKeepsInv(s, WriteSample);
      var rest;
      rest, u := CopiesRest(Next(s, WriteSample));
      ts := [WriteSample] + rest;
      LeadsBy(s, WriteSample, rest, u);
    }
  }

  /** A write keeps the whole chunk exactly if it fits behind what is buffered, and drops and
      counts the whole of it otherwise. */
  lemma WriteInOneGo(s: State, src: seq<real>) returns (ts: seq<Step>, u: State)
    requires Inv(s) && s.prod.PIdle?
    ensures Leads(s, ts, u) && u.prod.PIdle? && u.cons == s.cons && u.taken == s.taken
    ensures var fits := |src| <= |s.buf| - (Written(s) - Consumed(s));
      u.offers == s.offers + [Offer(src, fits)] && u.dropped == s.dropped + if fits then 0 else |src|
  {
    var s1 := Next(s, WriteLoad(src));
    StepKeepsInv(s, WriteLoad(src));
    DecideKeeps(s1);
    var s2 := Next(s1, WriteDecide);
    if s2.prod.PIdle? {
      ts, u := [], s2;
    } else {
      assert s2.prod == PCopy(src, 0);
      ts, u := CopiesRest(s2);
    }
    LeadsBy(s1, WriteDecide, ts, u);
    LeadsBy(s, WriteLoad(src), [WriteDecide] + ts, u);
    ts := [WriteLoad(src)] + ([WriteDecide] + ts);
  }

  /** The rest of a read is copied and stored. */
  lemma {:induction false} ReadsRest(s: State) returns (ts: seq<Step>, u: State)
    requires Inv(s) && s.cons.CCopy?
    ensures Leads(s, ts, u) && Inv(u)
    ensures u.cons.CIdle? && u.prod == s.prod && u.offers == s.offers && u.underruns == s.underruns
    ensures u.taken == s.taken + [Read(Kept(s.offers)[Consumed(s)..Consumed(s) + s.cons.n])]
    decreases s.cons.n - |s.cons.got|
  {
    if |s.cons.got| == s.cons.n {
      StepKeepsInv(s, ReadStore);
      ts, u := [ReadStore], Next(s, ReadStore);
    } else {
      StepKeepsInv(s, ReadSample);
      var rest;
      rest, u := ReadsRest(Next(s, ReadSample));
      ts := [ReadSample] + rest;
      LeadsBy(s, ReadSample, rest, u);
    }
  }

  /** A read that has loaded the index and decided. */
  lemma ReadDecided(s: State, len: nat)
    requires Inv(s) && s.cons.CIdle?
    ensures CanStep(s, ReadLoad(len)) && CanStep(Next(s, ReadLoad(len)), ReadDecide)
    ensures var (u, avail) := (Next(Next(s, ReadLoad(len)), ReadDecide), Written(s) - Consumed(s));
      && Inv(u) && u == s.(cons := u.cons, underruns := s.underruns + if avail < len then 1 else 0)
      && u.cons == if avail == 0 && len > 0 then CIdle else CCopy(if avail < len then avail else len, [])
  {
    StepKeepsInv(s, ReadLoad(len));
    ReadDecides(Next(s, ReadLoad(len)));
    ReadDecideKeeps(Next(s, ReadLoad(len)));
  }

  /** A read delivers the oldest samples, as many as are wanted and buffered, and counts a short
      one; an empty ring delivers nothing. */
  lemma ReadInOneGo(s: State, len: nat) returns (ts: seq<Step>, u: State)
    requires Inv(s) && s.cons.CIdle?
    ensures Leads(s, ts, u) && u.cons.CIdle? && u.prod == s.prod && u.offers == s.offers
    ensures var (at, avail) := (Consumed(s), Written(s) - Consumed(s));
      var n := if avail < len then avail else len;
      && u.underruns == s.underruns + (if avail < len then 1 else 0)
      && u.taken == if avail == 0 && len > 0 then s.taken else s.taken + [Read(Kept(s.offers)[at..at + n])]
  {
    var s1 := Next(s, ReadLoad(len));
    ReadDecided(s, len);
    var s2 := Next(s1, ReadDecide);
    if s2.cons.CIdle? {
      ts, u := [], s2;
    } else {
      ts, u := ReadsRest(s2);
    }
    LeadsBy(s1, ReadDecide, ts, u);
    LeadsBy(s, ReadLoad(len), [ReadDecide] + ts, u);
    ts := [ReadLoad(len)] + ([ReadDecide] + ts);
  }

  // ---- the ring itself --------------------------------------------------------------------

  class Buffer {
    const buf: array<real>
    var w: nat
    var r: nat
    var dropped: nat
    var underruns: nat
    /** All samples ever kept, and how many of them were consumed. */
    ghost var stream: seq<real>
    ghost var consumed: nat

    ghost predicate Valid()
      reads this, buf
    {
      && Size(buf.Length) && buf.Length > 0
      && w == Mod(|stream|, U64) && r == Mod(consumed, U64)
      && consumed <= |stream| <= consumed + buf.Length
      && forall k :: consumed <= k < |stream| ==> buf[Mod(k, buf.Length)] == stream[k]
    }

    /** The buffered samples, oldest first. */
    ghost function Contents(): seq<real>
      reads this, buf
      requires Valid()
    {
      stream[consumed..]
    }

    /** The capacity is the least power of two that holds the frames. */
    constructor (capacityFrames: nat)
      requires capacityFrames * FRAME_SAMPLES <= Pow2(63)
      ensures Valid() && fresh(buf) && Contents() == []
      ensures buf.Length >= capacityFrames * 480
      ensures buf.Length > 1 ==> buf.Length < 2 * capacityFrames * 480
    {
      var n := capacityFrames * FRAME_SAMPLES;
      var size := 1;
      ghost var k := 0;
      while size < n
        invariant 0 <= k <= 63 && size == Pow2(k)
        invariant size > 1 ==> size < 2 * n
        decreases n - size
      {
        if k == 63 { assert false; }
        size := size * 2;
        k := k + 1;
      }
      buf := new real[size](_ => 0.0);
      w, r, dropped, underruns := 0, 0, 0, 0;
      stream, consumed := [], 0;
    }

    /** Keeps all of `src` or drops all of it. */
    method Write(src: seq<real>) returns (lost: nat)
      requires Valid()
      modifies this`w, this`dropped, this`stream, buf
      ensures Valid() && consumed == old(consumed)
      ensures |src| <= buf.Length - |old(Contents())| ==>
                lost == 0 && Contents() == old(Contents()) + src && dropped == old(dropped)
      ensures |src| > buf.Length - |old(Contents())| ==>
                lost == |src| && Contents() == old(Contents()) && dropped == old(dropped) + |src|
    {
      var free := Free();
      var n := |src|;
      if n > free {
        dropped := dropped + n;
        return n;
      }
      CopyIn(src);
      AddOfWrapped(|stream|, n);
      w := Add64(w, n);
      stream := stream + src;
      assert stream[consumed..] == old(stream)[consumed..] + src;
      lost := 0;
    }

    method Available() returns (avail: nat)
      requires Valid()
      ensures avail == |Contents()|
    {
      ghost var q := SizeDivides(buf.Length);
      SubOfWrapped(|stream|, consumed);
      avail := Sub64(w, r);
    }

    method Free() returns (free: nat)
      requires Valid()
      ensures free == buf.Length - |Contents()|
    {
      ghost var q := SizeDivides(buf.Length);
      SubOfWrapped(|stream|, consumed);
      free := Sub64(buf.Length, Sub64(w, r));
    }

    /** Copies a chunk that fits behind the buffered samples. */
    method CopyIn(src: seq<real>)
      requires Valid() && |stream| + |src| <= consumed + buf.Length
      modifies buf
      ensures forall k :: consumed <= k < |stream| + |src| ==> buf[Mod(k, buf.Length)] == (stream + src)[k]
    {
      for i := 0 to |src|
        invariant forall k :: consumed <= k < |stream| + i ==> buf[Mod(k, buf.Length)] == (stream + src)[k]
      {
        SlotOfWrapped(|stream|, i, buf.Length);
        ghost var at := |stream| + i;
        forall k | consumed <= k < at ensures Mod(k, buf.Length) != Mod(at, buf.Length) {
          SlotsDiffer(k, at, buf.Length);
        }
        buf[Mod(Add64(w, i), buf.Length)] := src[i];
      }
    }

    /** Fills `dst` from the oldest samples; a short read is counted and leaves the rest. */
    method ReadInto(dst: array<real>) returns (n: nat)
      requires Valid() && dst != buf
      modifies this`r, this`underruns, this`consumed, dst
      ensures Valid() && stream == old(stream)
      ensures n == if |old(Contents())| < dst.Length then |old(Contents())| else dst.Length
      ensures dst[..n] == old(Contents())[..n] && dst[n..] == old(dst[n..])
      ensures Contents() == old(Contents())[n..]
      ensures underruns == old(underruns) + (if |old(Contents())| < dst.Length then 1 else 0)
    {
      var avail := Available();
      if avail < dst.Length {
        underruns := underruns + 1;
        if avail == 0 {
          return 0;
        }
      }
      n := if avail < dst.Length then avail else dst.Length;
      CopyOut(dst, n);
      assert stream[consumed..consumed + n] == stream[consumed..][..n];
      AddOfWrapped(consumed, n);
      r := Add64(r, n);
      consumed := consumed + n;
    }

    /** Copies the oldest `n` samples out. */
    method CopyOut(dst: array<real>, n: nat)
      requires Valid() && dst != buf && n <= dst.Length && consumed + n <= |stream|
      modifies dst
      ensures dst[..n] == stream[consumed..consumed + n] && dst[n..] == old(dst[n..])
    {
      for i := 0 to n
        invariant forall j :: 0 <= j < i ==> dst[j] == stream[consumed + j]
        invariant forall j :: i <= j < dst.Length ==> dst[j] == old(dst[j])
      {
        SlotOfWrapped(consumed, i, buf.Length);
        dst[i] := buf[Mod(Add64(r, i), buf.Length)];
      }
    }

    method Drain()
      requires Valid()
      modifies this`r, this`consumed
      ensures Valid() && Contents() == [] && stream == old(stream)
    {
      r := w;
      consumed := |stream|;
    }
  }
}
