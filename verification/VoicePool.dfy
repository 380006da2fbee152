/** The one-shot effects: a queue of pending ids, and an eight-slot ring of playing voices that
    the mixer drains, sums and compacts in place. */
module VoicePool {
  import opened Wrappers

  const MAX_VOICES := 8
  const MAX_PENDING := 32

  type Sample = int
  datatype Voice = Voice(samples: seq<Sample>, pos: nat)

  predicate Playing(v: Voice) { v.pos < |v.samples| }

  predicate AllPlaying(q: seq<Voice>) { forall v <- q :: Playing(v) }

  // ---- the ring as a queue --------------------------------------------------------------------

  function Enqueued(q: seq<Voice>, samples: seq<Sample>): seq<Voice> {
    (if |q| < MAX_VOICES then q else q[1..]) + [Voice(samples, 0)]
  }

  /** A new voice begins at its first sample; only a ninth costs one, the oldest. */
  lemma NinthCostsOldest(q: seq<Voice>, samples: seq<Sample>)
    requires |q| <= 8
    ensures Enqueued(q, samples) == if |q| == 8 then q[1..] + [Voice(samples, 0)] else q + [Voice(samples, 0)]
  {
  }

  function EnqueuedAll(q: seq<Voice>, started: seq<seq<Sample>>): seq<Voice> {
    if started == [] then q else Enqueued(EnqueuedAll(q, started[..|started| - 1]), started[|started| - 1])
  }

  /** What a voice adds at offset `j` of a frame. */
  function At(v: Voice, j: nat): Sample { if v.pos + j < |v.samples| then v.samples[v.pos + j] else 0 }

  function SumAt(q: seq<Voice>, j: nat): Sample {
    if q == [] then 0 else SumAt(q[..|q| - 1], j) + At(q[|q| - 1], j)
  }

  /** The voices that outlast a frame of `n` samples, in order. */
  function Survivors(q: seq<Voice>, n: nat): seq<Voice> {
    if q == [] then []
    else
      var v := q[|q| - 1];
      Survivors(q[..|q| - 1], n) + if v.pos + n < |v.samples| then [v.(pos := v.pos + n)] else []
  }

  function Found(pending: seq<string>, sounds: map<string, seq<Sample>>): seq<seq<Sample>> {
    if pending == [] then []
    else
      var id := pending[|pending| - 1];
      Found(pending[..|pending| - 1], sounds) + if id in sounds && sounds[id] != [] then [sounds[id]] else []
  }

  lemma {:induction false} EnqueuedPlays(q: seq<Voice>, started: seq<seq<Sample>>)
    requires |q| <= MAX_VOICES && AllPlaying(q) && forall s <- started :: s != []
    ensures var r := EnqueuedAll(q, started); |r| <= MAX_VOICES && AllPlaying(r)
  {
    if started != [] {
      var p := started[..|started| - 1];
      assert started[|started| - 1] in started && forall s <- p :: s in started;
      EnqueuedPlays(q, p);
    }
  }

  lemma {:induction false} FoundAreSounds(pending: seq<string>, sounds: map<string, seq<Sample>>)
    ensures forall s <- Found(pending, sounds) :: s != []
  {
    if pending != [] { FoundAreSounds(pending[..|pending| - 1], sounds); }
  }

  lemma {:induction false} SurvivorsPlay(q: seq<Voice>, n: nat)
    ensures |Survivors(q, n)| <= |q| && AllPlaying(Survivors(q, n))
  {
    if q != [] { SurvivorsPlay(q[..|q| - 1], n); }
  }

  lemma FoundNext(pending: seq<string>, sounds: map<string, seq<Sample>>, i: nat)
    requires i < |pending|
    ensures Found(pending[..i + 1], sounds)
         == if pending[i] in sounds && sounds[pending[i]] != [] then Found(pending[..i], sounds) + [sounds[pending[i]]]
            else Found(pending[..i], sounds)
  {
    assert pending[..i + 1][..i] == pending[..i];
  }

  /** Of the queue's voices in `ring`, the first `i` are compacted to `write` survivors, the
      rest not looked at. */
  ghost predicate Compacted(ring: seq<Voice>, q: seq<Voice>, i: nat, write: nat, n: nat) {
    write <= i <= |q| <= |ring| && ring[..write] == Survivors(q[..i], n) && ring[i..|q|] == q[i..]
  }

  lemma CompactNext(ring: seq<Voice>, q: seq<Voice>, i: nat, write: nat, n: nat)
    requires Compacted(ring, q, i, write, n) && i < |q|
    ensures ring[i] == q[i]
    ensures q[i].pos + n < |q[i].samples| ==>
              Compacted(ring[write := q[i].(pos := q[i].pos + n)], q, i + 1, write + 1, n)
    ensures q[i].pos + n >= |q[i].samples| ==> Compacted(ring, q, i + 1, write, n)
  {
    SurvivorsNext(q, n, i);
    assert ring[i..|q|][0] == q[i..][0];
    assert ring[i + 1..|q|] == ring[i..|q|][1..];
    var v := q[i].(pos := q[i].pos + n);
    assert ring[write := v][..write + 1] == ring[..write] + [v];
    assert ring[write := v][i + 1..|q|] == ring[i + 1..|q|];
  }

  lemma SurvivorsNext(q: seq<Voice>, n: nat, i: nat)
    requires i < |q|
    ensures Survivors(q[..i + 1], n)
         == if q[i].pos + n < |q[i].samples| then Survivors(q[..i], n) + [q[i].(pos := q[i].pos + n)]
            else Survivors(q[..i], n)
  {
    assert q[..i + 1][..i] == q[..i];
  }

  /** `after` is the frame `before` with every voice of `q` added. */
  ghost predicate Mixed(before: seq<Sample>, q: seq<Voice>, after: seq<Sample>) {
    |after| == |before| && forall j :: 0 <= j < |before| ==> after[j] == before[j] + SumAt(q, j)
  }

  lemma MixedNext(before: seq<Sample>, q: seq<Voice>, i: nat, mid: seq<Sample>, after: seq<Sample>)
    requires i < |q| && Mixed(before, q[..i], mid) && |after| == |mid|
    requires forall j :: 0 <= j < |mid| ==> after[j] == mid[j] + At(q[i], j)
    ensures Mixed(before, q[..i + 1], after)
  {
    assert q[..i + 1][..i] == q[..i];
  }

  lemma EnqueuedNext(q: seq<Voice>, started: seq<seq<Sample>>, samples: seq<Sample>)
    ensures EnqueuedAll(q, started + [samples]) == Enqueued(EnqueuedAll(q, started), samples)
  {
    assert (started + [samples])[..|started|] == started;
  }

  /** The slot of the `k`-th voice behind the head. */
  function Slot(head: nat, k: nat): (i: nat)
    ensures i < MAX_VOICES
  {
    (head + k) % MAX_VOICES
  }

  /** The slots in ring order from the head. */
  function Turned(slots: seq<Voice>, head: nat): (r: seq<Voice>)
    requires |slots| == MAX_VOICES && head < MAX_VOICES
    ensures |r| == MAX_VOICES
  {
    slots[head..] + slots[..head]
  }

  lemma TurnedAt(slots: seq<Voice>, head: nat, k: nat, v: Voice)
    requires |slots| == MAX_VOICES && head < MAX_VOICES && k < MAX_VOICES
    ensures slots[Slot(head, k)] == Turned(slots, head)[k]
    ensures Turned(slots[Slot(head, k) := v], head) == Turned(slots, head)[k := v]
  {
  }

  /** Overwriting the head and moving it puts the new voice last. */
  lemma TurnedNext(slots: seq<Voice>, head: nat, v: Voice)
    requires |slots| == MAX_VOICES && head < MAX_VOICES
    ensures Turned(slots[head := v], Slot(head, 1)) == Turned(slots, head)[1..] + [v]
  {
  }

  class Pool {
    var pending: seq<string>
    const voices: array<Voice>
    var head: nat
    var count: nat
    ghost var queue: seq<Voice>

    /** `queue` is what the ring holds, oldest first. */
    ghost predicate Ring()
      reads this, voices
    {
      && voices.Length == MAX_VOICES && head < MAX_VOICES && count <= MAX_VOICES
      && queue == Turned(voices[..], head)[..count]
    }

    ghost predicate Valid()
      reads this, voices
    {
      Ring() && AllPlaying(queue) && |pending| <= MAX_PENDING
    }

    constructor ()
      ensures Valid() && fresh(voices) && queue == [] && pending == []
    {
      pending, head, count, queue := [], 0, 0, [];
      voices := new Voice[MAX_VOICES](_ => Voice([], 0));
    }

    /** A full queue loses its oldest request. */
    method Play(id: string)
      requires Valid()
      modifies this`pending
      ensures Valid()
      ensures pending == (if |old(pending)| < 32 then old(pending) else old(pending)[1..]) + [id]
    {
      if |pending| >= MAX_PENDING {
        pending := pending[1..];
      }
      pending := pending + [id];
    }

    /** A full ring loses its oldest voice. */
    method AddVoice(samples: seq<Sample>)
      requires Ring()
      modifies this`head, this`count, this`queue, voices
      ensures Ring() && queue == Enqueued(old(queue), samples)
    {
      if count < MAX_VOICES {
        Append(Voice(samples, 0));
      } else {
        Replace(Voice(samples, 0));
      }
    }

    method Append(v: Voice)
      requires Ring() && count < MAX_VOICES
      modifies this`count, this`queue, voices
      ensures Ring() && queue == old(queue) + [v]
    {
      ghost var ring := Turned(voices[..], head);
      Put(count, v);
      assert ring[count := v][..count + 1] == ring[..count] + [v];
      count := count + 1;
      queue := queue + [v];
    }

    /** The oldest voice gives way, and the head moves on. */
    method Replace(v: Voice)
      requires Ring() && count == MAX_VOICES
      modifies this`head, this`queue, voices
      ensures Ring() && queue == old(queue)[1..] + [v]
    {
      ghost var was := voices[..];
      ghost var ring := Turned(was, head);
      TurnedNext(was, head, v);
      assert ring[..count] == ring;
      voices[head] := v;
      assert voices[..] == was[head := v];
      head := (head + 1) % MAX_VOICES;
      queue := queue[1..] + [v];
      assert Turned(voices[..], head) == ring[1..] + [v] == queue;
    }

    /** Starts the pending effects unless a `Play` holds the queue, then adds every voice to
        the frame and keeps those that are not finished. */
    method MixInto(dst: array<Sample>, acquired: bool, sounds: map<string, seq<Sample>>)
      requires Valid()
      modifies this, voices, dst
      ensures Valid() && pending == if acquired then [] else old(pending)
      ensures var started := if acquired then Found(old(pending), sounds) else [];
        var q := EnqueuedAll(old(queue), started);
        && queue == Survivors(q, dst.Length)
        && forall j :: 0 <= j < dst.Length ==> dst[j] == old(dst[j]) + SumAt(q, j)
    {
      if acquired {
        StartPending(sounds);
        FoundAreSounds(old(pending), sounds);
        EnqueuedPlays(old(queue), Found(old(pending), sounds));
      }
      Mix(dst);
    }

    method StartPending(sounds: map<string, seq<Sample>>)
      requires Ring()
      modifies this, voices
      ensures Ring() && pending == []
      ensures queue == EnqueuedAll(old(queue), Found(old(pending), sounds))
    {
      var drained := pending;
      pending := [];
      for i := 0 to |drained|
        invariant Ring() && pending == []
        invariant queue == EnqueuedAll(old(queue), Found(drained[..i], sounds))
      {
        FoundNext(drained, sounds, i);
        if drained[i] in sounds && sounds[drained[i]] != [] {
          EnqueuedNext(old(queue), Found(drained[..i], sounds), sounds[drained[i]]);
          AddVoice(sounds[drained[i]]);
        }
      }
      assert drained[..|drained|] == drained;
    }

    method Put(k: nat, v: Voice)
      requires voices.Length == MAX_VOICES && head < MAX_VOICES && k < MAX_VOICES
      modifies voices
      ensures Turned(voices[..], head) == Turned(old(voices[..]), head)[k := v]
    {
      ghost var was := voices[..];
      TurnedAt(was, head, k, v);
      voices[Slot(head, k)] := v;
      assert voices[..] == was[Slot(head, k) := v];
    }

    method Mix(dst: array<Sample>)
      requires Ring() && AllPlaying(queue)
      modifies this`count, this`queue, voices, dst
      ensures Ring() && AllPlaying(queue) && queue == Survivors(old(queue), dst.Length)
      ensures Mixed(old(dst[..]), old(queue), dst[..])
    {
      var write := Compact(dst);
      count := write;
      queue := Survivors(queue, dst.Length);
      SurvivorsPlay(old(queue), dst.Length);
    }

    /** The pass over the voices; returns how many survive. */
    method Compact(dst: array<Sample>) returns (write: nat)
      requires Ring() && AllPlaying(queue)
      modifies voices, dst
      ensures write <= count && Turned(voices[..], head)[..write] == Survivors(queue, dst.Length)
      ensures Mixed(old(dst[..]), queue, dst[..])
    {
      write := 0;
      for i := 0 to count
        invariant Compacted(Turned(voices[..], head), queue, i, write, dst.Length)
        invariant Mixed(old(dst[..]), queue[..i], dst[..])
      {
        write := MixOne(dst, i, write, old(dst[..]));
      }
      assert queue[..count] == queue;
    }

    /** Mixes voice `i` and keeps it, moved up, unless it is finished. */
    method MixOne(dst: array<Sample>, i: nat, write: nat, ghost before: seq<Sample>) returns (next: nat)
      requires voices.Length == MAX_VOICES && head < MAX_VOICES && i < |queue| && AllPlaying(queue)
      requires Compacted(Turned(voices[..], head), queue, i, write, dst.Length) && Mixed(before, queue[..i], dst[..])
      modifies voices, dst
      ensures Compacted(Turned(voices[..], head), queue, i + 1, next, dst.Length)
        && Mixed(before, queue[..i + 1], dst[..])
    {
      ghost var was := voices[..];
      CompactNext(Turned(was, head), queue, i, write, dst.Length);
      TurnedAt(was, head, i, queue[i]);
      var v := voices[Slot(head, i)];
      assert v == queue[i];
      AddTo(dst, v, before, queue, i);
      ghost var mid := dst[..];
      assert voices[..] == was;
      var n := if |v.samples| - v.pos < dst.Length then |v.samples| - v.pos else dst.Length;
      v := v.(pos := v.pos + n);
      next := write;
      if v.pos < |v.samples| {
        assert n == dst.Length;
        Put(write, v);
        next := write + 1;
        assert dst[..] == mid;
      }
    }

    /** Adds voice `i` to a frame that holds the voices before it. */
    static method AddTo(dst: array<Sample>, v: Voice, ghost before: seq<Sample>, ghost q: seq<Voice>, ghost i: nat)
      requires i < |q| && v == q[i] && Playing(v) && Mixed(before, q[..i], dst[..])
      modifies dst
      ensures Mixed(before, q[..i + 1], dst[..])
    {
      var n := if |v.samples| - v.pos < dst.Length then |v.samples| - v.pos else dst.Length;
      for j := 0 to n
        invariant forall k :: 0 <= k < j ==> dst[k] == old(dst[k]) + At(v, k)
        invariant forall k :: j <= k < dst.Length ==> dst[k] == old(dst[k])
      {
        dst[j] := dst[j] + v.samples[v.pos + j];
      }
      MixedNext(before, q, i, old(dst[..]), dst[..]);
    }
  }

  // ---- whole runs -----------------------------------------------------------------------------

  /** One start of an effect: when it began on the output clock, and when it was evicted. */
  datatype Start = Start(begin: nat, samples: seq<Sample>, evicted: Option<nat>)

  /** `out` is everything mixed so far; the clock is its length. */
  datatype State = State(queue: seq<Voice>, starts: seq<Start>, out: seq<Sample>)

  datatype Step = Begin(samples: seq<Sample>) | Frame(n: nat)

  /** The start that the eviction rule hits: the oldest one still playing. */
  function EvictOldest(starts: seq<Start>, now: nat): seq<Start> {
    if starts == [] then []
    else
      var p, s := starts[..|starts| - 1], starts[|starts| - 1];
      if LiveAt(p, now) != [] || !Sounding(s, now) then EvictOldest(p, now) + [s]
      else p + [s.(evicted := Some(now))]
  }

  predicate Sounding(s: Start, now: nat) { s.evicted.None? && s.begin <= now < s.begin + |s.samples| }

  /** The voices of the starts still playing. */
  function LiveAt(starts: seq<Start>, now: nat): seq<Voice> {
    if starts == [] then []
    else
      var s := starts[|starts| - 1];
      LiveAt(starts[..|starts| - 1], now) + if Sounding(s, now) then [Voice(s.samples, now - s.begin)] else []
  }

  function Next(s: State, t: Step): State {
    match t
    case Begin(samples) =>
      var starts := if |s.queue| < MAX_VOICES then s.starts else EvictOldest(s.starts, |s.out|);
      s.(queue := Enqueued(s.queue, samples), starts := starts + [Start(|s.out|, samples, None)])
    case Frame(n) =>
      s.(queue := Survivors(s.queue, n), out := s.out + seq(n, j requires 0 <= j < n => SumAt(s.queue, j)))
  }

  /** What a start contributes at time `p`: its sample, from its begin until it ends or is
      evicted. */
  function Heard(s: Start, p: nat): Sample {
    if s.begin <= p < s.begin + |s.samples| && (s.evicted.None? || p < s.evicted.value)
      then s.samples[p - s.begin] else 0
  }

  function HeardAll(starts: seq<Start>, p: nat): Sample {
    if starts == [] then 0 else HeardAll(starts[..|starts| - 1], p) + Heard(starts[|starts| - 1], p)
  }

  ghost predicate Past(starts: seq<Start>, now: nat) {
    forall s <- starts :: s.begin <= now && (s.evicted.Some? ==> s.evicted.value <= now)
  }

  ghost predicate Inv(s: State) {
    && Past(s.starts, |s.out|) && s.queue == LiveAt(s.starts, |s.out|) && |s.queue| <= MAX_VOICES
    && forall p :: 0 <= p < |s.out| ==> s.out[p] == HeardAll(s.starts, p)
  }

  lemma {:induction false} EvictRemovesFirst(starts: seq<Start>, now: nat)
    requires LiveAt(starts, now) != []
    ensures LiveAt(EvictOldest(starts, now), now) == LiveAt(starts, now)[1..]
  {
    var p, s := starts[..|starts| - 1], starts[|starts| - 1];
    var after := EvictOldest(starts, now);
    assert after[..|after| - 1] == if LiveAt(p, now) != [] || !Sounding(s, now) then EvictOldest(p, now) else p;
    if LiveAt(p, now) != [] {
      EvictRemovesFirst(p, now);
    }
  }

  lemma EvictUnfolds(starts: seq<Start>, now: nat)
    requires starts != []
    ensures var (p, s, after) := (starts[..|starts| - 1], starts[|starts| - 1], EvictOldest(starts, now));
      |after| > 0 &&
      if LiveAt(p, now) != [] || !Sounding(s, now)
        then after[..|after| - 1] == EvictOldest(p, now) && after[|after| - 1] == s
      else after[..|after| - 1] == p && after[|after| - 1] == s.(evicted := Some(now))
  {
  }

  lemma {:induction false} EvictKeepsPast(starts: seq<Start>, now: nat)
    requires Past(starts, now)
    ensures Past(EvictOldest(starts, now), now)
  {
    if starts != [] {
      assert forall s <- starts[..|starts| - 1] :: s in starts;
      EvictKeepsPast(starts[..|starts| - 1], now);
      assert starts[|starts| - 1] in starts;
    }
  }

  lemma {:induction false} EvictKeepsHeard(starts: seq<Start>, now: nat, p: nat)
    requires p < now
    ensures HeardAll(EvictOldest(starts, now), p) == HeardAll(starts, p)
  {
    if starts != [] {
      EvictKeepsHeard(starts[..|starts| - 1], now, p);
      EvictUnfolds(starts, now);
    }
  }

  lemma QueueSnoc(q: seq<Voice>, v: Voice, n: nat)
    ensures Survivors(q + [v], n)
         == if v.pos + n < |v.samples| then Survivors(q, n) + [v.(pos := v.pos + n)] else Survivors(q, n)
    ensures SumAt(q + [v], n) == SumAt(q, n) + At(v, n)
  {
    assert (q + [v])[..|q|] == q;
  }

  lemma LiveLast(starts: seq<Start>, now: nat)
    requires starts != []
    ensures var (p, s) := (starts[..|starts| - 1], starts[|starts| - 1]);
      LiveAt(starts, now) == if Sounding(s, now) then LiveAt(p, now) + [Voice(s.samples, now - s.begin)]
        else LiveAt(p, now)
  {
  }

  /** A start that has begun goes on sounding until its samples are used up. */
  lemma SoundsOn(s: Start, now: nat, n: nat)
    requires Past([s], now)
    ensures Sounding(s, now + n) <==> Sounding(s, now) && now - s.begin + n < |s.samples|
  {
    assert s in [s];
  }

  lemma {:induction false} FrameKeepsLive(starts: seq<Start>, now: nat, n: nat)
    requires Past(starts, now)
    ensures LiveAt(starts, now + n) == Survivors(LiveAt(starts, now), n)
  {
    if starts != [] {
      var p, s := starts[..|starts| - 1], starts[|starts| - 1];
      assert s in starts && forall x <- p :: x in starts;
      FrameKeepsLive(p, now, n);
      SoundsOn(s, now, n);
      LiveLast(starts, now);
      LiveLast(starts, now + n);
      QueueSnoc(LiveAt(p, now), Voice(s.samples, if Sounding(s, now) then now - s.begin else 0), n);
    }
  }

  lemma {:induction false} FrameSumsStarts(starts: seq<Start>, now: nat, j: nat)
    requires Past(starts, now)
    ensures SumAt(LiveAt(starts, now), j) == HeardAll(starts, now + j)
  {
    if starts != [] {
      var p, s := starts[..|starts| - 1], starts[|starts| - 1];
      assert s in starts && forall x <- p :: x in starts;
      FrameSumsStarts(p, now, j);
      LiveLast(starts, now);
      if Sounding(s, now) { QueueSnoc(LiveAt(p, now), Voice(s.samples, now - s.begin), j); }
    }
  }

  /** A start that begins now adds nothing to what was heard before. */
  lemma HeardBefore(starts: seq<Start>, now: nat, samples: seq<Sample>, p: nat)
    requires p < now
    ensures HeardAll(starts + [Start(now, samples, None)], p) == HeardAll(starts, p)
  {
    assert (starts + [Start(now, samples, None)])[..|starts|] == starts;
  }

  lemma LiveBegins(starts: seq<Start>, now: nat, samples: seq<Sample>)
    requires samples != []
    ensures LiveAt(starts + [Start(now, samples, None)], now) == LiveAt(starts, now) + [Voice(samples, 0)]
  {
    assert (starts + [Start(now, samples, None)])[..|starts|] == starts;
  }

  lemma BeginKeepsInv(s: State, samples: seq<Sample>)
    requires Inv(s) && samples != []
    ensures Inv(Next(s, Begin(samples)))
  {
    var now := |s.out|;
    var starts := if |s.queue| < MAX_VOICES then s.starts else EvictOldest(s.starts, now);
    if |s.queue| == MAX_VOICES {
      EvictRemovesFirst(s.starts, now);
      EvictKeepsPast(s.starts, now);
    }
    LiveBegins(starts, now, samples);
    forall p | 0 <= p < now ensures s.out[p] == HeardAll(starts + [Start(now, samples, None)], p) {
      EvictKeepsHeard(s.starts, now, p);
      HeardBefore(starts, now, samples, p);
    }
  }

  lemma FrameKeepsInv(s: State, n: nat)
    requires Inv(s)
    ensures Inv(Next(s, Frame(n)))
  {
    var now := |s.out|;
    FrameKeepsLive(s.starts, now, n);
    SurvivorsPlay(s.queue, n);
    forall j | 0 <= j < n ensures SumAt(s.queue, j) == HeardAll(s.starts, now + j) {
      FrameSumsStarts(s.starts, now, j);
    }
  }

  ghost predicate Run(ts: seq<Step>, states: seq<State>) {
    && |states| == |ts| + 1
    && states[0] == State([], [], [])
    && forall i :: 0 <= i < |ts| ==> (ts[i].Begin? ==> ts[i].samples != []) && states[i + 1] == Next(states[i], ts[i])
  }

  /** Over any run, every output sample is the sum of the effects sounding at that time, each
      heard from its begin, in order and once, until it ends or was evicted; and only the
      oldest of eight is ever evicted. */
  lemma {:induction false} OutputIsSumOfStarts(ts: seq<Step>, states: seq<State>, i: nat)
    requires Run(ts, states) && i <= |ts|
    ensures Inv(states[i])
    ensures forall p :: 0 <= p < |states[i].out| ==> states[i].out[p] == HeardAll(states[i].starts, p)
  {
    if i > 0 {
      OutputIsSumOfStarts(ts, states, i - 1);
      match ts[i - 1]
      case Begin(samples) => BeginKeepsInv(states[i - 1], samples);
      case Frame(n) => FrameKeepsInv(states[i - 1], n);
    }
  }

  /** The other starts, without number `m`. */
  function Others(starts: seq<Start>, m: nat): seq<Start>
    requires m < |starts|
  {
    starts[..m] + starts[m + 1..]
  }

  lemma OthersSnoc(starts: seq<Start>, m: nat)
    requires m < |starts| - 1
    ensures var n := |starts| - 1; Others(starts, m) == Others(starts[..n], m) + [starts[n]]
  {
    var n := |starts| - 1;
    assert starts[..n][..m] == starts[..m];
    assert starts[m + 1..] == starts[..n][m + 1..] + [starts[n]];
  }

  lemma {:induction false} HeardSplits(starts: seq<Start>, m: nat, p: nat)
    requires m < |starts|
    ensures HeardAll(starts, p) == Heard(starts[m], p) + HeardAll(Others(starts, m), p)
  {
    var n := |starts| - 1;
    if m == n {
      assert Others(starts, m) == starts[..n];
    } else {
      HeardSplits(starts[..n], m, p);
      OthersSnoc(starts, m);
      var rest := Others(starts, m);
      assert rest[..|rest| - 1] == Others(starts[..n], m);
    }
  }

  /** An effect that was never evicted and whose time has passed was heard completely: each of
      its samples, at its place and on top of whatever else was sounding. */
  lemma HeardCompletely(ts: seq<Step>, states: seq<State>, i: nat, m: nat)
    requires Run(ts, states) && i <= |ts| && m < |states[i].starts|
    requires var s := states[i].starts[m]; s.evicted.None? && s.begin + |s.samples| <= |states[i].out|
    ensures var s := states[i].starts[m];
      forall k :: 0 <= k < |s.samples| ==>
        states[i].out[s.begin + k] == s.samples[k] + HeardAll(Others(states[i].starts, m), s.begin + k)
  {
    OutputIsSumOfStarts(ts, states, i);
    var starts := states[i].starts;
    forall k | 0 <= k < |starts[m].samples|
      ensures states[i].out[starts[m].begin + k]
           == starts[m].samples[k] + HeardAll(Others(starts, m), starts[m].begin + k)
    {
      HeardSplits(starts, m, starts[m].begin + k);
    }
  }
}
