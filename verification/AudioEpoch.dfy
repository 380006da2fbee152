/** The generation protocol of the audio manager. Stop may abandon a poll goroutine that
    is blocked inside the backend; the epoch it was started under keeps its late results
    out of any later generation. One step is one critical section, one return of a backend
    call, or one Stop call on a stream. One control thread calls Start and Stop; any number
    of abandoned poll goroutines run beside it. */
module AudioEpoch {
  import opened Wrappers

  datatype Dir = Input | Output
  type StreamId = nat

  /** One stream per direction, or none. */
  datatype Slots = Slots(capture: Option<StreamId>, playback: Option<StreamId>) {
    function At(d: Dir): Option<StreamId> {
      if d.Input? then capture else playback
    }

    function Put(d: Dir, v: Option<StreamId>): Slots {
      if d.Input? then this.(capture := v) else this.(playback := v)
    }

    function Only(c: bool, p: bool): Slots {
      Slots(if c then capture else None, if p then playback else None)
    }

    ghost predicate Has(x: StreamId) {
      capture == Some(x) || playback == Some(x)
    }

    ghost predicate Distinct() {
      capture.Some? ==> capture != playback
    }
  }

  const EMPTY := Slots(None, None)

  /** Where the control thread is inside Start or Stop, with the streams it holds. */
  datatype Control =
    | Idle
    | Starting(ring: nat, got: Slots, left: set<Dir>)
    | Stopping
    | StoppingStreams(rest: Slots)

  /** Where a poll goroutine is inside one poll, with the streams it holds. */
  datatype Poll =
    | Enumerating
    | StoppingSuperseded(rest: Slots)
    | Checking(dir: Dir)
    | Opening(dir: Dir)
    | Opened(dir: Dir, stream: StreamId)
    | Discarding(dir: Dir, stream: StreamId)

  datatype Poller = Poller(stamp: nat, ring: nat, pc: Poll)

  datatype State = State(
    epoch: nat, running: bool, ring: nat,
    published: Slots,
    ctl: Control,
    pollers: map<nat, Poller>, nextPoller: nat, nextRing: nat,
    nextStream: StreamId,
    feeds: map<StreamId, nat>,   // the ring each opened stream feeds
    stops: map<StreamId, nat>)   // how often each opened stream was stopped

  const INITIAL := State(0, false, 0, EMPTY, Idle, map[], 0, 0, 0, map[], map[])

  datatype Step =
    | StartBegin | StartOpen(dir: Dir, ok: bool) | StartPublish
    | StopBegin | StopTake | StopOne(dir: Dir) | StopDone
    | PollClose(p: nat, capture: bool, playback: bool)  // the directions whose device changed
    | PollStopOne(p: nat, dir: Dir) | PollStopped(p: nat)
    | PollCheck(p: nat, due: bool)                      // is a reopen due
    | PollOpened(p: nat, ok: bool)                      // the backend returned
    | PollCommit(p: nat) | PollDiscard(p: nat)
    | PollExit(p: nat)

  predicate IsPoll(t: Step) {
    t.PollClose? || t.PollStopOne? || t.PollStopped? || t.PollCheck? || t.PollOpened? || t.PollCommit?
    || t.PollDiscard? || t.PollExit?
  }

  function After(dir: Dir): Poll {
    if dir.Input? then Checking(Output) else Enumerating
  }

  ghost predicate CanStep(s: State, t: Step) {
    (IsPoll(t) ==> t.p in s.pollers) &&
    match t
    case StartBegin => s.ctl.Idle? && !s.running
    case StartOpen(dir, ok) => s.ctl.Starting? && dir in s.ctl.left
    case StartPublish => s.ctl.Starting? && s.ctl.left == {}
    case StopBegin => s.ctl.Idle? && s.running
    case StopTake => s.ctl.Stopping?
    case StopOne(dir) => s.ctl.StoppingStreams? && s.ctl.rest.At(dir).Some?
    case StopDone => s.ctl.StoppingStreams? && s.ctl.rest == EMPTY
    case PollClose(p, _, _) => s.pollers[p].pc.Enumerating?
    case PollStopOne(p, dir) => s.pollers[p].pc.StoppingSuperseded? && s.pollers[p].pc.rest.At(dir).Some?
    case PollStopped(p) => s.pollers[p].pc.StoppingSuperseded? && s.pollers[p].pc.rest == EMPTY
    case PollCheck(p, due) => s.pollers[p].pc.Checking?
    case PollOpened(p, ok) => s.pollers[p].pc.Opening?
    case PollCommit(p) => s.pollers[p].pc.Opened?
    case PollDiscard(p) => s.pollers[p].pc.Discarding?
    case PollExit(p) => s.pollers[p].pc.Enumerating?
  }

  function Open(s: State, ring: nat): State {
    s.(nextStream := s.nextStream + 1, feeds := s.feeds[s.nextStream := ring], stops := s.stops[s.nextStream := 0])
  }

  function StopStream(s: State, x: StreamId): State {
    s.(stops := s.stops[x := (if x in s.stops then s.stops[x] else 0) + 1])
  }

  function Go(s: State, p: nat, pc: Poll): State
    requires p in s.pollers
  {
    s.(pollers := s.pollers[p := s.pollers[p].(pc := pc)])
  }

  ghost predicate Current(s: State, p: nat)
    requires p in s.pollers
  {
    s.pollers[p].stamp == s.epoch
  }

  ghost function Next(s: State, t: Step): State
    requires CanStep(s, t)
  {
    match t
    case StartBegin => s.(ctl := Starting(s.nextRing, EMPTY, {Input, Output}), nextRing := s.nextRing + 1)
    case StartOpen(dir, ok) =>
      var c := s.ctl.(left := s.ctl.left - {dir});
      if ok then Open(s, s.ctl.ring).(ctl := c.(got := c.got.Put(dir, Some(s.nextStream)))) else s.(ctl := c)
    case StartPublish =>
      s.(published := s.ctl.got, ring := s.ctl.ring, epoch := s.epoch + 1, running := true, ctl := Idle,
         pollers := s.pollers[s.nextPoller := Poller(s.epoch + 1, s.ctl.ring, Enumerating)],
         nextPoller := s.nextPoller + 1)
    case StopBegin => s.(running := false, epoch := s.epoch + 1, ctl := Stopping)
    case StopTake => s.(published := EMPTY, ctl := StoppingStreams(s.published))
    case StopOne(dir) => StopStream(s, s.ctl.rest.At(dir).value).(ctl := StoppingStreams(s.ctl.rest.Put(dir, None)))
    case StopDone => s.(ctl := Idle)
    case PollClose(p, c, d) =>
      if !Current(s, p) then Go(s, p, Checking(Input))
      else Go(s.(published := s.published.Only(!c, !d)), p, StoppingSuperseded(s.published.Only(c, d)))
    case PollStopOne(p, dir) =>
      var rest := s.pollers[p].pc.rest;
      Go(StopStream(s, rest.At(dir).value), p, StoppingSuperseded(rest.Put(dir, None)))
    case PollStopped(p) => Go(s, p, Checking(Input))
    case PollCheck(p, due) =>
      var dir := s.pollers[p].pc.dir;
      if s.published.At(dir).None? && due && Current(s, p) then Go(s, p, Opening(dir)) else Go(s, p, After(dir))
    case PollOpened(p, ok) =>
      var dir := s.pollers[p].pc.dir;
      if ok then Go(Open(s, s.pollers[p].ring), p, Opened(dir, s.nextStream)) else Go(s, p, After(dir))
    case PollCommit(p) =>
      var pc := s.pollers[p].pc;
      if !Current(s, p) then Go(s, p, Discarding(pc.dir, pc.stream))
      else Go(s.(published := s.published.Put(pc.dir, Some(pc.stream))), p, After(pc.dir))
    case PollDiscard(p) =>
      var pc := s.pollers[p].pc;
      Go(StopStream(s, pc.stream), p, After(pc.dir))
    case PollExit(p) => s.(pollers := s.pollers - {p})
  }

  // ---- ownership --------------------------------------------------------------------------

  /** A place an opened stream can be. A holder is at a point of its program whose next
      steps publish or stop what it holds. */
  datatype Place = Published(dir: Dir) | HeldByControl | HeldByPoller(p: nat) | Stopped

  ghost predicate ControlHolds(c: Control, x: StreamId) {
    match c
    case Starting(_, got, _) => got.Has(x)
    case StoppingStreams(rest) => rest.Has(x)
    case _ => false
  }

  ghost predicate PollerHolds(pc: Poll, x: StreamId) {
    match pc
    case StoppingSuperseded(rest) => rest.Has(x)
    case Opened(_, y) => x == y
    case Discarding(_, y) => x == y
    case _ => false
  }

  ghost predicate Is(s: State, x: StreamId, pl: Place) {
    match pl
    case Published(d) => s.published.At(d) == Some(x)
    case HeldByControl => ControlHolds(s.ctl, x)
    case HeldByPoller(p) => p in s.pollers && PollerHolds(s.pollers[p].pc, x)
    case Stopped => x in s.stops && s.stops[x] > 0
  }

  /** `loc` says where each opened stream is, and it is nowhere else. */
  ghost predicate Located(s: State, loc: map<StreamId, Place>) {
    && s.feeds.Keys == s.stops.Keys == loc.Keys
    && (forall x :: x in loc ==> x < s.nextStream && s.stops[x] <= 1)
    && (forall x, pl :: Is(s, x, pl) ==> x in loc && loc[x] == pl)
    && (forall x :: x in loc ==> Is(s, x, loc[x]))
  }

  ghost predicate Feeds(s: State, slots: Slots, ring: nat) {
    forall x :: slots.Has(x) ==> x in s.feeds && s.feeds[x] == ring
  }

  ghost predicate SlotsOk(s: State) {
    && (s.running ==> s.ctl.Idle?)
    && (!s.running && !s.ctl.Stopping? ==> s.published == EMPTY)
    && s.published.Distinct() && Feeds(s, s.published, s.ring)
    && (s.ctl.Starting? ==>
          && s.ctl.got.Distinct() && Feeds(s, s.ctl.got, s.ctl.ring)
          && forall d :: d in s.ctl.left ==> s.ctl.got.At(d).None?)
    && (s.ctl.StoppingStreams? ==> s.ctl.rest.Distinct())
  }

  ghost predicate PollerOk(s: State, p: nat)
    requires p in s.pollers
  {
    var q := s.pollers[p];
    && p < s.nextPoller && q.stamp <= s.epoch
    && (Current(s, p) ==> s.running && q.ring == s.ring)
    && (Current(s, p) && (q.pc.Opening? || q.pc.Opened?) ==> s.published.At(q.pc.dir).None?)
    && (q.pc.Opened? ==> q.pc.stream in s.feeds && s.feeds[q.pc.stream] == q.ring)
    && (q.pc.StoppingSuperseded? ==> q.pc.rest.Distinct())
  }

  ghost predicate Inv(s: State, loc: map<StreamId, Place>) {
    && Located(s, loc) && SlotsOk(s)
    && (forall p :: p in s.pollers ==> PollerOk(s, p))
    && (forall p, q :: p in s.pollers && q in s.pollers && Current(s, p) && Current(s, q) ==> p == q)
  }

  /** Where the streams are after one step. */
  ghost function Moved(s: State, loc: map<StreamId, Place>, t: Step): map<StreamId, Place>
    requires CanStep(s, t)
  {
    match t
    case StartOpen(dir, ok) => if ok then loc[s.nextStream := HeldByControl] else loc
    case StartPublish => Relabel(loc, s.ctl.got.capture, Published(Input), s.ctl.got.playback, Published(Output))
    case StopTake => Relabel(loc, s.published.capture, HeldByControl, s.published.playback, HeldByControl)
    case StopOne(dir) => loc[s.ctl.rest.At(dir).value := Stopped]
    case PollClose(p, c, d) =>
      if !Current(s, p) then loc
      else var taken := s.published.Only(c, d);
        Relabel(loc, taken.capture, HeldByPoller(p), taken.playback, HeldByPoller(p))
    case PollStopOne(p, dir) => loc[s.pollers[p].pc.rest.At(dir).value := Stopped]
    case PollOpened(p, ok) => if ok then loc[s.nextStream := HeldByPoller(p)] else loc
    case PollCommit(p) =>
      if !Current(s, p) then loc else loc[s.pollers[p].pc.stream := Published(s.pollers[p].pc.dir)]
    case PollDiscard(p) => loc[s.pollers[p].pc.stream := Stopped]
    case _ => loc
  }

  ghost function Relabel(loc: map<StreamId, Place>, x: Option<StreamId>, to: Place,
                               y: Option<StreamId>, to2: Place): map<StreamId, Place> {
    var one := if x.Some? then loc[x.value := to] else loc;
    if y.Some? then one[y.value := to2] else one
  }

  lemma StartKeepsLocated(s: State, loc: map<StreamId, Place>, t: Step)
    requires Inv(s, loc) && CanStep(s, t) && (t.StartBegin? || t.StartOpen?)
    ensures Located(Next(s, t), Moved(s, loc, t))
  {
    var u, after := Next(s, t), Moved(s, loc, t);
    forall x, pl | Is(u, x, pl) ensures x in after && after[x] == pl {
      if pl.HeldByControl? && t.StartOpen? && t.ok && x == s.nextStream {
      } else {
        assert Is(s, x, pl);
      }
    }
    forall x | x in after ensures Is(u, x, after[x]) {
      if x in loc { assert Is(s, x, loc[x]); }
    }
  }

  lemma PublishKeepsLocated(s: State, loc: map<StreamId, Place>)
    requires Inv(s, loc) && CanStep(s, StartPublish)
    ensures Located(Next(s, StartPublish), Moved(s, loc, StartPublish))
  {
    var u, after := Next(s, StartPublish), Moved(s, loc, StartPublish);
    forall x: StreamId | s.ctl.got.Has(x)
      ensures x in loc && loc[x] == HeldByControl { assert Is(s, x, HeldByControl); }
    forall x, pl | Is(u, x, pl) ensures x in after && after[x] == pl {
      if !pl.Published? {
        assert Is(s, x, pl);
      }
    }
    forall x | x in after ensures Is(u, x, after[x]) {
      assert Is(s, x, loc[x]);
    }
  }

  lemma StopTakeLocated(s: State, loc: map<StreamId, Place>)
    requires Inv(s, loc) && CanStep(s, StopTake)
    ensures Located(Next(s, StopTake), Moved(s, loc, StopTake))
  {
    var u, after := Next(s, StopTake), Moved(s, loc, StopTake);
    forall d | s.published.At(d).Some?
      ensures s.published.At(d).value in loc && loc[s.published.At(d).value] == Published(d) {
      PublishedIsLocated(s, loc, d);
    }
    assert s.published.capture == s.published.At(Input) && s.published.playback == s.published.At(Output);
    forall x, pl | Is(u, x, pl) ensures x in after && after[x] == pl {
      if !pl.HeldByControl? { assert Is(s, x, pl); }
    }
    forall x | x in after ensures Is(u, x, after[x]) {
      assert Is(s, x, loc[x]);
    }
  }

  lemma StopOneLocated(s: State, loc: map<StreamId, Place>, dir: Dir)
    requires Inv(s, loc) && CanStep(s, StopOne(dir))
    ensures Located(Next(s, StopOne(dir)), Moved(s, loc, StopOne(dir)))
  {
    var u, after := Next(s, StopOne(dir)), Moved(s, loc, StopOne(dir));
    forall x: StreamId | ControlHolds(s.ctl, x) ensures x in loc && loc[x] == HeldByControl && s.stops[x] == 0 {
      assert Is(s, x, HeldByControl) && !Is(s, x, Stopped);
    }
    forall x, pl | Is(u, x, pl) ensures x in after && after[x] == pl {
      if !(pl.Stopped? && x == s.ctl.rest.At(dir).value) { assert Is(s, x, pl); }
    }
    forall x | x in after ensures Is(u, x, after[x]) {
      assert Is(s, x, loc[x]);
    }
  }

  lemma StopKeepsLocated(s: State, loc: map<StreamId, Place>, t: Step)
    requires Inv(s, loc) && CanStep(s, t) && (t.StopBegin? || t.StopTake? || t.StopOne? || t.StopDone?)
    ensures Located(Next(s, t), Moved(s, loc, t))
  {
    if t.StopTake? {
      StopTakeLocated(s, loc);
    } else if t.StopOne? {
      StopOneLocated(s, loc, t.dir);
    } else {
      forall x, pl ensures Is(Next(s, t), x, pl) <==> Is(s, x, pl) {}
    }
  }

  lemma PublishedIsLocated(s: State, loc: map<StreamId, Place>, d: Dir)
    requires Located(s, loc) && s.published.At(d).Some?
    ensures s.published.At(d).value in loc && loc[s.published.At(d).value] == Published(d)
  {
    assert Is(s, s.published.At(d).value, Published(d));
  }

  lemma HeldIsLocated(s: State, loc: map<StreamId, Place>, p: nat, x: StreamId)
    requires Located(s, loc) && p in s.pollers && PollerHolds(s.pollers[p].pc, x)
    ensures x in loc && loc[x] == HeldByPoller(p) && x in s.stops && s.stops[x] == 0
  {
    assert Is(s, x, HeldByPoller(p)) && !Is(s, x, Stopped);
  }

  lemma PollCloseSound(s: State, loc: map<StreamId, Place>, t: Step, x: StreamId, pl: Place)
    requires Inv(s, loc) && CanStep(s, t) && t.PollClose? && Is(Next(s, t), x, pl)
    ensures x in Moved(s, loc, t) && Moved(s, loc, t)[x] == pl
  {
    if Current(s, t.p) {
      var taken := s.published.Only(t.capture, t.playback);
      if s.published.At(Input).Some? { PublishedIsLocated(s, loc, Input); }
      if s.published.At(Output).Some? { PublishedIsLocated(s, loc, Output); }
      if pl != HeldByPoller(t.p) {
        assert Is(s, x, pl);
        assert loc[x] == pl;
        assert !taken.Has(x);
      }
    } else {
      assert Is(s, x, pl);
    }
  }

  lemma PollCloseComplete(s: State, loc: map<StreamId, Place>, t: Step, x: StreamId)
    requires Inv(s, loc) && CanStep(s, t) && t.PollClose? && x in loc
    ensures x in Moved(s, loc, t) && Is(Next(s, t), x, Moved(s, loc, t)[x])
  {
    assert Is(s, x, loc[x]);
    if Current(s, t.p) {
      var taken := s.published.Only(t.capture, t.playback);
      if !taken.Has(x) && loc[x].Published? {
        assert s.published.Only(!t.capture, !t.playback).At(loc[x].dir) == Some(x);
      }
    }
  }

  lemma PollCloseKeepsLocated(s: State, loc: map<StreamId, Place>, t: Step)
    requires Inv(s, loc) && CanStep(s, t) && t.PollClose?
    ensures Located(Next(s, t), Moved(s, loc, t))
  {
    if s.published.At(Input).Some? { PublishedIsLocated(s, loc, Input); }
    if s.published.At(Output).Some? { PublishedIsLocated(s, loc, Output); }
    forall x, pl | Is(Next(s, t), x, pl) ensures x in Moved(s, loc, t) && Moved(s, loc, t)[x] == pl {
      PollCloseSound(s, loc, t, x, pl);
    }
    forall x | x in Moved(s, loc, t) ensures Is(Next(s, t), x, Moved(s, loc, t)[x]) {
      PollCloseComplete(s, loc, t, x);
    }
  }

  /** The one stream a poll step moves, if any. */
  ghost function Touched(s: State, t: Step): Option<StreamId>
    requires CanStep(s, t) && IsPoll(t)
  {
    match t
    case PollStopOne(p, dir) => s.pollers[p].pc.rest.At(dir)
    case PollOpened(p, ok) => if ok then Some(s.nextStream) else None
    case PollCommit(p) => if Current(s, p) then Some(s.pollers[p].pc.stream) else None
    case PollDiscard(p) => Some(s.pollers[p].pc.stream)
    case _ => None
  }

  lemma UntouchedStays(s: State, t: Step, x: StreamId, pl: Place)
    requires CanStep(s, t) && IsPoll(t) && !t.PollClose? && Touched(s, t) != Some(x)
    requires t.PollCommit? && Current(s, t.p) ==> s.published.At(s.pollers[t.p].pc.dir).None?
    ensures Is(Next(s, t), x, pl) <==> Is(s, x, pl)
  {
    var u := Next(s, t);
    match pl
    case Published(d) =>
    case HeldByControl =>
    case HeldByPoller(p) =>
      if p != t.p { assert p in u.pollers <==> p in s.pollers; }
    case Stopped =>
  }

  /** The stream a goroutine has just opened was nowhere before. */
  lemma OpenedMoves(s: State, loc: map<StreamId, Place>, t: Step, x: StreamId, pl: Place)
    requires Inv(s, loc) && CanStep(s, t) && t.PollOpened? && Touched(s, t) == Some(x)
    ensures x in Moved(s, loc, t)
    ensures Is(Next(s, t), x, pl) <==> Moved(s, loc, t)[x] == pl
    ensures x in Next(s, t).stops && Next(s, t).stops[x] <= 1
  {
    assert x !in loc;
    assert !Is(s, x, pl);
  }

  lemma TouchedMoves(s: State, loc: map<StreamId, Place>, t: Step, x: StreamId, pl: Place)
    requires Inv(s, loc) && CanStep(s, t) && IsPoll(t) && !t.PollClose? && Touched(s, t) == Some(x)
    ensures x in Moved(s, loc, t)
    ensures Is(Next(s, t), x, pl) <==> Moved(s, loc, t)[x] == pl
    ensures x in Next(s, t).stops && Next(s, t).stops[x] <= 1
  {
    if t.PollOpened? {
      OpenedMoves(s, loc, t, x, pl);
    } else {
      HeldIsLocated(s, loc, t.p, x);
      assert Is(s, x, pl) ==> pl == HeldByPoller(t.p);
    }
  }

  lemma PollSound(s: State, loc: map<StreamId, Place>, t: Step, x: StreamId, pl: Place)
    requires Inv(s, loc) && CanStep(s, t) && IsPoll(t) && !t.PollClose? && Is(Next(s, t), x, pl)
    ensures x in Moved(s, loc, t) && Moved(s, loc, t)[x] == pl
  {
    assert PollerOk(s, t.p);
    if Touched(s, t).Some? {
      TouchedMoves(s, loc, t, Touched(s, t).value, Stopped);
      if !t.PollOpened? { HeldIsLocated(s, loc, t.p, Touched(s, t).value); }
    }
    if Touched(s, t) == Some(x) { TouchedMoves(s, loc, t, x, pl); } else { UntouchedStays(s, t, x, pl); }
  }

  lemma PollComplete(s: State, loc: map<StreamId, Place>, t: Step, x: StreamId)
    requires Inv(s, loc) && CanStep(s, t) && IsPoll(t) && !t.PollClose? && x in Moved(s, loc, t)
    ensures var u := Next(s, t);
      Is(u, x, Moved(s, loc, t)[x]) && x < u.nextStream && x in u.stops && u.stops[x] <= 1
  {
    var after := Moved(s, loc, t);
    assert PollerOk(s, t.p);
    if Touched(s, t).Some? {
      TouchedMoves(s, loc, t, Touched(s, t).value, Stopped);
      if !t.PollOpened? { HeldIsLocated(s, loc, t.p, Touched(s, t).value); }
    }
    if Touched(s, t) == Some(x) { TouchedMoves(s, loc, t, x, after[x]); } else { UntouchedStays(s, t, x, after[x]); }
  }

  lemma PollKeys(s: State, loc: map<StreamId, Place>, t: Step)
    requires Inv(s, loc) && CanStep(s, t) && IsPoll(t) && !t.PollClose?
    ensures Next(s, t).feeds.Keys == Next(s, t).stops.Keys == Moved(s, loc, t).Keys
  {
    assert PollerOk(s, t.p);
    if Touched(s, t).Some? && !t.PollOpened? { HeldIsLocated(s, loc, t.p, Touched(s, t).value); }
  }

  lemma PollKeepsLocated(s: State, loc: map<StreamId, Place>, t: Step)
    requires Inv(s, loc) && CanStep(s, t) && IsPoll(t) && !t.PollClose?
    ensures Located(Next(s, t), Moved(s, loc, t))
  {
    var u, after := Next(s, t), Moved(s, loc, t);
    PollKeys(s, loc, t);
    forall x: StreamId, pl | Is(u, x, pl) ensures x in after && after[x] == pl {
      PollSound(s, loc, t, x, pl);
    }
    forall x: StreamId | x in after ensures Is(u, x, after[x]) && x < u.nextStream && x in u.stops && u.stops[x] <= 1 {
      PollComplete(s, loc, t, x);
    }
  }

  lemma ControlKeepsGenerations(s: State, loc: map<StreamId, Place>, t: Step)
    requires Inv(s, loc) && CanStep(s, t) && !IsPoll(t)
    ensures var u := Next(s, t);
      && SlotsOk(u) && (forall p :: p in u.pollers ==> PollerOk(u, p))
      && (forall p, q :: p in u.pollers && q in u.pollers && Current(u, p) && Current(u, q) ==> p == q)
  {
    var u := Next(s, t);
    forall p | p in s.pollers ensures PollerOk(s, p) && p != s.nextPoller && u.pollers[p] == s.pollers[p] {}
    if t.StartOpen? && t.ok {
      forall d | s.ctl.got.At(d).Some? ensures s.ctl.got.At(d).value < s.nextStream {
        assert Is(s, s.ctl.got.At(d).value, HeldByControl);
      }
      assert s.ctl.got.capture == s.ctl.got.At(Input) && s.ctl.got.playback == s.ctl.got.At(Output);
    }
  }

  /** Publishing a stream the goroutine opened for the current generation. */
  lemma PollCommitSlots(s: State, loc: map<StreamId, Place>, p: nat)
    requires Inv(s, loc) && CanStep(s, PollCommit(p))
    ensures SlotsOk(Next(s, PollCommit(p)))
  {
    assert PollerOk(s, p);
    HeldIsLocated(s, loc, p, s.pollers[p].pc.stream);
    assert s.published.capture == s.published.At(Input) && s.published.playback == s.published.At(Output);
    if s.published.capture.Some? { PublishedIsLocated(s, loc, Input); }
    if s.published.playback.Some? { PublishedIsLocated(s, loc, Output); }
  }

  /** Taking superseded streams out of their slots. */
  lemma PollCloseSlots(s: State, p: nat, c: bool, d: bool)
    requires SlotsOk(s) && CanStep(s, PollClose(p, c, d)) && PollerOk(s, p)
    ensures SlotsOk(Next(s, PollClose(p, c, d)))
  {
  }

  /** A newly opened stream is none of those in a slot or in hand. */
  lemma PollOpenedSlots(s: State, loc: map<StreamId, Place>, p: nat, ok: bool)
    requires Located(s, loc) && SlotsOk(s) && CanStep(s, PollOpened(p, ok))
    ensures SlotsOk(Next(s, PollOpened(p, ok)))
  {
    forall d | s.published.At(d).Some? ensures s.published.At(d).value < s.nextStream { PublishedIsLocated(s, loc, d); }
    assert s.published.capture == s.published.At(Input) && s.published.playback == s.published.At(Output);
    if s.ctl.Starting? {
      forall x: StreamId | s.ctl.got.Has(x) ensures x < s.nextStream { assert Is(s, x, HeldByControl); }
    }
  }

  lemma PollKeepsSlots(s: State, loc: map<StreamId, Place>, t: Step)
    requires Inv(s, loc) && CanStep(s, t) && IsPoll(t)
    ensures SlotsOk(Next(s, t))
  {
    assert PollerOk(s, t.p);
    match t
    case PollCommit(p) => PollCommitSlots(s, loc, p);
    case PollClose(p, c, d) => PollCloseSlots(s, p, c, d);
    case PollOpened(p, ok) => PollOpenedSlots(s, loc, p, ok);
    case _ =>
  }

  /** What a step of goroutine `q` leaves as it was, as far as another goroutine can tell. */
  ghost predicate PollFrame(s: State, u: State, q: nat)
    requires q in s.pollers
  {
    && u.epoch == s.epoch && u.ring == s.ring && u.running == s.running && u.nextPoller == s.nextPoller
    && (!Current(s, q) ==> u.published == s.published)
    && (forall p :: p in s.pollers && p != q ==> p in u.pollers && u.pollers[p] == s.pollers[p])
    && (forall x :: x in s.feeds && x < s.nextStream ==> x in u.feeds && u.feeds[x] == s.feeds[x])
  }

  lemma PollFrames(s: State, t: Step)
    requires CanStep(s, t) && IsPoll(t)
    ensures PollFrame(s, Next(s, t), t.p)
  {
  }

  lemma FramedPollerOk(s: State, u: State, q: nat, p: nat)
    requires q in s.pollers && PollFrame(s, u, q) && p in s.pollers && p != q && PollerOk(s, p)
    requires Current(s, p) ==> !Current(s, q)
    requires s.pollers[p].pc.Opened? ==> s.pollers[p].pc.stream < s.nextStream
    ensures p in u.pollers && PollerOk(u, p) && (Current(u, p) <==> Current(s, p))
  {
  }

  lemma PollerStays(s: State, loc: map<StreamId, Place>, t: Step, p: nat)
    requires Inv(s, loc) && CanStep(s, t) && IsPoll(t) && p in s.pollers && p != t.p
    ensures var u := Next(s, t); p in u.pollers && PollerOk(u, p) && (Current(u, p) <==> Current(s, p))
  {
    if s.pollers[p].pc.Opened? {
      HeldIsLocated(s, loc, p, s.pollers[p].pc.stream);
    }
    PollFrames(s, t);
    FramedPollerOk(s, Next(s, t), t.p, p);
  }

  lemma PollerMoves(s: State, t: Step)
    requires CanStep(s, t) && IsPoll(t) && PollerOk(s, t.p) && t.p in Next(s, t).pollers && s.published.Distinct()
    ensures var u := Next(s, t); PollerOk(u, t.p) && (Current(u, t.p) <==> Current(s, t.p))
  {
  }

  lemma PollKeepsPollers(s: State, loc: map<StreamId, Place>, t: Step, p: nat)
    requires Inv(s, loc) && CanStep(s, t) && IsPoll(t) && p in Next(s, t).pollers
    ensures p in s.pollers && PollerOk(Next(s, t), p) && (Current(Next(s, t), p) <==> Current(s, p))
  {
    assert PollerOk(s, t.p);
    if p == t.p { PollerMoves(s, t); } else { PollerStays(s, loc, t, p); }
  }

  lemma PollKeepsGenerations(s: State, loc: map<StreamId, Place>, t: Step)
    requires Inv(s, loc) && CanStep(s, t) && IsPoll(t)
    ensures var u := Next(s, t);
      && SlotsOk(u) && (forall p :: p in u.pollers ==> PollerOk(u, p))
      && (forall p, q :: p in u.pollers && q in u.pollers && Current(u, p) && Current(u, q) ==> p == q)
  {
    var u := Next(s, t);
    PollKeepsSlots(s, loc, t);
    forall p | p in u.pollers ensures PollerOk(u, p) && p in s.pollers && (Current(u, p) <==> Current(s, p)) {
      PollKeepsPollers(s, loc, t, p);
    }
  }

  lemma StepKeepsInv(s: State, loc: map<StreamId, Place>, t: Step)
    requires Inv(s, loc) && CanStep(s, t)
    ensures Inv(Next(s, t), Moved(s, loc, t))
  {
    if IsPoll(t) {
      PollKeepsGenerations(s, loc, t);
      if t.PollClose? { PollCloseKeepsLocated(s, loc, t); } else { PollKeepsLocated(s, loc, t); }
    } else {
      ControlKeepsGenerations(s, loc, t);
      if t.StartPublish? { PublishKeepsLocated(s, loc); }
      else if t.StartBegin? || t.StartOpen? { StartKeepsLocated(s, loc, t); }
      else { StopKeepsLocated(s, loc, t); }
    }
  }

  // ---- every run ----------------------------------------------------------------------------

  ghost predicate Run(ts: seq<Step>)
    decreases |ts|, 0
  {
    |ts| == 0 || (Run(ts[..|ts| - 1]) && CanStep(Exec(ts[..|ts| - 1]), ts[|ts| - 1]))
  }

  ghost function Exec(ts: seq<Step>): State
    requires Run(ts)
    decreases |ts|, 1
  {
    if |ts| == 0 then INITIAL else Next(Exec(ts[..|ts| - 1]), ts[|ts| - 1])
  }

  lemma {:induction false} RunKeepsInv(ts: seq<Step>) returns (loc: map<StreamId, Place>)
    requires Run(ts)
    ensures Inv(Exec(ts), loc)
  {
    if ts == [] {
      loc := map[];
    } else {
      var before := RunKeepsInv(ts[..|ts| - 1]);
      StepKeepsInv(Exec(ts[..|ts| - 1]), before, ts[|ts| - 1]);
      loc := Moved(Exec(ts[..|ts| - 1]), before, ts[|ts| - 1]);
    }
  }

  /** With any number of abandoned poll goroutines: every stream ever opened is in exactly
      one place, stopped at most once, and what is not published or stopped is held by a
      thread about to publish or stop it. */
  lemma NoStreamLeaks(ts: seq<Step>, x: StreamId)
    requires Run(ts) && x in Exec(ts).feeds
    ensures var s := Exec(ts);
      && (exists pl :: Is(s, x, pl))
      && (forall pl, pl2 :: Is(s, x, pl) && Is(s, x, pl2) ==> pl == pl2)
      && x in s.stops && s.stops[x] <= 1
  {
    var loc := RunKeepsInv(ts);
    assert Is(Exec(ts), x, loc[x]);
  }

  /** A published stream always feeds the ring of the current generation, at most one
      running poll goroutine belongs to it, and from the moment Stop has taken the streams
      until the next Start publishes, none is published whatever the abandoned goroutines do. */
  lemma PublishedBelongsToCurrentGeneration(ts: seq<Step>)
    requires Run(ts)
    ensures var s := Exec(ts);
      && (forall d :: s.published.At(d).Some? ==>
            s.published.At(d).value in s.feeds && s.feeds[s.published.At(d).value] == s.ring)
      && (!s.running && !s.ctl.Stopping? ==> s.published == EMPTY)
      && (forall p :: p in s.pollers && Current(s, p) ==> s.running && s.pollers[p].ring == s.ring)
  {
    var loc := RunKeepsInv(ts);
    var s := Exec(ts);
    forall d | s.published.At(d).Some? ensures s.published.Has(s.published.At(d).value) {}
    forall p | p in s.pollers && Current(s, p) ensures s.running && s.pollers[p].ring == s.ring {
      assert PollerOk(s, p);
    }
  }

  /** Once the control thread is idle after Stop and every goroutine has come back, no
      opened stream is left running. */
  lemma QuietAfterStop(ts: seq<Step>, x: StreamId)
    requires Run(ts) && x in Exec(ts).feeds
    requires Exec(ts).ctl.Idle? && !Exec(ts).running
    requires forall p :: p in Exec(ts).pollers ==> Exec(ts).pollers[p].pc.Enumerating?
    ensures x in Exec(ts).stops && Exec(ts).stops[x] == 1
  {
    var loc := RunKeepsInv(ts);
    assert Is(Exec(ts), x, loc[x]);
  }

  // ---- which streams are touched ------------------------------------------------------------

  /** The direction's device changed, as this poll sees it. */
  predicate Named(t: Step, dir: Dir) { t.PollClose? && if dir.Input? then t.capture else t.playback }

  /** One poll takes down the directions whose device changed, and no other. A goroutine of a
      superseded generation takes down nothing. */
  lemma PollCloseTakes(s: State, t: Step, dir: Dir)
    requires CanStep(s, t) && t.PollClose?
    ensures var (u, was) := (Next(s, t), s.published.At(dir));
      if !Current(s, t.p) then u.published == s.published && u.pollers[t.p].pc == Checking(Input)
      else
        && u.pollers[t.p].pc.StoppingSuperseded?
        && u.published.At(dir) == (if Named(t, dir) then None else was)
        && u.pollers[t.p].pc.rest.At(dir) == (if Named(t, dir) then was else None)
  {
  }

  /** A step stops at most the one stream that its own thread holds for stopping. */
  lemma OnlyHeldIsStopped(s: State, t: Step, x: StreamId)
    requires CanStep(s, t) && x in s.stops && x < s.nextStream
    ensures x in Next(s, t).stops
    ensures Next(s, t).stops[x] == s.stops[x] + 1 || Next(s, t).stops[x] == s.stops[x]
    ensures Next(s, t).stops[x] != s.stops[x] <==>
      match t
      case StopOne(dir) => s.ctl.rest.At(dir) == Some(x)
      case PollStopOne(p, dir) => s.pollers[p].pc.rest.At(dir) == Some(x)
      case PollDiscard(p) => s.pollers[p].pc.stream == x
      case _ => false
  {
  }

  /** How the slot of a direction can change in one step, and what it then holds. */
  lemma SlotChanges(s: State, t: Step, dir: Dir)
    requires CanStep(s, t)
    ensures var (u, was) := (Next(s, t).published.At(dir), s.published.At(dir));
      match t
      case StartPublish => u == s.ctl.got.At(dir)
      case StopTake => u == None && Next(s, t).ctl.rest.At(dir) == was
      case PollClose(p, _, _) => u == if Current(s, p) && Named(t, dir) then None else was
      case PollCommit(p) =>
        u == if Current(s, p) && s.pollers[p].pc.dir == dir then Some(s.pollers[p].pc.stream) else was
      case _ => u == was
  {
  }

  /** The step takes the stream of `dir` out of its slot. */
  ghost predicate TakesDown(s: State, t: Step, dir: Dir)
    requires CanStep(s, t)
  {
    t.StopTake? || (Named(t, dir) && Current(s, t.p))
  }

  /** No step of the run after its first `i` takes the stream of `dir` out of its slot. */
  ghost predicate LeftAlone(ts: seq<Step>, i: nat, dir: Dir)
    requires Run(ts)
  {
    |ts| <= i || (LeftAlone(ts[..|ts| - 1], i, dir) && !TakesDown(Exec(ts[..|ts| - 1]), ts[|ts| - 1], dir))
  }

  /** Over every run, a published stream stays published, and is not stopped, until Stop takes
      the streams or a poll of the current generation finds that its own device changed. */
  lemma {:induction false} HealthyStreamStays(ts: seq<Step>, i: nat, dir: Dir, x: StreamId)
    requires Run(ts) && i <= |ts| && Run(ts[..i]) && Exec(ts[..i]).published.At(dir) == Some(x)
    requires LeftAlone(ts, i, dir)
    ensures Exec(ts).published.At(dir) == Some(x)
    ensures x in Exec(ts).stops && Exec(ts).stops[x] == 0
  {
    if i == |ts| {
      assert ts[..i] == ts;
    } else {
      var before, t := ts[..|ts| - 1], ts[|ts| - 1];
      assert before[..i] == ts[..i];
      HealthyStreamStays(before, i, dir, x);
      var loc := RunKeepsInv(before);
      SlotIsKept(Exec(before), loc, t, dir);
      SlotChanges(Exec(before), t, dir);
    }
    PublishedRuns(ts, dir, x);
  }

  lemma PublishedRuns(ts: seq<Step>, dir: Dir, x: StreamId)
    requires Run(ts) && Exec(ts).published.At(dir) == Some(x)
    ensures x in Exec(ts).stops && Exec(ts).stops[x] == 0
  {
    var loc := RunKeepsInv(ts);
    assert Is(Exec(ts), x, Published(dir)) && !Is(Exec(ts), x, Stopped);
  }

  /** What is published for a direction is not published over. */
  lemma SlotIsKept(s: State, loc: map<StreamId, Place>, t: Step, dir: Dir)
    requires Inv(s, loc) && CanStep(s, t) && s.published.At(dir).Some?
    ensures !t.StartPublish?
    ensures t.PollCommit? && Current(s, t.p) ==> s.pollers[t.p].pc.dir != dir
  {
    if IsPoll(t) { assert PollerOk(s, t.p); }
  }

  /** The step opens a stream for `dir`. */
  ghost predicate Opens(s: State, t: Step, dir: Dir)
    requires CanStep(s, t)
  {
    (t.StartOpen? && t.ok && t.dir == dir) || (t.PollOpened? && t.ok && s.pollers[t.p].pc.dir == dir)
  }

  /** The run opened stream `x` for `dir`. */
  ghost predicate OpenedFor(ts: seq<Step>, x: StreamId, dir: Dir)
    requires Run(ts)
  {
    |ts| > 0 &&
    var before, t := ts[..|ts| - 1], ts[|ts| - 1];
    OpenedFor(before, x, dir) || (Opens(Exec(before), t, dir) && Exec(before).nextStream == x)
  }

  /** The streams in a slot, at Start or in the hand of a goroutine, for a direction. */
  ghost predicate KeptFor(s: State, x: StreamId, dir: Dir) {
    || s.published.At(dir) == Some(x)
    || (s.ctl.Starting? && s.ctl.got.At(dir) == Some(x))
    || exists p :: p in s.pollers && s.pollers[p].pc == Opened(dir, x)
  }

  lemma PollerOpened(s: State, t: Step, p: nat, x: StreamId, dir: Dir)
    requires CanStep(s, t) && p in Next(s, t).pollers && Next(s, t).pollers[p].pc == Opened(dir, x)
    ensures (p in s.pollers && s.pollers[p].pc == Opened(dir, x)) || (Opens(s, t, dir) && x == s.nextStream)
  {
    if IsPoll(t) && p != t.p {
      assert p in s.pollers && Next(s, t).pollers[p] == s.pollers[p];
    }
  }

  lemma KeptOrOpened(s: State, t: Step, x: StreamId, dir: Dir)
    requires CanStep(s, t) && KeptFor(Next(s, t), x, dir)
    ensures KeptFor(s, x, dir) || (Opens(s, t, dir) && x == s.nextStream)
  {
    SlotChanges(s, t, dir);
    if p :| p in Next(s, t).pollers && Next(s, t).pollers[p].pc == Opened(dir, x) {
      PollerOpened(s, t, p, x, dir);
    }
  }

  /** Over every run, the stream published for a direction was opened for that direction. */
  lemma {:induction false} PublishedInOwnSlot(ts: seq<Step>, x: StreamId, dir: Dir)
    requires Run(ts) && KeptFor(Exec(ts), x, dir)
    ensures OpenedFor(ts, x, dir)
  {
    if ts != [] {
      var before := ts[..|ts| - 1];
      KeptOrOpened(Exec(before), ts[|ts| - 1], x, dir);
      if KeptFor(Exec(before), x, dir) { PublishedInOwnSlot(before, x, dir); }
    }
  }

  // ---- rings --------------------------------------------------------------------------------

  /** Every Start takes a ring of its own, and its goroutine keeps it. */
  ghost predicate RingsOk(s: State) {
    && (forall p :: p in s.pollers ==>
          p < s.nextPoller && s.pollers[p].ring < s.nextRing && s.pollers[p].stamp <= s.epoch)
    && (forall p, q :: p in s.pollers && q in s.pollers && p != q ==> s.pollers[p].ring != s.pollers[q].ring)
    && (s.ctl.Starting? ==>
          s.ctl.ring < s.nextRing && forall p :: p in s.pollers ==> s.pollers[p].ring != s.ctl.ring)
    && (s.running ==>
          && s.ctl.Idle?
          && forall p :: p in s.pollers ==> (s.pollers[p].ring == s.ring <==> s.pollers[p].stamp == s.epoch))
  }

  lemma PollKeepsRings(s: State, t: Step)
    requires RingsOk(s) && CanStep(s, t) && IsPoll(t)
    ensures RingsOk(Next(s, t))
  {
    var u := Next(s, t);
    assert u.epoch == s.epoch && u.running == s.running && u.ring == s.ring && u.ctl == s.ctl;
    assert u.nextRing == s.nextRing;
    forall p | p in u.pollers
      ensures p in s.pollers && u.pollers[p].ring == s.pollers[p].ring && u.pollers[p].stamp == s.pollers[p].stamp {}
  }

  /** Over every run, a goroutine of a superseded generation does not feed the live ring, and
      no two goroutines feed the same one. */
  lemma {:induction false} GenerationsOwnRings(ts: seq<Step>)
    requires Run(ts)
    ensures RingsOk(Exec(ts))
  {
    if ts != [] {
      var before, t := ts[..|ts| - 1], ts[|ts| - 1];
      GenerationsOwnRings(before);
      var s := Exec(before);
      if IsPoll(t) {
        PollKeepsRings(s, t);
      } else if t.StartPublish? {
        assert s.nextPoller !in s.pollers;
      }
    }
  }

  // ---- calls and polls that nothing interrupts ------------------------------------------------

  ghost predicate Leads(s: State, ts: seq<Step>, u: State)
    decreases |ts|
  {
    if ts == [] then s == u else CanStep(s, ts[0]) && Leads(Next(s, ts[0]), ts[1..], u)
  }

  lemma LeadsBy(s: State, t: Step, ts: seq<Step>, u: State)
    requires CanStep(s, t) && Leads(Next(s, t), ts, u)
    ensures Leads(s, [t] + ts, u)
  {
    assert ([t] + ts)[1..] == ts;
  }

  /** Start opens what it can and publishes it for a new generation, with a goroutine and a
      ring of its own. */
  lemma StartInOneGo(s: State, okIn: bool, okOut: bool) returns (ts: seq<Step>, u: State)
    requires s.ctl.Idle? && !s.running
    ensures Leads(s, ts, u)
    ensures u.running && u.ctl.Idle? && u.epoch > s.epoch && u.ring == s.nextRing < u.nextRing
    ensures u.published.At(Input) == if okIn then Some(s.nextStream) else None
    ensures u.published.At(Output) == if okOut then Some(s.nextStream + if okIn then 1 else 0) else None
    ensures forall d :: u.published.At(d).Some? ==>
              u.published.At(d).value in u.feeds && u.feeds[u.published.At(d).value] == u.ring
    ensures u.pollers == s.pollers[s.nextPoller := Poller(u.epoch, u.ring, Enumerating)]
  {
    var s1 := Next(s, StartBegin);
    var s2 := Next(s1, StartOpen(Input, okIn));
    var s3 := Next(s2, StartOpen(Output, okOut));
    assert s3.ctl.left == {};
    u := Next(s3, StartPublish);
    LeadsBy(s3, StartPublish, [], u);
    LeadsBy(s2, StartOpen(Output, okOut), [StartPublish] + [], u);
    ts := [StartOpen(Output, okOut)] + ([StartPublish] + []);
    LeadsBy(s1, StartOpen(Input, okIn), ts, u);
    ts := [StartOpen(Input, okIn)] + ts;
    LeadsBy(s, StartBegin, ts, u);
    ts := [StartBegin] + ts;
  }

  /** The streams that Stop took are stopped one by one. */
  lemma StopsRest(s: State) returns (ts: seq<Step>, u: State)
    requires s.ctl.StoppingStreams?
    ensures Leads(s, ts, u) && u == s.(ctl := Idle, stops := u.stops)
    decreases (if s.ctl.rest.capture.Some? then 1 else 0) + if s.ctl.rest.playback.Some? then 1 else 0
  {
    var rest := s.ctl.rest;
    var t := if rest.capture.Some? then StopOne(Input) else if rest.playback.Some? then StopOne(Output) else StopDone;
    if t.StopDone? {
      ts, u := [], Next(s, t);
    } else {
      ts, u := StopsRest(Next(s, t));
    }
    LeadsBy(s, t, ts, u);
    ts := [t] + ts;
  }

  /** Stop takes every stream, comes to an end, and leaves no goroutine current. */
  lemma StopInOneGo(s: State) returns (ts: seq<Step>, u: State)
    requires s.ctl.Idle? && s.running && forall p :: p in s.pollers ==> s.pollers[p].stamp <= s.epoch
    ensures Leads(s, ts, u)
    ensures !u.running && u.ctl.Idle? && u.published == EMPTY && u.pollers == s.pollers
    ensures forall p :: p in u.pollers ==> !Current(u, p)
  {
    var s1 := Next(s, StopBegin);
    var s2 := Next(s1, StopTake);
    ts, u := StopsRest(s2);
    LeadsBy(s1, StopTake, ts, u);
    LeadsBy(s, StopBegin, [StopTake] + ts, u);
    ts := [StopBegin] + ([StopTake] + ts);
  }

  /** A poll that finds no device changed and no reopen due looks at both directions and
      touches nothing. */
  lemma QuietRound(s: State, p: nat) returns (ts: seq<Step>)
    requires p in s.pollers && s.pollers[p].pc.Enumerating?
    ensures Leads(s, ts, s)
  {
    var s1 := Go(s, p, Checking(Input));
    var s2 := Go(s, p, Checking(Output));
    assert Go(s2, p, Enumerating) == s && Go(s1, p, Checking(Output)) == s2;
    LeadsBy(s2, PollCheck(p, false), [], s);
    LeadsBy(s1, PollCheck(p, false), [PollCheck(p, false)] + [], s);
    ts := [PollCheck(p, false)] + ([PollCheck(p, false)] + []);
    var close := PollClose(p, false, false);
    if Current(s, p) {
      var s0 := Go(s, p, StoppingSuperseded(EMPTY));
      assert Next(s, close) == s0 && Go(s0, p, Checking(Input)) == s1;
      LeadsBy(s0, PollStopped(p), ts, s);
      ts := [PollStopped(p)] + ts;
    }
    LeadsBy(s, close, ts, s);
    ts := [close] + ts;
  }

  lemma OpenInOneGo(s: State, p: nat, dir: Dir, ok: bool) returns (ts: seq<Step>, u: State)
    requires p in s.pollers && s.pollers[p].pc == Opening(dir) && Current(s, p)
    ensures Leads(s, ts, u) && p in u.pollers
    ensures u.pollers[p].pc == if dir.Input? then Checking(Output) else Enumerating
    ensures u.published.At(dir) == if ok then Some(s.nextStream) else s.published.At(dir)
    ensures u.nextStream == s.nextStream + if ok then 1 else 0
    ensures ok ==> s.nextStream in u.feeds && u.feeds[s.nextStream] == s.pollers[p].ring
    ensures forall d :: d != dir ==> u.published.At(d) == s.published.At(d)
  {
    var s2 := Next(s, PollOpened(p, ok));
    ts, u := [], s2;
    if ok {
      u := Next(s2, PollCommit(p));
      LeadsBy(s2, PollCommit(p), [], u);
      ts := [PollCommit(p)] + [];
    }
    LeadsBy(s, PollOpened(p, ok), ts, u);
    ts := [PollOpened(p, ok)] + ts;
  }

  /** A direction is reopened exactly if its slot is empty, its retry is due and the goroutine
      is of the live generation; if the backend succeeds, the new stream is published for it.
      Either way the poll goes on to the other direction, or ends. */
  lemma ReopenInOneGo(s: State, p: nat, dir: Dir, due: bool, ok: bool) returns (ts: seq<Step>, u: State)
    requires p in s.pollers && s.pollers[p].pc == Checking(dir)
    ensures Leads(s, ts, u) && p in u.pollers
    ensures u.pollers[p].pc == if dir.Input? then Checking(Output) else Enumerating
    ensures var reopened := s.published.At(dir).None? && due && Current(s, p) && ok;
      && u.published.At(dir) == (if reopened then Some(s.nextStream) else s.published.At(dir))
      && u.nextStream == s.nextStream + (if reopened then 1 else 0)
      && (reopened ==> s.nextStream in u.feeds && u.feeds[s.nextStream] == s.pollers[p].ring)
      && (forall d :: d != dir ==> u.published.At(d) == s.published.At(d))
  {
    var s1 := Next(s, PollCheck(p, due));
    ts, u := [], s1;
    if s1.pollers[p].pc.Opening? { ts, u := OpenInOneGo(s1, p, dir, ok); }
    LeadsBy(s, PollCheck(p, due), ts, u);
    ts := [PollCheck(p, due)] + ts;
  }

  /** A goroutine whose open came back too late stops the stream instead of publishing it. */
  lemma LateOpenIsStopped(s: State, p: nat) returns (u: State)
    requires p in s.pollers && s.pollers[p].pc.Opened? && !Current(s, p)
    ensures Leads(s, [PollCommit(p), PollDiscard(p)], u) && u.published == s.published
    ensures var x := s.pollers[p].pc.stream; x in u.stops && u.stops[x] == 1 + if x in s.stops then s.stops[x] else 0
  {
    var s1 := Next(s, PollCommit(p));
    u := Next(s1, PollDiscard(p));
    LeadsBy(s1, PollDiscard(p), [], u);
    LeadsBy(s, PollCommit(p), [PollDiscard(p)], u);
  }

  /** A goroutine that leaves is gone. */
  lemma ExitLeaves(s: State, p: nat)
    requires CanStep(s, PollExit(p))
    ensures Next(s, PollExit(p)) == s.(pollers := map q <- s.pollers | q != p :: s.pollers[q])
  {
  }
}
