/** The joystick manager: edges are committed under one lock and delivered under a second
    one that spans both halves, while other goroutines rebind, suspend, arm a capture or
    close. One step is one critical section or one handler call. */
module Joystick {
  import opened Wrappers
  import opened Edges
  import opened Resolve

  /** Who holds the notify lock. */
  datatype Owner = Poller | Rebinder | Other

  datatype Span = Span(owner: Owner, pending: seq<Edge>)

  datatype State = State(
    desired: Bindings,
    hold: set<Action>,
    active: set<Action>,
    suspended: bool,
    closed: bool,
    capturing: bool)

  const EMPTY := State(map[], {}, {}, false, false, false)

  /** A critical section of the state lock. `ord`, `press` and `release` are the orders in
      which its loops met their maps. */
  datatype Event =
    | Apply(binds: Bindings, ord: seq<Action>)
    | Suspend(ord: seq<Action>)
    | Resume
    | BeginCapture(ord: seq<Action>)
    | CancelCapture
    | CaptureDone
    | Close(ord: seq<Action>)
    | Tick(held: set<Input>, press: seq<Action>, release: seq<Action>)
    | PollFailed(ord: seq<Action>)

  /** Events whose edges are delivered under the notify lock. */
  predicate Notifies(e: Event) {
    !e.Resume? && !e.CancelCapture? && !e.CaptureDone?
  }

  predicate Typed(binds: Bindings) {
    forall id :: id in binds ==> forall b :: b in binds[id] ==> b.hold == Hold(id)
  }

  ghost function HoldIds(binds: Bindings): set<Action> {
    set id | id in binds && exists b :: b in binds[id] && b.hold
  }

  ghost function Presses(ids: seq<Action>): (es: seq<Edge>)
    ensures |es| == |ids| && forall i :: 0 <= i < |ids| ==> es[i] == Pressed(ids[i])
  {
    seq(|ids|, i requires 0 <= i < |ids| => Pressed(ids[i]))
  }

  ghost function Releases(ids: seq<Action>): (es: seq<Edge>)
    ensures |es| == |ids| && forall i :: 0 <= i < |ids| ==> es[i] == Released(ids[i])
  {
    seq(|ids|, i requires 0 <= i < |ids| => Released(ids[i]))
  }

  /** A tick dispatches unless the manager was suspended or closed meanwhile. */
  ghost predicate Dispatches(s: State) {
    !s.suspended && !s.closed
  }

  ghost predicate Enabled(s: State, e: Event) {
    match e
    case Apply(binds, ord) => Enumerates(ord, s.active * s.hold)
    case Suspend(ord) => !s.suspended ==> Enumerates(ord, s.active * s.hold)
    case BeginCapture(ord) => Enumerates(ord, s.active * s.hold)
    case Close(ord) => !s.closed ==> Enumerates(ord, s.active * s.hold)
    case PollFailed(ord) => Enumerates(ord, s.active * s.hold)
    case Tick(held, press, release) =>
      Dispatches(s) ==>
        && Enumerates(press, Active(s.desired, held) - s.active)
        && Enumerates(release, (s.active - Active(s.desired, held)) * s.hold)
    case _ => true
  }

  /** Drop the hold actions that owe a release; press-kind actions stay latched. */
  ghost function TakeActive(s: State): State {
    s.(active := s.active - s.hold)
  }

  ghost function Commit(s: State, e: Event): (State, seq<Edge>) {
    match e
    case Apply(binds, ord) => (TakeActive(s).(desired := binds, hold := HoldIds(binds)), Releases(ord))
    case Suspend(ord) => if s.suspended then (s, []) else (TakeActive(s).(suspended := true), Releases(ord))
    case Resume => (s.(suspended := false), [])
    case BeginCapture(ord) => (TakeActive(s).(capturing := true), Releases(ord))
    case CancelCapture => (s.(capturing := false), [])
    case CaptureDone => (s.(capturing := false), [])
    case Close(ord) => if s.closed then (s, []) else (TakeActive(s).(closed := true), Releases(ord))
    case Tick(held, press, release) =>
      if !Dispatches(s) then (s, [])
      else (s.(active := Active(s.desired, held)), Presses(press) + Releases(release))
    case PollFailed(ord) => (TakeActive(s), Releases(ord))
  }

  // ---- what an event does -----------------------------------------------------------

  /** Which switches an event throws, and what it binds. */
  lemma CommitSwitches(s: State, e: Event)
    ensures var t := Commit(s, e).0;
      && (t.suspended <==> e.Suspend? || (s.suspended && !e.Resume?))
      && (t.closed <==> e.Close? || s.closed)
      && (t.capturing <==> e.BeginCapture? || (s.capturing && !e.CancelCapture? && !e.CaptureDone?))
      && t.desired == (if e.Apply? then e.binds else s.desired)
      && t.hold == (if e.Apply? then HoldIds(e.binds) else s.hold)
  {
  }

  /** Which actions are active after an event: what the sample holds after a tick that is not
      switched off, and nothing held after a section that takes the active ones. */
  lemma CommitActive(s: State, e: Event, id: Action)
    ensures id in Commit(s, e).0.active <==>
      match e
      case Tick(held, _, _) => if s.suspended || s.closed then id in s.active else id in Active(s.desired, held)
      case Resume => id in s.active
      case CancelCapture => id in s.active
      case CaptureDone => id in s.active
      case Suspend(_) => id in s.active && (s.suspended || id !in s.hold)
      case Close(_) => id in s.active && (s.closed || id !in s.hold)
      case Apply(_, _) => id in s.active && id !in s.hold
      case BeginCapture(_) => id in s.active && id !in s.hold
      case PollFailed(_) => id in s.active && id !in s.hold
  {
  }

  /** The edges of an event are exactly the actions it makes active, and the hold actions that
      stop being active, each once. */
  lemma CommitReports(s: State, e: Event, x: Edge)
    requires Enabled(s, e)
    ensures x in Commit(s, e).1 <==>
      var (id, now) := (x.id, Commit(s, e).0.active);
      if x.Pressed? then id in now && id !in s.active else id in s.active && id !in now && id in s.hold
    ensures forall i, j :: 0 <= i < j < |Commit(s, e).1| ==> Commit(s, e).1[i] != Commit(s, e).1[j]
  {
    match e
    case Tick(held, press, release) =>
      if Dispatches(s) {
        ListedEdges(press, release, x);
      }
    case Apply(_, ord) => ListedEdges([], ord, x); assert Presses([]) + Releases(ord) == Releases(ord);
    case Suspend(ord) =>
      if !s.suspended { ListedEdges([], ord, x); assert Presses([]) + Releases(ord) == Releases(ord); }
    case Close(ord) =>
      if !s.closed { ListedEdges([], ord, x); assert Presses([]) + Releases(ord) == Releases(ord); }
    case BeginCapture(ord) => ListedEdges([], ord, x); assert Presses([]) + Releases(ord) == Releases(ord);
    case PollFailed(ord) => ListedEdges([], ord, x); assert Presses([]) + Releases(ord) == Releases(ord);
    case _ =>
  }

  lemma ListedEdges(press: seq<Action>, release: seq<Action>, x: Edge)
    requires forall i, j :: 0 <= i < j < |press| ==> press[i] != press[j]
    requires forall i, j :: 0 <= i < j < |release| ==> release[i] != release[j]
    ensures var es := Presses(press) + Releases(release);
      && (x in es <==> if x.Pressed? then x.id in press else x.id in release)
      && forall i, j :: 0 <= i < j < |es| ==> es[i] != es[j]
  {
    var es := Presses(press) + Releases(release);
    if x in es {
      var i :| 0 <= i < |es| && es[i] == x;
    }
    if x.Pressed? && x.id in press {
      var i :| 0 <= i < |press| && press[i] == x.id;
      assert es[i] == x;
    }
    if x.Released? && x.id in release {
      var i :| 0 <= i < |release| && release[i] == x.id;
      assert es[|press| + i] == x;
    }
  }

  method ComputeHolds(binds: Bindings) returns (holds: set<Action>)
    ensures holds == HoldIds(binds)
  {
    holds := {};
    var todo := binds.Keys;
    while todo != {}
      invariant todo <= binds.Keys
      invariant holds == HoldIds(binds) - todo
      decreases |todo|
    {
      var id :| id in todo;
      todo := todo - {id};
      var any := AnyHold(binds[id]);
      if any {
        holds := holds + {id};
      }
    }
  }

  method AnyHold(list: seq<Binding>) returns (any: bool)
    ensures any == exists j :: 0 <= j < |list| && list[j].hold
  {
    for i := 0 to |list|
      invariant forall j :: 0 <= j < i ==> !list[j].hold
    {
      if list[i].hold {
        return true;
      }
    }
    any := false;
  }

  // ---- the imperative manager -----------------------------------------------------

  class Manager {
    var desired: Bindings
    var hold: set<Action>
    var active: set<Action>
    var suspended: bool
    var closed: bool
    var capturing: bool
    /** What the handler has been told, in order. */
    var delivered: seq<Edge>

    ghost function View(): State
      reads this
    {
      State(desired, hold, active, suspended, closed, capturing)
    }

    constructor ()
      ensures View() == EMPTY && delivered == []
    {
      desired, hold, active := map[], {}, {};
      suspended, closed, capturing := false, false, false;
      delivered := [];
    }

    method TakeActiveLocked() returns (out: seq<Action>)
      modifies this`active
      ensures Enumerates(out, old(active * hold))
      ensures View() == TakeActive(old(View()))
    {
      out := [];
      var todo := active;
      while todo != {}
        invariant todo <= old(active)
        invariant Enumerates(out, (old(active) - todo) * hold)
        invariant active == old(active) - ((old(active) - todo) * hold)
        decreases |todo|
      {
        var id :| id in todo;
        assert id !in out;
        todo := todo - {id};
        if id in hold {
          out := out + [id];
          active := active - {id};
        }
      }
    }

    method EmitReleases(ids: seq<Action>)
      modifies this`delivered
      ensures delivered == old(delivered) + Releases(ids)
    {
      for i := 0 to |ids|
        invariant delivered == old(delivered) + Releases(ids)[..i]
      {
        delivered := delivered + [Released(ids[i])];
        assert Releases(ids)[..i + 1] == Releases(ids)[..i] + [Released(ids[i])];
      }
      assert Releases(ids)[..|ids|] == Releases(ids);
    }

    method ApplyBindings(binds: Bindings) returns (ghost e: Event)
      modifies this
      ensures e.Apply? && e.binds == binds && Enabled(old(View()), e)
      ensures View() == Commit(old(View()), e).0
      ensures delivered == old(delivered) + Commit(old(View()), e).1
    {
      var holds := ComputeHolds(binds);
      desired := binds;
      var release := TakeActiveLocked();
      hold := holds;
      EmitReleases(release);
      e := Apply(binds, release);
    }

    method SuspendDispatch() returns (ghost e: Event)
      modifies this
      ensures e.Suspend? && Enabled(old(View()), e)
      ensures View() == Commit(old(View()), e).0
      ensures delivered == old(delivered) + Commit(old(View()), e).1
    {
      if suspended {
        return Suspend([]);
      }
      suspended := true;
      var release := TakeActiveLocked();
      EmitReleases(release);
      e := Suspend(release);
    }

    method ResumeDispatch()
      modifies this`suspended
      ensures View() == Commit(old(View()), Resume).0
    {
      suspended := false;
    }

    method ArmCapture() returns (ghost e: Event)
      modifies this
      ensures e.BeginCapture? && Enabled(old(View()), e)
      ensures View() == Commit(old(View()), e).0
      ensures delivered == old(delivered) + Commit(old(View()), e).1
    {
      capturing := true;
      var release := TakeActiveLocked();
      EmitReleases(release);
      e := BeginCapture(release);
    }

    method CloseManager() returns (ghost e: Event)
      modifies this
      ensures e.Close? && Enabled(old(View()), e)
      ensures View() == Commit(old(View()), e).0
      ensures delivered == old(delivered) + Commit(old(View()), e).1
    {
      if closed {
        return Close([]);
      }
      closed := true;
      var release := TakeActiveLocked();
      EmitReleases(release);
      e := Close(release);
    }

    method CollectPresses(want: set<Action>) returns (press: seq<Action>)
      modifies this`active
      ensures active == old(active) + want
      ensures Enumerates(press, want - old(active))
    {
      press := [];
      var todo := want;
      while todo != {}
        invariant todo <= want
        invariant active == old(active) + (want - todo)
        invariant Enumerates(press, (want - todo) - old(active))
        decreases |todo|
      {
        var id :| id in todo;
        assert id !in press;
        todo := todo - {id};
        if id !in active {
          active := active + {id};
          press := press + [id];
        }
      }
    }

    method CollectReleases(want: set<Action>) returns (release: seq<Action>)
      modifies this`active
      ensures active == old(active) * want
      ensures Enumerates(release, (old(active) - want) * hold)
    {
      release := [];
      var todo := active;
      while todo != {}
        invariant todo <= old(active)
        invariant active == (old(active) * want) + todo
        invariant Enumerates(release, (old(active) - todo - want) * hold)
        decreases |todo|
      {
        var id :| id in todo;
        assert id !in release;
        todo := todo - {id};
        if id !in want {
          active := active - {id};
          if id in hold {
            release := release + [id];
          }
        }
      }
    }

    /** The dispatching half of one poll; `failed` is a poll that returned an error. */
    method TickOnce(held: set<Input>, failed: bool) returns (ghost e: Event)
      modifies this
      ensures (if failed then e.PollFailed? else e.Tick? && e.held == held) && Enabled(old(View()), e)
      ensures View() == Commit(old(View()), e).0
      ensures delivered == old(delivered) + Commit(old(View()), e).1
    {
      if failed {
        var release := TakeActiveLocked();
        EmitReleases(release);
        return PollFailed(release);
      }
      if suspended || closed {
        return Tick(held, [], []);
      }
      var want := ComputeActive(desired, held);
      var press := CollectPresses(want);
      var release := CollectReleases(want);
      assert active == want;
      assert (old(active) + want - want) * hold == (old(active) - want) * hold;
      for i := 0 to |press|
        invariant delivered == old(delivered) + Presses(press)[..i]
        invariant View() == old(View()).(active := want)
      {
        delivered := delivered + [Pressed(press[i])];
        assert Presses(press)[..i + 1] == Presses(press)[..i] + [Pressed(press[i])];
      }
      assert Presses(press)[..|press|] == Presses(press);
      EmitReleases(release);
      e := Tick(held, press, release);
    }
  }

  // ---- every interleaving ----------------------------------------------------------

  /** The manager with the notify lock and what the handler has seen. */
  datatype System = System(s: State, span: Option<Span>, log: seq<Edge>)

  datatype Move =
    | Section(owner: Owner, e: Event)  // take the notify lock and commit
    | Bare(e: Event)                   // a section of the state lock alone
    | Deliver                          // one handler call
    | Unlock                           // the span is over

  ghost function Pending(y: System): seq<Edge> {
    if y.span.Some? then y.span.value.pending else []
  }

  ghost predicate CanMove(y: System, m: Move) {
    match m
    case Section(owner, e) =>
      Notifies(e) && y.span.None? && Enabled(y.s, e) && (e.Apply? ==> Typed(e.binds))
    case Bare(e) => !Notifies(e)
    case Deliver => Pending(y) != []
    case Unlock => y.span.Some? && Pending(y) == []
  }

  ghost function Moved(y: System, m: Move): System
    requires CanMove(y, m)
  {
    match m
    case Section(owner, e) =>
      var (t, es) := Commit(y.s, e); y.(s := t, span := Some(Span(owner, es)))
    case Bare(e) => y.(s := Commit(y.s, e).0)
    case Deliver =>
      var sp := y.span.value;
      y.(span := Some(sp.(pending := sp.pending[1..])), log := y.log + [sp.pending[0]])
    case Unlock => y.(span := None)
  }

  ghost function HeldActive(s: State): set<Action> {
    set id | id in s.active && Hold(id)
  }

  /** Delivered edges followed by the ones in flight are legal, and leave down exactly
      the active hold actions, all of which the hold table knows. */
  ghost predicate Inv(y: System) {
    && Typed(y.s.desired)
    && y.s.hold == HoldIds(y.s.desired)
    && Legal({}, y.log + Pending(y))
    && After({}, y.log + Pending(y)) == HeldActive(y.s)
    && HeldActive(y.s) <= y.s.hold
    && (y.s.closed ==> HeldActive(y.s) == {})
  }

  ghost function HoldSet(ids: seq<Action>): set<Action> { set id | id in ids && Hold(id) }

  ghost predicate Distinct(ids: seq<Action>) { forall i, j :: 0 <= i < j < |ids| ==> ids[i] != ids[j] }

  lemma HoldSetSnoc(ids: seq<Action>)
    requires ids != [] && Distinct(ids)
    ensures var (p, id) := (ids[..|ids| - 1], ids[|ids| - 1]);
      Distinct(p) && id !in p && (forall x :: x in p ==> x in ids) && id in ids
      && HoldSet(ids) == if Hold(id) then HoldSet(p) + {id} else HoldSet(p)
  {
    assert ids == ids[..|ids| - 1] + [ids[|ids| - 1]];
  }

  lemma EdgesSnoc(ids: seq<Action>)
    requires ids != []
    ensures var (p, id) := (ids[..|ids| - 1], ids[|ids| - 1]);
      Presses(ids) == Presses(p) + [Pressed(id)] && Releases(ids) == Releases(p) + [Released(id)]
  {
  }

  /** One more press, of an action that is up; `p` were pressed before it. */
  lemma PressNext(down: set<Action>, p: set<Action>, es: seq<Edge>, id: Action)
    requires Legal(down, es) && After(down, es) == down + p && id !in down && id !in p
    ensures Legal(down, es + [Pressed(id)])
    ensures After(down, es + [Pressed(id)]) == down + if Hold(id) then p + {id} else p
  {
    AfterSnoc(down, es, Pressed(id));
  }

  lemma {:induction false} PressesLegal(down: set<Action>, ids: seq<Action>)
    requires Distinct(ids)
    requires forall id :: id in ids ==> id !in down
    ensures Legal(down, Presses(ids))
    ensures After(down, Presses(ids)) == down + HoldSet(ids)
  {
    if ids != [] {
      var p, id := ids[..|ids| - 1], ids[|ids| - 1];
      HoldSetSnoc(ids);
      PressesLegal(down, p);
      EdgesSnoc(ids);
      PressNext(down, HoldSet(p), Presses(p), id);
    }
  }

  /** One more release, of an action that is down; `p` were released before it. */
  lemma ReleaseNext(down: set<Action>, p: set<Action>, es: seq<Edge>, id: Action)
    requires Legal(down, es) && After(down, es) == down - p && id in down && Hold(id) && id !in p
    ensures Legal(down, es + [Released(id)]) && After(down, es + [Released(id)]) == down - (p + {id})
  {
    AfterSnoc(down, es, Released(id));
  }

  lemma {:induction false} ReleasesLegal(down: set<Action>, ids: seq<Action>)
    requires Distinct(ids)
    requires forall id :: id in ids ==> id in down && Hold(id)
    ensures Legal(down, Releases(ids))
    ensures After(down, Releases(ids)) == down - HoldSet(ids)
  {
    if ids != [] {
      var p, id := ids[..|ids| - 1], ids[|ids| - 1];
      HoldSetSnoc(ids);
      ReleasesLegal(down, p);
      EdgesSnoc(ids);
      ReleaseNext(down, HoldSet(p), Releases(p), id);
    }
  }

  lemma HoldIdsAreHold(binds: Bindings)
    requires Typed(binds)
    ensures forall id :: id in HoldIds(binds) ==> Hold(id)
  {
  }

  lemma ActiveHoldIsKnown(binds: Bindings, held: set<Input>)
    requires Typed(binds)
    ensures forall id :: id in Active(binds, held) && Hold(id) ==> id in HoldIds(binds)
  {
    forall id | id in Active(binds, held) && Hold(id) ensures id in HoldIds(binds) {
      var b :| b in binds[id] && Effective(binds, held, b);
      assert b.hold;
    }
  }

  /** The edges of one section are legal after the active set, and lead to the next one. */
  lemma CommitFollows(s: State, e: Event)
    requires Typed(s.desired) && s.hold == HoldIds(s.desired) && HeldActive(s) <= s.hold
    requires Notifies(e) && Enabled(s, e)
    ensures var (t, es) := Commit(s, e);
      Legal(HeldActive(s), es) && After(HeldActive(s), es) == HeldActive(t)
  {
    HoldIdsAreHold(s.desired);
    match e
    case Tick(held, press, release) =>
      if Dispatches(s) {
        TickFollows(s, Active(s.desired, held), press, release);
      }
    case Suspend(ord) => if !s.suspended { TakeFollows(s, ord); }
    case Close(ord) => if !s.closed { TakeFollows(s, ord); }
    case Apply(_, ord) => TakeFollows(s, ord);
    case BeginCapture(ord) => TakeFollows(s, ord);
    case PollFailed(ord) => TakeFollows(s, ord);
  }

  lemma TakeFollows(s: State, ord: seq<Action>)
    requires HeldActive(s) <= s.hold && (forall id :: id in s.hold ==> Hold(id))
    requires Enumerates(ord, s.active * s.hold)
    ensures Legal(HeldActive(s), Releases(ord))
    ensures After(HeldActive(s), Releases(ord)) == HeldActive(TakeActive(s)) == {}
  {
    assert s.active * s.hold == HeldActive(s);
    ReleasesLegal(HeldActive(s), ord);
    assert HoldSet(ord) == HeldActive(s);
  }

  lemma TickSets(s: State, want: set<Action>, press: seq<Action>, release: seq<Action>)
    requires HeldActive(s) <= s.hold && (forall id :: id in s.hold ==> Hold(id))
    requires Enumerates(press, want - s.active) && Enumerates(release, (s.active - want) * s.hold)
    ensures HoldSet(release) == HeldActive(s) - want
    ensures HoldSet(press) == HeldActive(s.(active := want)) - s.active
  {
  }

  lemma TickFollows(s: State, want: set<Action>, press: seq<Action>, release: seq<Action>)
    requires HeldActive(s) <= s.hold && (forall id :: id in s.hold ==> Hold(id))
    requires Enumerates(press, want - s.active) && Enumerates(release, (s.active - want) * s.hold)
    ensures Legal(HeldActive(s), Presses(press) + Releases(release))
    ensures After(HeldActive(s), Presses(press) + Releases(release)) == HeldActive(s.(active := want))
  {
    PressesLegal(HeldActive(s), press);
    var mid := After(HeldActive(s), Presses(press));
    TickSets(s, want, press, release);
    ReleasesLegal(mid, release);
    AfterConcat(HeldActive(s), Presses(press), Releases(release));
  }

  lemma SectionKeeps(y: System, m: Move)
    requires Inv(y) && m.Section? && CanMove(y, m)
    ensures Inv(Moved(y, m))
  {
    assert y.log + [] == y.log;
    CommitFollows(y.s, m.e);
    AfterConcat({}, y.log, Commit(y.s, m.e).1);
    HoldIdsAreHold(y.s.desired);
    if m.e.Tick? {
      ActiveHoldIsKnown(y.s.desired, m.e.held);
    }
  }

  lemma DeliverKeeps(y: System)
    requires Inv(y) && CanMove(y, Deliver)
    ensures Inv(Moved(y, Deliver))
  {
    var p := y.span.value.pending;
    assert y.log + p == (y.log + [p[0]]) + p[1..];
  }

  lemma MoveKeepsInv(y: System, m: Move)
    requires Inv(y) && CanMove(y, m)
    ensures Inv(Moved(y, m))
  {
    match m
    case Section(_, _) => SectionKeeps(y, m);
    case Bare(e) =>
    case Deliver => DeliverKeeps(y);
    case Unlock =>
  }

  /** Handler calls until nothing is in flight. */
  ghost function Delivered(y: System): System {
    if y.span.None? then y
    else y.(span := Some(y.span.value.(pending := [])), log := y.log + y.span.value.pending)
  }

  ghost predicate Leads(y: System, ms: seq<Move>, z: System)
    decreases |ms|
  {
    if ms == [] then y == z else CanMove(y, ms[0]) && Leads(Moved(y, ms[0]), ms[1..], z)
  }

  lemma {:induction false} DeliversAll(y: System) returns (ms: seq<Move>)
    requires y.span.Some?
    ensures Leads(y, ms, Delivered(y).(span := None))
    decreases |y.span.value.pending|
  {
    if Pending(y) == [] {
      assert y.log + [] == y.log;
      ms := [Unlock];
      assert Leads(Moved(y, Unlock), [], Delivered(y).(span := None));
    } else {
      var p, z := Pending(y), Moved(y, Deliver);
      assert (y.log + [p[0]]) + p[1..] == y.log + p;
      var rest := DeliversAll(z);
      ms := [Deliver] + rest;
      assert ms[1..] == rest;
    }
  }

  /** A section that nothing interrupts has the effect of its method: the state moves on and
      the handler is told the edges, in order. */
  lemma SectionInOneGo(y: System, owner: Owner, e: Event) returns (ms: seq<Move>)
    requires CanMove(y, Section(owner, e))
    ensures Leads(y, ms, System(Commit(y.s, e).0, None, y.log + Commit(y.s, e).1))
  {
    var z := Moved(y, Section(owner, e));
    var rest := DeliversAll(z);
    ms := [Section(owner, e)] + rest;
    assert ms[1..] == rest;
  }

  /** Resuming and the end of a capture need no notify lock: they take effect at once, whatever
      is in flight, and deliver nothing. */
  lemma SwitchesAtOnce(y: System, e: Event)
    requires e.Resume? || e.CancelCapture? || e.CaptureDone?
    ensures CanMove(y, Bare(e))
    ensures var z := Moved(y, Bare(e));
      && z.span == y.span && z.log == y.log && z.s.active == y.s.active && z.s.closed == y.s.closed
      && z.s.suspended == (y.s.suspended && !e.Resume?) && z.s.capturing == (y.s.capturing && e.Resume?)
  {
  }

  ghost predicate Run(ms: seq<Move>)
    decreases |ms|, 0
  {
    |ms| == 0 || (Run(ms[..|ms| - 1]) && CanMove(Exec(ms[..|ms| - 1]), ms[|ms| - 1]))
  }

  ghost function Exec(ms: seq<Move>): System
    requires Run(ms)
    decreases |ms|, 1
  {
    if |ms| == 0 then System(EMPTY, None, [])
    else Moved(Exec(ms[..|ms| - 1]), ms[|ms| - 1])
  }

  lemma {:induction false} RunKeepsInv(ms: seq<Move>)
    requires Run(ms)
    ensures Inv(Exec(ms))
  {
    if ms == [] {
      assert HoldIds(map[]) == {};
    } else {
      RunKeepsInv(ms[..|ms| - 1]);
      MoveKeepsInv(Exec(ms[..|ms| - 1]), ms[|ms| - 1]);
    }
  }

  /** For every interleaving: what the handler has seen is legal, so the edges of a hold
      action alternate and press-kind actions get no release (`LegalAlternates`); between
      spans the handler believes exactly the active hold actions down; once closed and
      delivered, nothing is down. */
  lemma HandlerSeesBalancedEdges(ms: seq<Move>)
    requires Run(ms)
    ensures var y := Exec(ms);
      && Legal({}, y.log)
      && (y.span.None? ==> After({}, y.log) == HeldActive(y.s))
      && (y.s.closed && Pending(y) == [] ==> After({}, y.log) == {})
  {
    RunKeepsInv(ms);
    var y := Exec(ms);
    AfterConcat({}, y.log, Pending(y));
    if Pending(y) == [] {
      assert y.log + Pending(y) == y.log;
    }
  }

  /** A dispatching tick leaves the active set at exactly what the sample holds, for every
      action of either kind, and a button that stays down fires once: the same sample
      again delivers nothing. */
  lemma TickTracksSample(ms: seq<Move>, held: set<Input>, press: seq<Action>, release: seq<Action>,
                         press2: seq<Action>, release2: seq<Action>)
    requires Run(ms) && Dispatches(Exec(ms).s)
    requires Enabled(Exec(ms).s, Tick(held, press, release))
    requires Enabled(Commit(Exec(ms).s, Tick(held, press, release)).0, Tick(held, press2, release2))
    ensures var (t, es) := Commit(Exec(ms).s, Tick(held, press, release));
      && t.active == Active(t.desired, held)
      && Commit(t, Tick(held, press2, release2)) == (t, [])
  {
    var t := Commit(Exec(ms).s, Tick(held, press, release)).0;
    assert Active(t.desired, held) - t.active == {};
    assert (t.active - Active(t.desired, held)) * t.hold == {};
    if press2 != [] { HasElement(press2); }
    if release2 != [] { HasElement(release2); }
    assert Presses([]) + Releases([]) == [];
  }

  /** A rebind does not refire a press-kind action whose button is still down: it stays
      latched through any section that takes the held actions away. */
  lemma PressKindSurvivesTake(s: State, e: Event, id: Action)
    requires Typed(s.desired) && s.hold == HoldIds(s.desired)
    requires Enabled(s, e) && !e.Tick? && id in s.active && !Hold(id)
    ensures id in Commit(s, e).0.active
  {
    HoldIdsAreHold(s.desired);
  }
}
