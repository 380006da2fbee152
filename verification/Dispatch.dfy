/** The keyboard dispatcher: latches, generations and the stale-latch watchdog.
    One event is one critical section of the dispatcher's lock; the handler calls it
    owes are the commits it returns. */
module Dispatch {
  import opened Edges

  /** One registered hotkey. */
  datatype Bound = Bound(code: int, mods: int, hold: bool)

  /** A handler call owed by a committed latch change, tagged with its generation. */
  datatype Commit =
    | Press(id: Action, gen: nat, hold: bool)
    | Release(id: Action, gen: nat)

  datatype State = State(binds: map<Action, Bound>, latched: map<Action, nat>, gen: nat)

  const EMPTY := State(map[], map[], 0)

  /** What one event does. `ord` is the order in which the map loop met its keys. */
  datatype Event =
    | Add(id: Action, b: Bound)
    | Clear(ord: seq<Action>)
    | ReleaseHeld(ord: seq<Action>)
    | KeyDown(code: int, mods: int, ord: seq<Action>)
    | KeyUp(code: int, ord: seq<Action>)
    | Watchdog(id: Action, gen: nat)

  ghost function DownSet(s: State, code: int, mods: int): set<Action> {
    set id | id in s.binds && s.binds[id].code == code && s.binds[id].mods == mods && id !in s.latched
  }

  ghost function UpSet(s: State, code: int): set<Action> {
    set id | id in s.binds && s.binds[id].code == code && id in s.latched
  }

  /** The release a removed latch owes: none for a press-only binding. */
  ghost function Owed(s: State, id: Action): seq<Commit> {
    if id in s.latched && id in s.binds && s.binds[id].hold then [Release(id, s.latched[id])] else []
  }

  ghost function Take(s: State, id: Action): State {
    s.(latched := s.latched - {id})
  }

  ghost function TakeAll(s: State, ord: seq<Action>): (State, seq<Commit>) {
    if |ord| == 0 then (s, [])
    else
      var id := ord[|ord| - 1];
      var (t, out) := TakeAll(s, ord[..|ord| - 1]);
      (Take(t, id), out + Owed(t, id))
  }

  ghost function LatchAll(s: State, ord: seq<Action>): (State, seq<Commit>)
    ensures LatchAll(s, ord).0.binds == s.binds
  {
    if |ord| == 0 then (s, [])
    else
      var id := ord[|ord| - 1];
      var (t, out) := LatchAll(s, ord[..|ord| - 1]);
      (t.(latched := t.latched[id := t.gen + 1], gen := t.gen + 1),
       out + [Press(id, t.gen + 1, id in s.binds && s.binds[id].hold)])
  }

  ghost predicate Enabled(s: State, e: Event) {
    match e
    case Clear(ord) => Enumerates(ord, s.latched.Keys)
    case ReleaseHeld(ord) => Enumerates(ord, s.latched.Keys)
    case KeyDown(code, mods, ord) => Enumerates(ord, DownSet(s, code, mods))
    case KeyUp(code, ord) => Enumerates(ord, UpSet(s, code))
    case _ => true
  }

  ghost function Next(s: State, e: Event): (State, seq<Commit>)
    requires Enabled(s, e)
  {
    match e
    case Add(id, b) => (Take(s, id).(binds := s.binds[id := b]), Owed(s, id))
    case Clear(ord) => var (t, out) := TakeAll(s, ord); (t.(binds := map[]), out)
    case ReleaseHeld(ord) => TakeAll(s, ord)
    case KeyDown(code, mods, ord) => LatchAll(s, ord)
    case KeyUp(code, ord) => TakeAll(s, ord)
    case Watchdog(id, gen) =>
      if id in s.latched && s.latched[id] == gen then (Take(s, id), Owed(s, id)) else (s, [])
  }

  // ---- what an event does, said of one action --------------------------------------

  /** Which actions are latched after an event. */
  lemma StepLatches(s: State, e: Event, id: Action)
    requires Enabled(s, e)
    ensures id in Next(s, e).0.latched <==>
      match e
      case Add(x, _) => id in s.latched && id != x
      case Clear(_) => false
      case ReleaseHeld(_) => false
      case KeyDown(code, mods, _) =>
        id in s.latched || (id in s.binds && s.binds[id].code == code && s.binds[id].mods == mods)
      case KeyUp(code, _) => id in s.latched && !(id in s.binds && s.binds[id].code == code)
      case Watchdog(x, gen) => id in s.latched && !(id == x && s.latched[id] == gen)
  {
    match e
    case Clear(ord) => TakeAllDomain(s, ord);
    case ReleaseHeld(ord) => TakeAllDomain(s, ord);
    case KeyDown(_, _, ord) => LatchAllDomain(s, ord);
    case KeyUp(_, ord) => TakeAllDomain(s, ord);
    case _ =>
  }

  /** One commit reports one latch change: a press a new latch, a release a lost hold latch. */
  ghost predicate IsReport(s: State, t: State, c: Commit) {
    match c
    case Press(id, gen, hold) =>
      id !in s.latched && id in t.latched && t.latched[id] == gen && id in s.binds && s.binds[id].hold == hold
    case Release(id, gen) =>
      id in s.latched && id !in t.latched && s.latched[id] == gen && id in s.binds && s.binds[id].hold
  }

  ghost predicate OncePerAction(out: seq<Commit>) { forall i, j :: 0 <= i < j < |out| ==> out[i].id != out[j].id }

  /** The commits of an event are exactly the latches it changes, each once. */
  ghost predicate Reports(s: State, t: State, out: seq<Commit>) {
    OncePerAction(out) && forall c :: c in out <==> IsReport(s, t, c)
  }

  /** One more latch is taken. */
  lemma TakeReports(s: State, t: State, out: seq<Commit>, id: Action)
    requires Reports(s, t, out) && t.binds == s.binds
    requires forall x <- t.latched :: x in s.latched && t.latched[x] == s.latched[x]
    ensures Reports(s, Take(t, id), out + Owed(t, id))
  {
    var u, more := Take(t, id), out + Owed(t, id);
    if Owed(t, id) != [] {
      assert IsReport(s, u, Owed(t, id)[0]);
      assert forall c: Commit :: c.id == id ==> !IsReport(s, t, c);
    }
    forall c ensures c in more <==> IsReport(s, u, c) {
      assert c in more <==> c in out || c in Owed(t, id);
      assert c.id != id ==> (IsReport(s, u, c) <==> IsReport(s, t, c));
    }
  }

  lemma {:induction false} TakeAllReports(s: State, ord: seq<Action>)
    ensures Reports(s, TakeAll(s, ord).0, TakeAll(s, ord).1)
  {
    if ord != [] {
      var first := ord[..|ord| - 1];
      TakeAllReports(s, first);
      TakeAllDomain(s, first);
      TakeReports(s, TakeAll(s, first).0, TakeAll(s, first).1, ord[|ord| - 1]);
    }
  }

  /** One more action is latched. */
  lemma LatchReports(s: State, t: State, out: seq<Commit>, id: Action)
    requires Reports(s, t, out) && t.binds == s.binds
    requires id in s.binds && id !in s.latched && id !in t.latched
    ensures Reports(s, Latch(t, id), out + [Press(id, t.gen + 1, t.binds[id].hold)])
  {
    var p := Press(id, t.gen + 1, t.binds[id].hold);
    var u, more := Latch(t, id), out + [p];
    assert IsReport(s, u, p);
    assert forall c: Commit :: c.id == id ==> !IsReport(s, t, c);
    forall c ensures c in more <==> IsReport(s, u, c) {
      assert c in more <==> c in out || c == p;
      assert c.id != id ==> (IsReport(s, u, c) <==> IsReport(s, t, c));
    }
  }

  lemma {:induction false} LatchAllReports(s: State, ord: seq<Action>)
    requires Latchable(s, ord)
    ensures Reports(s, LatchAll(s, ord).0, LatchAll(s, ord).1)
  {
    if ord != [] {
      var first, id := ord[..|ord| - 1], ord[|ord| - 1];
      LatchAllReports(s, first);
      LatchAllDomain(s, first);
      LatchReports(s, LatchAll(s, first).0, LatchAll(s, first).1, id);
      LatchAllUnfolds(s, ord);
    }
  }

  lemma KeyDownLatchable(s: State, code: int, mods: int, ord: seq<Action>)
    requires Enabled(s, KeyDown(code, mods, ord))
    ensures Latchable(s, ord)
  {
    forall i | 0 <= i < |ord| ensures ord[i] in s.binds && ord[i] !in s.latched { assert ord[i] in ord; }
    EnumeratedIsLatchable(s, ord);
  }

  /** Every event reports its latch changes, and touches no binding it does not name. */
  lemma StepReports(s: State, e: Event)
    requires Enabled(s, e)
    ensures Reports(s, Next(s, e).0, Next(s, e).1)
    ensures Next(s, e).0.binds
         == match e case Add(x, b) => s.binds[x := b] case Clear(_) => map[] case _ => s.binds
    ensures forall id <- Next(s, e).0.latched :: id in s.latched ==> Next(s, e).0.latched[id] == s.latched[id]
  {
    match e
    case Clear(ord) => TakeAllReports(s, ord); TakeAllDomain(s, ord);
    case ReleaseHeld(ord) => TakeAllReports(s, ord); TakeAllDomain(s, ord);
    case KeyDown(code, mods, ord) =>
      KeyDownLatchable(s, code, mods, ord);
      LatchAllReports(s, ord);
      LatchAllDomain(s, ord);
    case KeyUp(_, ord) => TakeAllReports(s, ord); TakeAllDomain(s, ord);
    case _ =>
  }

  // ---- the imperative dispatcher -------------------------------------------------

  class Dispatcher {
    var binds: map<Action, Bound>
    var latched: map<Action, nat>
    var gen: nat

    ghost function View(): State
      reads this
    {
      State(binds, latched, gen)
    }

    constructor ()
      ensures View() == EMPTY
    {
      binds, latched, gen := map[], map[], 0;
    }

    /** takeLatchLocked: the only place a latch is removed. */
    method TakeLatch(id: Action) returns (out: seq<Commit>)
      modifies this
      ensures View() == Take(old(View()), id) && out == Owed(old(View()), id)
    {
      out := [];
      if id !in latched {
        assert latched == latched - {id};
        return;
      }
      var g := latched[id];
      latched := latched - {id};
      if id in binds && binds[id].hold {
        out := [Release(id, g)];
      }
    }

    method DrainLatched() returns (out: seq<Commit>, ghost ord: seq<Action>)
      modifies this
      ensures Enumerates(ord, old(latched).Keys)
      ensures (View(), out) == TakeAll(old(View()), ord)
      ensures latched == map[] && binds == old(binds) && gen == old(gen)
    {
      out, ord := [], [];
      var todo := latched.Keys;
      while todo != {}
        invariant Enumerates(ord, old(latched).Keys - todo)
        invariant todo <= old(latched).Keys
        invariant (View(), out) == TakeAll(old(View()), ord)
        invariant latched.Keys == todo && binds == old(binds) && gen == old(gen)
        decreases |todo|
      {
        var id :| id in todo;
        todo := todo - {id};
        var more := TakeLatch(id);
        out := out + more;
        ghost var longer := ord + [id];
        assert longer[..|longer| - 1] == ord;
        ord := longer;
      }
      assert latched.Keys == {};
    }

    method AddBinding(id: Action, b: Bound) returns (out: seq<Commit>)
      modifies this
      ensures (View(), out) == Next(old(View()), Add(id, b))
    {
      out := TakeLatch(id);
      binds := binds[id := b];
    }

    method ClearAll() returns (out: seq<Commit>, ghost ord: seq<Action>)
      modifies this
      ensures Enabled(old(View()), Clear(ord)) && (View(), out) == Next(old(View()), Clear(ord))
      ensures latched == map[] && binds == map[] && gen == old(gen)
    {
      out, ord := DrainLatched();
      binds := map[];
    }

    method ReleaseAllHeld() returns (out: seq<Commit>, ghost ord: seq<Action>)
      modifies this
      ensures Enabled(old(View()), ReleaseHeld(ord)) && (View(), out) == Next(old(View()), ReleaseHeld(ord))
      ensures latched == map[] && binds == old(binds) && gen == old(gen)
    {
      out, ord := DrainLatched();
    }

    /** A key going down: an exact match of key and modifiers, among actions not latched. */
    method HandleDown(code: int, mods: int) returns (out: seq<Commit>, ghost ord: seq<Action>)
      modifies this
      ensures Enabled(old(View()), KeyDown(code, mods, ord))
      ensures (View(), out) == Next(old(View()), KeyDown(code, mods, ord))
      ensures forall id :: id in latched <==>
                id in old(latched) || (id in binds && binds[id] == Bound(code, mods, binds[id].hold))
      ensures Reports(old(View()), View(), out) && binds == old(binds)
    {
      out, ord := [], [];
      var todo := binds.Keys;
      while todo != {}
        invariant todo <= old(binds).Keys && binds == old(binds)
        invariant Enumerates(ord, DownSet(old(View()), code, mods) - todo)
        invariant forall id :: id in ord ==> id in old(View()).binds
        invariant (View(), out) == LatchAll(old(View()), ord)
        invariant forall id :: id in todo ==> (id in latched <==> id in old(latched))
        decreases |todo|
      {
        var id :| id in todo;
        todo := todo - {id};
        var b := binds[id];
        if b.code != code || b.mods != mods || id in latched {
          continue;
        }
        gen := gen + 1;
        latched := latched[id := gen];
        out := out + [Press(id, gen, b.hold)];
        ghost var longer := ord + [id];
        assert longer[..|longer| - 1] == ord;
        ord := longer;
      }
      StepReports(old(View()), KeyDown(code, mods, ord));
      forall id ensures id in latched <==>
                  id in old(latched) || (id in binds && binds[id] == Bound(code, mods, binds[id].hold)) {
        StepLatches(old(View()), KeyDown(code, mods, ord), id);
      }
    }

    /** A key going up: the physical key alone, among latched actions. */
    method HandleUp(code: int) returns (out: seq<Commit>, ghost ord: seq<Action>)
      modifies this
      ensures Enabled(old(View()), KeyUp(code, ord)) && (View(), out) == Next(old(View()), KeyUp(code, ord))
      ensures forall id :: id in latched <==> id in old(latched) && !(id in binds && binds[id].code == code)
      ensures Reports(old(View()), View(), out) && binds == old(binds)
    {
      out, ord := [], [];
      var todo := binds.Keys;
      while todo != {}
        invariant todo <= old(binds).Keys && binds == old(binds)
        invariant Enumerates(ord, UpSet(old(View()), code) - todo)
        invariant (View(), out) == TakeAll(old(View()), ord)
        invariant forall id :: id in todo ==> (id in latched <==> id in old(latched))
        decreases |todo|
      {
        var id :| id in todo;
        todo := todo - {id};
        if binds[id].code != code || id !in latched {
          continue;
        }
        var more := TakeLatch(id);
        out := out + more;
        ghost var longer := ord + [id];
        assert longer[..|longer| - 1] == ord;
        ord := longer;
      }
      StepReports(old(View()), KeyUp(code, ord));
      forall id ensures id in latched <==> id in old(latched) && !(id in binds && binds[id].code == code) {
        StepLatches(old(View()), KeyUp(code, ord), id);
      }
    }

    /** The watchdog of generation `g` waking up, however late. */
    method ForceRelease(id: Action, g: nat) returns (out: seq<Commit>)
      modifies this
      ensures (View(), out) == Next(old(View()), Watchdog(id, g))
    {
      if id !in latched || latched[id] != g {
        return [];
      }
      out := TakeLatch(id);
    }
  }

  // ---- every run ------------------------------------------------------------------

  ghost predicate Run(es: seq<Event>)
    decreases |es|, 0
  {
    |es| == 0 || (Run(es[..|es| - 1]) && Enabled(Exec(es[..|es| - 1]).0, es[|es| - 1]))
  }

  /** The state and the commits after the events `es`, from an empty dispatcher. */
  ghost function Exec(es: seq<Event>): (State, seq<Commit>)
    requires Run(es)
    decreases |es|, 1
  {
    if |es| == 0 then (EMPTY, [])
    else
      var (s, log) := Exec(es[..|es| - 1]);
      var (t, out) := Next(s, es[|es| - 1]);
      (t, log + out)
  }

  /** The hold presses not yet released, with their generations. */
  ghost function Open(log: seq<Commit>): map<Action, nat> {
    if |log| == 0 then map[]
    else
      var o := Open(log[..|log| - 1]);
      match log[|log| - 1]
      case Press(id, gen, hold) => if hold then o[id := gen] else o
      case Release(id, _) => o - {id}
  }

  /** Generations are pressed once; a release closes exactly the press still open. */
  ghost predicate Balanced(log: seq<Commit>) {
    |log| == 0 ||
    (var pre := log[..|log| - 1];
     Balanced(pre) &&
     match log[|log| - 1]
     case Press(id, gen, hold) => (forall c :: c in pre ==> c.gen != gen) && (hold ==> id !in Open(pre))
     case Release(id, gen) => id in Open(pre) && Open(pre)[id] == gen)
  }

  ghost function HoldLatches(s: State): map<Action, nat> {
    map id | id in s.latched && id in s.binds && s.binds[id].hold :: s.latched[id]
  }

  ghost predicate Inv(s: State, log: seq<Commit>) {
    && s.latched.Keys <= s.binds.Keys
    && Balanced(log)
    && Open(log) == HoldLatches(s)
    && (forall c :: c in log ==> c.gen <= s.gen)
    && (forall id :: id in s.latched ==> s.latched[id] <= s.gen)
  }

  lemma PressSnoc(log: seq<Commit>, id: Action, gen: nat, hold: bool)
    requires Balanced(log) && (forall c :: c in log ==> c.gen < gen) && (hold ==> id !in Open(log))
    ensures Balanced(log + [Press(id, gen, hold)])
    ensures Open(log + [Press(id, gen, hold)]) == if hold then Open(log)[id := gen] else Open(log)
  {
    var more := log + [Press(id, gen, hold)];
    assert more[..|more| - 1] == log;
  }

  lemma ReleaseSnoc(log: seq<Commit>, id: Action)
    requires Balanced(log) && id in Open(log)
    ensures Balanced(log + [Release(id, Open(log)[id])])
    ensures Open(log + [Release(id, Open(log)[id])]) == Open(log) - {id}
  {
    var more := log + [Release(id, Open(log)[id])];
    assert more[..|more| - 1] == log;
  }

  lemma TakeKeeps(s: State, log: seq<Commit>, id: Action)
    requires Inv(s, log)
    ensures Inv(Take(s, id), log + Owed(s, id))
  {
    var t := Take(s, id);
    if Owed(s, id) == [] {
      assert log + Owed(s, id) == log;
      assert HoldLatches(t) == HoldLatches(s);
    } else {
      assert id in HoldLatches(s);
      ReleaseSnoc(log, id);
      assert HoldLatches(t) == HoldLatches(s) - {id};
    }
  }

  lemma {:induction false} TakeAllKeeps(s: State, log: seq<Commit>, ord: seq<Action>)
    requires Inv(s, log)
    ensures var (t, out) := TakeAll(s, ord); Inv(t, log + out)
  {
    if ord == [] {
      assert log + [] == log;
    } else {
      var n := |ord| - 1;
      TakeAllKeeps(s, log, ord[..n]);
      var (t, out) := TakeAll(s, ord[..n]);
      TakeKeeps(t, log + out, ord[n]);
      assert log + out + Owed(t, ord[n]) == log + (out + Owed(t, ord[n]));
    }
  }

  ghost function Latch(s: State, id: Action): State {
    s.(latched := s.latched[id := s.gen + 1], gen := s.gen + 1)
  }

  lemma LatchKeeps(s: State, log: seq<Commit>, id: Action)
    requires Inv(s, log) && id in s.binds && id !in s.latched
    ensures Inv(Latch(s, id), log + [Press(id, s.gen + 1, s.binds[id].hold)])
  {
    var c := Press(id, s.gen + 1, s.binds[id].hold);
    var t := Latch(s, id);
    assert id !in Open(log);
    PressSnoc(log, id, s.gen + 1, s.binds[id].hold);
    assert HoldLatches(t) == if s.binds[id].hold then HoldLatches(s)[id := s.gen + 1] else HoldLatches(s);
    forall x | x in log + [c] ensures x.gen <= t.gen {}
  }

  /** One more action is latched after `out` was emitted. */
  lemma LatchOneMore(t: State, log: seq<Commit>, out: seq<Commit>, id: Action)
    requires Inv(t, log + out) && id in t.binds && id !in t.latched
    ensures Inv(Latch(t, id), log + (out + [Press(id, t.gen + 1, t.binds[id].hold)]))
  {
    var c := Press(id, t.gen + 1, t.binds[id].hold);
    LatchKeeps(t, log + out, id);
    assert log + out + [c] == log + (out + [c]);
  }

  /** Bound actions, each once and none latched yet. */
  ghost predicate Latchable(s: State, ord: seq<Action>) {
    ord == [] ||
    var first, id := ord[..|ord| - 1], ord[|ord| - 1];
    Latchable(s, first) && id in s.binds && id !in s.latched && id !in first
  }

  lemma {:induction false} EnumeratedIsLatchable(s: State, ord: seq<Action>)
    requires forall i, j :: 0 <= i < j < |ord| ==> ord[i] != ord[j]
    requires forall i :: 0 <= i < |ord| ==> ord[i] in s.binds && ord[i] !in s.latched
    ensures Latchable(s, ord)
  {
    if ord != [] { EnumeratedIsLatchable(s, ord[..|ord| - 1]); }
  }

  lemma {:induction false} LatchAllKeeps(s: State, log: seq<Commit>, ord: seq<Action>)
    requires Inv(s, log) && Latchable(s, ord)
    ensures var (t, out) := LatchAll(s, ord); Inv(t, log + out)
  {
    if ord == [] {
      assert log + [] == log;
    } else {
      var first, id := ord[..|ord| - 1], ord[|ord| - 1];
      LatchAllKeeps(s, log, first);
      LatchAllDomain(s, first);
      var (t, out) := LatchAll(s, first);
      LatchOneMore(t, log, out, id);
      LatchAllUnfolds(s, ord);
    }
  }

  lemma LatchAllUnfolds(s: State, ord: seq<Action>)
    requires ord != []
    ensures var ((t, out), id) := (LatchAll(s, ord[..|ord| - 1]), ord[|ord| - 1]);
      id in t.binds ==> LatchAll(s, ord) == (Latch(t, id), out + [Press(id, t.gen + 1, t.binds[id].hold)])
  {
  }

  lemma StepKeeps(s: State, log: seq<Commit>, e: Event)
    requires Inv(s, log) && Enabled(s, e)
    ensures var (t, out) := Next(s, e); Inv(t, log + out)
  {
    match e
    case Add(id, b) =>
      TakeKeeps(s, log, id);
      var t := Take(s, id);
      assert HoldLatches(t.(binds := s.binds[id := b])) == HoldLatches(t);
    case Clear(ord) =>
      TakeAllKeeps(s, log, ord);
      TakeAllDomain(s, ord);
      var t := TakeAll(s, ord).0;
      assert t.latched.Keys == {};
      assert HoldLatches(t) == map[] == HoldLatches(t.(binds := map[]));
    case ReleaseHeld(ord) => TakeAllKeeps(s, log, ord);
    case KeyDown(code, mods, ord) =>
      KeyDownLatchable(s, code, mods, ord);
      LatchAllKeeps(s, log, ord);
    case KeyUp(code, ord) => TakeAllKeeps(s, log, ord);
    case Watchdog(id, gen) =>
      TakeKeeps(s, log, id);
      assert log + [] == log;
  }

  /** Over every run: every latch has a binding, the commits are balanced, and what is
      open in the log is exactly the hold latches. */
  lemma {:induction false} RunKeepsInv(es: seq<Event>)
    requires Run(es)
    ensures Inv(Exec(es).0, Exec(es).1)
  {
    if es != [] {
      RunKeepsInv(es[..|es| - 1]);
      var (s, log) := Exec(es[..|es| - 1]);
      StepKeeps(s, log, es[|es| - 1]);
    }
  }

  /** Hold presses of `id` minus its releases. */
  ghost function Net(log: seq<Commit>, id: Action): int {
    if |log| == 0 then 0
    else
      var c := log[|log| - 1];
      Net(log[..|log| - 1], id) +
      (if c.id != id then 0 else match c case Press(_, _, hold) => if hold then 1 else 0 case Release(_, _) => -1)
  }

  lemma {:induction false} BalancedNet(log: seq<Commit>, id: Action)
    requires Balanced(log)
    ensures Net(log, id) == if id in Open(log) then 1 else 0
  {
    if log != [] {
      BalancedNet(log[..|log| - 1], id);
    }
  }

  lemma {:induction false} OpenWasPressed(log: seq<Commit>, id: Action)
    requires Balanced(log) && id in Open(log)
    ensures Press(id, Open(log)[id], true) in log
    ensures Release(id, Open(log)[id]) !in log
  {
    var n := |log| - 1;
    if log[n].id == id && log[n].Press? && log[n].hold {
    } else {
      OpenWasPressed(log[..n], id);
      assert log == log[..n] + [log[n]];
    }
  }

  /** A balanced log releases a generation at most once, after its press. */
  lemma {:induction false} ReleasedOnce(log: seq<Commit>, i: nat, j: nat)
    requires Balanced(log) && i < j < |log| && log[j].Release?
    ensures log[i] != log[j]
    ensures Press(log[j].id, log[j].gen, true) in log[..j]
  {
    var n := |log| - 1;
    if j < n {
      ReleasedOnce(log[..n], i, j);
      assert log[..n][..j] == log[..j];
    } else {
      OpenWasPressed(log[..n], log[j].id);
      assert log[i] in log[..n];
    }
  }

  /** The promise for an open microphone. On every run a hold action has been pressed
      once more than released while latched and equally often otherwise; no generation is
      released twice; a watchdog of any age releases its own press or nothing. */
  lemma RunsAreSafe(es: seq<Event>, id: Action, g: nat)
    requires Run(es)
    ensures var (s, log) := Exec(es);
      && s.latched.Keys <= s.binds.Keys
      && Net(log, id) == (if id in s.latched && s.binds[id].hold then 1 else 0)
      && (forall i, j :: 0 <= i < j < |log| && log[j].Release? ==> log[i] != log[j])
      && var (t, out) := Next(s, Watchdog(id, g));
         && (out != [] ==> out == [Release(id, g)] && Press(id, g, true) in log && Release(id, g) !in log)
         && (out != [] <==> id in s.latched && s.latched[id] == g && s.binds[id].hold)
         && (id !in s.latched || s.latched[id] != g ==> t == s)
  {
    RunKeepsInv(es);
    var (s, log) := Exec(es);
    BalancedNet(log, id);
    assert id in Open(log) <==> id in HoldLatches(s);
    forall i, j | 0 <= i < j < |log| && log[j].Release? ensures log[i] != log[j] {
      ReleasedOnce(log, i, j);
    }
    if id in Open(log) {
      OpenWasPressed(log, id);
    }
  }

  lemma {:induction false} RunPrefix(es: seq<Event>, k: nat)
    requires Run(es) && k <= |es|
    ensures Run(es[..k])
    ensures Exec(es[..k]).1 <= Exec(es).1
  {
    if k == |es| {
      assert es[..k] == es;
    } else {
      RunPrefix(es[..|es| - 1], k);
      assert es[..|es| - 1][..k] == es[..k];
    }
  }

  /** Event `k` has a cause for commit `c`: for a press, a key going down with exactly the key
      and modifiers of the binding live then; for a release, whatever ends that very latch. */
  ghost predicate Causes(es: seq<Event>, k: nat, c: Commit) {
    && k < |es| && Run(es[..k])
    && var s := Exec(es[..k]).0;
       && c.id in s.binds
       && match c
          case Press(id, gen, hold) =>
            es[k].KeyDown? && s.binds[id] == Bound(es[k].code, es[k].mods, hold) && id !in s.latched
          case Release(id, gen) =>
            && s.binds[id].hold && id in s.latched && s.latched[id] == gen
            && match es[k]
               case Add(x, _) => x == id
               case Clear(_) => true
               case ReleaseHeld(_) => true
               case KeyDown(_, _, _) => false
               case KeyUp(code, _) => s.binds[id].code == code
               case Watchdog(x, g) => x == id && g == gen
  }

  lemma CommitHasCause(s: State, e: Event, c: Commit)
    requires Enabled(s, e) && c in Next(s, e).1
    ensures c.id in s.binds
    ensures c.Press? ==> e.KeyDown? && s.binds[c.id] == Bound(e.code, e.mods, c.hold) && c.id !in s.latched
    ensures c.Release? ==> s.binds[c.id].hold && c.id in s.latched && s.latched[c.id] == c.gen && !e.KeyDown?
    ensures c.Release? && e.Add? ==> e.id == c.id
    ensures c.Release? && e.KeyUp? ==> s.binds[c.id].code == e.code
    ensures c.Release? && e.Watchdog? ==> e.id == c.id && e.gen == c.gen
  {
    StepReports(s, e);
    StepLatches(s, e, c.id);
    assert IsReport(s, Next(s, e).0, c);
  }

  /** Over every run, each edge the dispatcher commits has its cause. */
  lemma {:induction false} EveryCommitHasCause(es: seq<Event>, c: Commit)
    requires Run(es) && c in Exec(es).1
    ensures exists k: nat :: Causes(es, k, c)
  {
    var n := |es| - 1;
    var s := Exec(es[..n]).0;
    if c in Exec(es[..n]).1 {
      EveryCommitHasCause(es[..n], c);
      var k: nat :| Causes(es[..n], k, c);
      assert es[..n][..k] == es[..k];
      assert Causes(es, k, c);
    } else {
      CommitHasCause(s, es[n], c);
      assert Causes(es, n, c);
    }
  }

  /** Over every run, a key going down presses every action bound to exactly that key and
      those modifiers that is not latched yet; and what ends a hold latch releases it. */
  lemma EveryCauseCommits(es: seq<Event>, k: nat, id: Action)
    requires Run(es) && k < |es| && Run(es[..k]) && id in Exec(es[..k]).0.binds
    ensures var s, e := Exec(es[..k]).0, es[k];
      && (e.KeyDown? && s.binds[id].code == e.code && s.binds[id].mods == e.mods && id !in s.latched ==>
            exists gen: nat :: Press(id, gen, s.binds[id].hold) in Exec(es).1 && gen > s.gen)
      && (id in s.latched && s.binds[id].hold
          && (e.Clear? || e.ReleaseHeld? || (e.KeyUp? && s.binds[id].code == e.code) || (e.Add? && e.id == id)
              || (e.Watchdog? && e.id == id && e.gen == s.latched[id])) ==>
            Release(id, s.latched[id]) in Exec(es).1)
  {
    var s, e := Exec(es[..k]).0, es[k];
    RunPrefix(es, k + 1);
    assert es[..k + 1][..k] == es[..k];
    var t, out := Next(s, e).0, Next(s, e).1;
    assert Exec(es[..k + 1]).1 == Exec(es[..k]).1 + out;
    assert forall c <- out :: c in Exec(es[..k + 1]).1;
    StepReports(s, e);
    StepLatches(s, e, id);
    if id in t.latched && id !in s.latched {
      NewLatchIsNewer(s, e, id);
      assert IsReport(s, t, Press(id, t.latched[id], s.binds[id].hold));
    } else if id in s.latched && id !in t.latched && s.binds[id].hold {
      assert IsReport(s, t, Release(id, s.latched[id]));
    }
  }

  lemma NewLatchIsNewer(s: State, e: Event, id: Action)
    requires Enabled(s, e) && id in Next(s, e).0.latched && id !in s.latched
    ensures Next(s, e).0.latched[id] > s.gen
  {
    StepLatches(s, e, id);
    LatchAllNewer(s, e.ord);
  }

  lemma {:induction false} LatchAllNewer(s: State, ord: seq<Action>)
    ensures LatchAll(s, ord).0.gen >= s.gen
    ensures forall id <- LatchAll(s, ord).0.latched :: id in s.latched || LatchAll(s, ord).0.latched[id] > s.gen
  {
    if ord != [] { LatchAllNewer(s, ord[..|ord| - 1]); }
  }

  /** A key that was latched is always released by its key coming up, whatever modifiers
      are held by then; an auto-repeat of a held key does nothing. */
  lemma UpUndoesDown(s: State, code: int, mods: int, ord: seq<Action>, ord2: seq<Action>)
    requires s.latched.Keys <= s.binds.Keys
    requires Enabled(s, KeyDown(code, mods, ord))
    ensures var t := Next(s, KeyDown(code, mods, ord)).0;
      && DownSet(t, code, mods) == {}
      && (forall id :: id in ord ==> id in UpSet(t, code))
      && (Enabled(t, KeyUp(code, ord2)) ==>
            forall id :: id in ord ==> id !in Next(t, KeyUp(code, ord2)).0.latched)
  {
    LatchAllDomain(s, ord);
    var t := Next(s, KeyDown(code, mods, ord)).0;
    if Enabled(t, KeyUp(code, ord2)) {
      TakeAllDomain(t, ord2);
    }
  }

  lemma {:induction false} LatchAllDomain(s: State, ord: seq<Action>)
    ensures LatchAll(s, ord).0.latched.Keys == s.latched.Keys + (set id | id in ord)
    ensures forall id <- s.latched :: id !in ord ==> LatchAll(s, ord).0.latched[id] == s.latched[id]
  {
    if ord != [] {
      LatchAllDomain(s, ord[..|ord| - 1]);
    }
  }

  lemma {:induction false} TakeAllDomain(s: State, ord: seq<Action>)
    ensures TakeAll(s, ord).0.latched.Keys == s.latched.Keys - (set id | id in ord)
    ensures TakeAll(s, ord).0 == s.(latched := s.latched - (set id | id in ord))
  {
    if ord != [] {
      TakeAllDomain(s, ord[..|ord| - 1]);
    }
  }
}
