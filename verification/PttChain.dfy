/** The whole push-to-talk chain: keyboard dispatcher and joystick manager feed one press
    count, while rebinds replace both binding sets and the hold table under held actions,
    and captures suspend and resume both sources. */
module PttChain {
  import Wrappers
  import opened Edges
  import opened PressCount
  import Dispatch
  import Joystick
  import Resolve

  /** What the hotkey manager is doing under its own lock. */
  datatype Registration = Free | Registering(todo: map<Action, Dispatch.Bound>, byRebind: bool)

  /** Where the one running rebind stands. */
  datatype Rebind =
    | Idle
    | Installed(kb: map<Action, Dispatch.Bound>, joy: Resolve.Bindings, holds: set<Action>)
    | KeyboardDone(joy: Resolve.Bindings, holds: set<Action>)
    | JoystickCommitted(holds: set<Action>)
    | JoystickDone(holds: set<Action>)

  datatype Chain = Chain(
    d: Dispatch.State,
    hkDesired: map<Action, Dispatch.Bound>,
    hkSuspended: bool,
    reg: Registration,
    j: Joystick.System,
    asked: Wrappers.Option<bool>,  // the hold question already answered for the edge in flight
    app: App,
    rebind: Rebind)

  datatype Move =
    | Key(e: Dispatch.Event)                          // key event, dead stream or watchdog
    | Install(kb: map<Action, Dispatch.Bound>, joy: Resolve.Bindings, holds: set<Action>)
    | HkApply(ord: seq<Action>)
    | HkRegister(id: Action, ok: bool)                // one binding; the OS may refuse it
    | HkRegistered
    | HkSuspend(ord: seq<Action>)
    | HkResume(ord: seq<Action>)
    | HkClose(ord: seq<Action>)
    | JoyApply(ord: seq<Action>)
    | Joy(m: Joystick.Move)                           // poll loop, capture, suspend, close
    | Ask                                             // the handler reads the hold table
    | Answer                                          // and counts
    | Swap

  predicate Typed(binds: map<Action, Dispatch.Bound>) {
    forall id :: id in binds ==> binds[id].hold == Hold(id)
  }

  ghost predicate Known(ids: set<Action>, holds: set<Action>) {
    forall id :: id in ids && Hold(id) ==> id in holds
  }

  ghost function Untag(cs: seq<Dispatch.Commit>): (es: seq<Edge>)
    ensures |es| == |cs|
    ensures forall i :: 0 <= i < |cs| ==> es[i] == if cs[i].Press? then Pressed(cs[i].id) else Released(cs[i].id)
  {
    seq(|cs|, i requires 0 <= i < |cs| => if cs[i].Press? then Pressed(cs[i].id) else Released(cs[i].id))
  }

  ghost function KeyboardHeld(d: Dispatch.State): set<Action> {
    set id | id in d.latched && id in d.binds && d.binds[id].hold
  }

  /** The hold actions the handler has been told the joystick holds. */
  ghost function JoystickHeld(j: Joystick.System): set<Action> {
    After({}, j.log)
  }

  ghost predicate KeyMove(e: Dispatch.Event) {
    e.KeyDown? || e.KeyUp? || e.ReleaseHeld? || e.Watchdog?
  }

  ghost predicate CanMove(c: Chain, m: Move) {
    match m
    case Key(e) => KeyMove(e) && Dispatch.Enabled(c.d, e)
    case Install(kb, joy, holds) =>
      && c.rebind.Idle? && Typed(kb) && Joystick.Typed(joy)
      && (forall id :: id in holds ==> Hold(id))
      && Known(kb.Keys, holds) && Known(joy.Keys, holds)
    case HkApply(ord) => c.rebind.Installed? && c.reg.Free? && Dispatch.Enabled(c.d, Dispatch.Clear(ord))
    case HkRegister(id, ok) => c.reg.Registering? && id in c.reg.todo
    case HkRegistered => c.reg.Registering? && c.reg.todo == map[]
    case HkSuspend(ord) => c.reg.Free? && Dispatch.Enabled(c.d, Dispatch.Clear(ord))
    case HkResume(ord) => c.reg.Free? && c.hkSuspended && Dispatch.Enabled(c.d, Dispatch.Clear(ord))
    case HkClose(ord) => c.reg.Free? && Dispatch.Enabled(c.d, Dispatch.Clear(ord))
    case JoyApply(ord) =>
      c.rebind.KeyboardDone? &&
      Joystick.CanMove(c.j, Joystick.Section(Joystick.Rebinder, Joystick.Apply(c.rebind.joy, ord)))
    case Joy(jm) => Joystick.CanMove(c.j, jm) && !jm.Deliver? &&
                    (jm.Section? ==> jm.owner != Joystick.Rebinder && !jm.e.Apply?)
    case Ask => Joystick.Pending(c.j) != [] && c.asked.None?
    case Answer => Joystick.Pending(c.j) != [] && c.asked.Some?
    case Swap => c.rebind.JoystickDone?
  }

  /** One event of the dispatcher, with the handler calls it owes. */
  ghost function KeyStep(c: Chain, e: Dispatch.Event): Chain
    requires Dispatch.Enabled(c.d, e)
  {
    var (d, out) := Dispatch.Next(c.d, e);
    c.(d := d, app := HandledAll(c.app, Untag(out)))
  }

  ghost function Moved(c: Chain, m: Move): Chain
    requires CanMove(c, m)
  {
    match m
    case Key(e) => KeyStep(c, e)
    case Install(kb, joy, holds) =>
      c.(rebind := Installed(kb, joy, holds), app := c.app.(holds := c.app.holds + holds))
    case HkApply(ord) =>
      if c.hkSuspended then
        c.(hkDesired := c.rebind.kb, rebind := KeyboardDone(c.rebind.joy, c.rebind.holds))
      else
        KeyStep(c, Dispatch.Clear(ord)).(hkDesired := c.rebind.kb, reg := Registering(c.rebind.kb, true))
    case HkRegister(id, ok) =>
      var b := c.reg.todo[id];
      var done := c.(reg := c.reg.(todo := c.reg.todo - {id}));
      if ok then KeyStep(done, Dispatch.Add(id, b)) else done
    case HkRegistered =>
      var done := c.(reg := Free);
      if c.reg.byRebind && c.rebind.Installed?
      then done.(rebind := KeyboardDone(c.rebind.joy, c.rebind.holds)) else done
    case HkSuspend(ord) =>
      if c.hkSuspended then c else KeyStep(c, Dispatch.Clear(ord)).(hkSuspended := true)
    case HkResume(ord) =>
      KeyStep(c, Dispatch.Clear(ord)).(hkSuspended := false, reg := Registering(c.hkDesired, false))
    case HkClose(ord) => KeyStep(c, Dispatch.Clear(ord)).(hkDesired := map[])
    case JoyApply(ord) =>
      c.(j := Joystick.Moved(c.j, Joystick.Section(Joystick.Rebinder, Joystick.Apply(c.rebind.joy, ord))),
         rebind := JoystickCommitted(c.rebind.holds))
    case Joy(jm) =>
      var done := c.(j := Joystick.Moved(c.j, jm));
      if jm.Unlock? && c.j.span.value.owner == Joystick.Rebinder && c.rebind.JoystickCommitted?
      then done.(rebind := JoystickDone(c.rebind.holds)) else done
    case Ask => c.(asked := Wrappers.Some(Joystick.Pending(c.j)[0].id in c.app.holds))
    case Answer =>
      c.(app := Handled(c.app, Joystick.Pending(c.j)[0], c.asked.value),
         j := Joystick.Moved(c.j, Joystick.Deliver), asked := Wrappers.None)
    case Swap => c.(rebind := Idle, app := c.app.(holds := c.rebind.holds))
  }

  ghost predicate Leads(c: Chain, ms: seq<Move>, t: Chain)
    decreases |ms|
  {
    if ms == [] then c == t else CanMove(c, ms[0]) && Leads(Moved(c, ms[0]), ms[1..], t)
  }

  lemma LeadsBy(c: Chain, m: Move, ms: seq<Move>, t: Chain)
    requires CanMove(c, m) && Leads(Moved(c, m), ms, t)
    ensures Leads(c, [m] + ms, t)
  {
    assert ([m] + ms)[1..] == ms;
  }

  lemma {:induction false} LeadsOn(c: Chain, ms: seq<Move>, t: Chain, more: seq<Move>, u: Chain)
    requires Leads(c, ms, t) && Leads(t, more, u)
    ensures Leads(c, ms + more, u)
    decreases |ms|
  {
    if ms == [] {
      assert ms + more == more;
    } else {
      LeadsOn(Moved(c, ms[0]), ms[1..], t, more, u);
      assert (ms + more)[1..] == ms[1..] + more;
    }
  }

  /** Whatever the key stream, a dead stream or a watchdog brings can happen at any time. */
  lemma EveryKeyEventMoves(c: Chain, e: Dispatch.Event)
    requires Dispatch.Enabled(c.d, e) && !e.Add? && !e.Clear?
    ensures CanMove(c, Key(e)) && Moved(c, Key(e)) == KeyStep(c, e)
  {
  }

  lemma {:induction false} HandledAllCons(a: App, e: Edge, es: seq<Edge>)
    ensures HandledAll(a, [e] + es) == HandledAll(Handled(a, e, e.id in a.holds), es)
  {
    if es == [] {
      assert [e] + es == [e] && [e][..0] == [];
    } else {
      var n := |es| - 1;
      HandledAllCons(a, e, es[..n]);
      assert ([e] + es)[..n + 1] == [e] + es[..n];
    }
  }

  /** The handler calls of a section in flight, each with its own hold question. */
  ghost function Answered(c: Chain): Chain
    requires c.j.span.Some?
  {
    var p := c.j.span.value.pending;
    c.(j := c.j.(span := Wrappers.Some(c.j.span.value.(pending := [])), log := c.j.log + p),
       app := HandledAll(c.app, p))
  }

  lemma {:induction false} AnswersAll(c: Chain) returns (ms: seq<Move>)
    requires c.j.span.Some? && c.asked.None?
    ensures Leads(c, ms, Answered(c))
    decreases |c.j.span.value.pending|
  {
    var p := c.j.span.value.pending;
    if p == [] {
      assert c.j.log + [] == c.j.log;
      ms := [];
    } else {
      var c1 := Moved(c, Ask);
      var c2 := Moved(c1, Answer);
      ms := AnswersAll(c2);
      assert [p[0]] + p[1..] == p && (c.j.log + [p[0]]) + p[1..] == c.j.log + p;
      HandledAllCons(c.app, p[0], p[1..]);
      LeadsBy(c1, Answer, ms, Answered(c));
      LeadsBy(c, Ask, [Answer] + ms, Answered(c));
      ms := [Ask] + ([Answer] + ms);
    }
  }

  /** The dispatcher with what the OS accepted of the bindings still to be registered. */
  ghost function Registered(c: Chain, refused: set<Action>): Chain
    requires c.reg.Registering?
  {
    c.(reg := c.reg.(todo := map[]), d := c.d.(binds := c.d.binds + (c.reg.todo - refused)))
  }

  lemma {:induction false} RegistersAll(c: Chain, refused: set<Action>) returns (ms: seq<Move>)
    requires c.reg.Registering? && c.d.latched == map[]
    ensures Leads(c, ms, Registered(c, refused))
    decreases c.reg.todo.Keys
  {
    var todo := c.reg.todo;
    if todo == map[] {
      assert c.d.binds + (todo - refused) == c.d.binds;
      ms := [];
    } else {
      var id :| id in todo;
      var m := HkRegister(id, id !in refused);
      RegistersOne(c, id, refused);
      ms := RegistersAll(Moved(c, m), refused);
      LeadsBy(c, m, ms, Registered(c, refused));
      ms := [m] + ms;
    }
  }

  lemma RegistersOne(c: Chain, id: Action, refused: set<Action>)
    requires c.reg.Registering? && c.d.latched == map[] && id in c.reg.todo
    ensures CanMove(c, HkRegister(id, id !in refused))
    ensures var t := Moved(c, HkRegister(id, id !in refused));
      && t.reg.Registering? && t.reg.todo.Keys < c.reg.todo.Keys && t.d.latched == map[]
      && Registered(t, refused) == Registered(c, refused)
  {
    var t := Moved(c, HkRegister(id, id !in refused));
    var e := Dispatch.Add(id, c.reg.todo[id]);
    assert Dispatch.Take(c.d, id).latched == map[];
    assert Dispatch.Next(c.d, e).1 == [] && Untag([]) == [];
    assert t.app == c.app;
    assert t.d.binds + (t.reg.todo - refused) == c.d.binds + (c.reg.todo - refused);
  }

  /** Suspending and closing leave no key bound; closing forgets what was wanted as well. */
  lemma SwitchedOff(c: Chain, ord: seq<Action>)
    ensures CanMove(c, HkSuspend(ord)) && !c.hkSuspended ==>
      var t := Moved(c, HkSuspend(ord)); t.hkSuspended && t.d.binds == map[] && t.hkDesired == c.hkDesired
    ensures CanMove(c, HkClose(ord)) ==> var t := Moved(c, HkClose(ord)); t.d.binds == map[] && t.hkDesired == map[]
  {
  }

  /** Resuming binds everything that is wanted and that the OS accepts. */
  lemma ResumeInOneGo(c: Chain, ord: seq<Action>, refused: set<Action>) returns (ms: seq<Move>, t: Chain)
    requires CanMove(c, HkResume(ord))
    ensures Leads(c, ms, t)
    ensures t.d.binds == c.hkDesired - refused && t.d.latched == map[] && !t.hkSuspended && t.reg.Free?
    ensures t.hkDesired == c.hkDesired && t.rebind == c.rebind
  {
    var c1 := Moved(c, HkResume(ord));
    Dispatch.TakeAllDomain(c.d, ord);
    assert c1.d.latched.Keys == {} && c1.d.binds == map[];
    var c2 := Registered(c1, refused);
    ms := RegistersAll(c1, refused);
    assert c2.d.binds == c.hkDesired - refused;
    t := Moved(c2, HkRegistered);
    LeadsBy(c2, HkRegistered, [], t);
    LeadsOn(c1, ms, c2, [HkRegistered] + [], t);
    ms := ms + ([HkRegistered] + []);
    LeadsBy(c, HkResume(ord), ms, t);
    ms := [HkResume(ord)] + ms;
  }

  // ---- the invariant ----------------------------------------------------------------

  ghost function Todo(r: Registration): map<Action, Dispatch.Bound> {
    if r.Registering? then r.todo else map[]
  }

  /** Every hold action the keyboard side could still hold or register is in `holds`. */
  ghost predicate KeyboardKnown(c: Chain, holds: set<Action>) {
    Known(c.d.binds.Keys, holds) && Known(c.hkDesired.Keys, holds) && Known(Todo(c.reg).Keys, holds)
  }

  /** Every hold action the joystick side holds, could press or has in flight is in `holds`. */
  ghost predicate JoystickKnown(c: Chain, holds: set<Action>) {
    && Known(c.j.s.desired.Keys, holds)
    && JoystickHeld(c.j) <= holds
    && Covered(Joystick.Pending(c.j), holds)
  }

  ghost predicate SourcesOk(c: Chain) {
    && c.d.latched.Keys <= c.d.binds.Keys
    && Typed(c.d.binds) && Typed(c.hkDesired) && Typed(Todo(c.reg))
    && (c.hkSuspended ==> c.d.binds == map[] && c.reg.Free?)
    && Joystick.Inv(c.j)
    && (c.asked.Some? ==> Joystick.Pending(c.j) != [] && c.asked.value == Hold(Joystick.Pending(c.j)[0].id))
  }

  ghost predicate RebindOk(c: Chain) {
    && (c.reg.Registering? && c.reg.byRebind ==> c.rebind.Installed?)
    && (c.j.span.Some? && c.j.span.value.owner == Joystick.Rebinder ==> c.rebind.JoystickCommitted?)
    && match c.rebind
       case Idle => true
       case Installed(kb, joy, holds) =>
         && TablesOk(c, joy, holds) && Typed(kb) && Known(kb.Keys, holds)
         && (c.reg.Registering? && c.reg.byRebind ==> KeyboardKnown(c, holds))
       case KeyboardDone(joy, holds) => TablesOk(c, joy, holds) && KeyboardKnown(c, holds)
       case JoystickCommitted(holds) =>
         && holds <= c.app.holds && KeyboardKnown(c, holds) && Known(c.j.s.desired.Keys, holds)
         && c.j.span.Some? && c.j.span.value.owner == Joystick.Rebinder
         && Joystick.HeldActive(c.j.s) == {}
       case JoystickDone(holds) => holds <= c.app.holds && KeyboardKnown(c, holds) && JoystickKnown(c, holds)
  }

  ghost predicate TablesOk(c: Chain, joy: Resolve.Bindings, holds: set<Action>) {
    holds <= c.app.holds && Joystick.Typed(joy) && Known(joy.Keys, holds)
  }

  ghost predicate Inv(c: Chain) {
    && SourcesOk(c)
    && Joins(c.app, KeyboardHeld(c.d), JoystickHeld(c.j))
    && KeyboardKnown(c, c.app.holds) && JoystickKnown(c, c.app.holds)
    && RebindOk(c)
  }

  // ---- keyboard steps ----------------------------------------------------------------

  lemma {:induction false} TakeAllFollows(d: Dispatch.State, ord: seq<Action>)
    requires d.latched.Keys <= d.binds.Keys && Typed(d.binds)
    ensures var (t, out) := Dispatch.TakeAll(d, ord);
      && t.binds == d.binds && t.latched.Keys <= d.latched.Keys
      && Legal(KeyboardHeld(d), Untag(out)) && After(KeyboardHeld(d), Untag(out)) == KeyboardHeld(t)
      && (forall e :: e in Untag(out) ==> e.id in d.binds)
  {
    if ord != [] {
      var n := |ord| - 1;
      TakeAllFollows(d, ord[..n]);
      var (t, out) := Dispatch.TakeAll(d, ord[..n]);
      TakeFollows(t, ord[n]);
      var more := Dispatch.Owed(t, ord[n]);
      assert Dispatch.TakeAll(d, ord) == (Dispatch.Take(t, ord[n]), out + more);
      EdgesFollow(KeyboardHeld(d), out, more);
    }
  }

  /** Two well-formed lists of commits in a row. */
  lemma EdgesFollow(held: set<Action>, out: seq<Dispatch.Commit>, more: seq<Dispatch.Commit>)
    requires Legal(held, Untag(out)) && Legal(After(held, Untag(out)), Untag(more))
    ensures Untag(out + more) == Untag(out) + Untag(more) && Legal(held, Untag(out + more))
    ensures After(held, Untag(out + more)) == After(After(held, Untag(out)), Untag(more))
  {
    assert Untag(out + more) == Untag(out) + Untag(more);
    AfterConcat(held, Untag(out), Untag(more));
  }

  lemma TakeFollows(d: Dispatch.State, id: Action)
    requires d.latched.Keys <= d.binds.Keys && Typed(d.binds)
    ensures var t := Dispatch.Take(d, id); var es := Untag(Dispatch.Owed(d, id));
      && t.latched.Keys <= d.latched.Keys
      && Legal(KeyboardHeld(d), es) && After(KeyboardHeld(d), es) == KeyboardHeld(t)
      && (forall e :: e in es ==> e.id in d.binds)
  {
    TakenHeld(d, id);
    var es := Untag(Dispatch.Owed(d, id));
    if Dispatch.Owed(d, id) != [] {
      OneRelease(KeyboardHeld(d), id);
      assert es == [Released(id)] && id in d.latched;
    }
  }

  lemma OneRelease(held: set<Action>, id: Action)
    requires id in held && Hold(id)
    ensures Legal(held, [Released(id)]) && After(held, [Released(id)]) == held - {id}
  {
    AfterSnoc(held, [], Released(id));
    assert [] + [Released(id)] == [Released(id)];
  }

  lemma TakenHeld(d: Dispatch.State, id: Action)
    requires d.latched.Keys <= d.binds.Keys && Typed(d.binds)
    ensures var t := Dispatch.Take(d, id);
      if Dispatch.Owed(d, id) == [] then Untag(Dispatch.Owed(d, id)) == [] && KeyboardHeld(t) == KeyboardHeld(d)
      else
        && Untag(Dispatch.Owed(d, id)) == [Released(id)]
        && id in d.latched && Hold(id) && id in KeyboardHeld(d) && KeyboardHeld(t) == KeyboardHeld(d) - {id}
  {
  }

  lemma LatchFollows(d: Dispatch.State, id: Action)
    requires d.latched.Keys <= d.binds.Keys && Typed(d.binds) && id in d.binds && id !in d.latched
    ensures var t := Dispatch.Latch(d, id);
      t.latched.Keys <= t.binds.Keys &&
      Fits(KeyboardHeld(d), Pressed(id)) && Step(KeyboardHeld(d), Pressed(id)) == KeyboardHeld(t)
  {
  }

  lemma {:induction false} LatchAllFollows(d: Dispatch.State, ord: seq<Action>)
    requires d.latched.Keys <= d.binds.Keys && Typed(d.binds)
    requires forall i, j :: 0 <= i < j < |ord| ==> ord[i] != ord[j]
    requires forall id :: id in ord ==> id in d.binds && id !in d.latched
    ensures var (t, out) := Dispatch.LatchAll(d, ord);
      && t.binds == d.binds && t.latched.Keys <= d.binds.Keys
      && Legal(KeyboardHeld(d), Untag(out)) && After(KeyboardHeld(d), Untag(out)) == KeyboardHeld(t)
      && (forall e :: e in Untag(out) ==> e.id in d.binds)
  {
    if ord != [] {
      var n := |ord| - 1;
      LatchAllFollows(d, ord[..n]);
      Dispatch.LatchAllDomain(d, ord[..n]);
      var (t, out) := Dispatch.LatchAll(d, ord[..n]);
      assert ord[n] !in ord[..n];
      var c := Dispatch.Press(ord[n], t.gen + 1, d.binds[ord[n]].hold);
      assert Dispatch.LatchAll(d, ord) == (Dispatch.Latch(t, ord[n]), out + [c]);
      LatchFollows(t, ord[n]);
      UntagSnoc(out, c);
      AfterSnoc(KeyboardHeld(d), Untag(out), Pressed(ord[n]));
    }
  }

  lemma UntagSnoc(out: seq<Dispatch.Commit>, c: Dispatch.Commit)
    ensures Untag(out + [c]) == Untag(out) + [if c.Press? then Pressed(c.id) else Released(c.id)]
  {
  }

  /** The edges of one dispatcher event follow from the actions latched before it. */
  lemma EventFollows(d: Dispatch.State, e: Dispatch.Event)
    requires d.latched.Keys <= d.binds.Keys && Typed(d.binds) && Dispatch.Enabled(d, e)
    requires e.Add? ==> e.b.hold == Hold(e.id)
    ensures var (t, out) := Dispatch.Next(d, e);
      && t.latched.Keys <= t.binds.Keys && Typed(t.binds)
      && Legal(KeyboardHeld(d), Untag(out)) && After(KeyboardHeld(d), Untag(out)) == KeyboardHeld(t)
      && (forall x :: x in Untag(out) ==> x.id in d.binds)
      && t.binds == (if e.Clear? then map[] else if e.Add? then d.binds[e.id := e.b] else d.binds)
  {
    match e
    case Add(id, b) =>
      TakeFollows(d, id);
      assert KeyboardHeld(Dispatch.Next(d, e).0) == KeyboardHeld(Dispatch.Take(d, id));
    case Clear(ord) =>
      TakeAllFollows(d, ord);
      Dispatch.TakeAllDomain(d, ord);
      assert Dispatch.TakeAll(d, ord).0.latched.Keys == {};
      assert KeyboardHeld(Dispatch.TakeAll(d, ord).0) == {} == KeyboardHeld(Dispatch.Next(d, e).0);
    case ReleaseHeld(ord) => TakeAllFollows(d, ord);
    case KeyDown(_, _, ord) => LatchAllFollows(d, ord);
    case KeyUp(_, ord) => TakeAllFollows(d, ord);
    case Watchdog(id, _) => TakeFollows(d, id);
  }

  /** The parts of the invariant a dispatcher event touches. */
  lemma KeyStepKeeps(c: Chain, e: Dispatch.Event)
    requires c.d.latched.Keys <= c.d.binds.Keys && Typed(c.d.binds) && Dispatch.Enabled(c.d, e)
    requires e.Add? ==> e.b.hold == Hold(e.id)
    requires Joins(c.app, KeyboardHeld(c.d), JoystickHeld(c.j)) && Known(c.d.binds.Keys, c.app.holds)
    ensures var t := KeyStep(c, e);
      && t.d.latched.Keys <= t.d.binds.Keys && Typed(t.d.binds)
      && Joins(t.app, KeyboardHeld(t.d), JoystickHeld(t.j))
      && t.app.holds == c.app.holds
      && t.d.binds == (if e.Clear? then map[] else if e.Add? then c.d.binds[e.id := e.b] else c.d.binds)
  {
    EventFollows(c.d, e);
    HandledAllJoins(c.app, KeyboardHeld(c.d), JoystickHeld(c.j), Untag(Dispatch.Next(c.d, e).1));
  }

  // ---- joystick steps ------------------------------------------------------------------

  /** A section only puts in flight hold actions the manager knows. */
  lemma SectionCovered(s: Joystick.State, e: Joystick.Event)
    requires Joystick.Typed(s.desired) && s.hold == Joystick.HoldIds(s.desired)
    requires Joystick.Enabled(s, e)
    ensures Covered(Joystick.Commit(s, e).1, s.desired.Keys)
  {
    var es := Joystick.Commit(s, e).1;
    forall x | x in es && Hold(x.id) ensures x.id in s.desired.Keys {
      var i :| 0 <= i < |es| && es[i] == x;
      if e.Tick? {
        if i < |e.press| {
          assert e.press[i] in e.press;
        } else {
          assert e.release[i - |e.press|] in e.release;
        }
      } else {
        assert e.ord[i] in e.ord;
      }
    }
  }

  /** The next edge to be delivered fits what was delivered before it. */
  lemma FirstPendingFits(log: seq<Edge>, p: seq<Edge>)
    requires p != [] && Legal({}, log + p)
    ensures Legal({}, log) && Fits(After({}, log), p[0]) && After({}, log + [p[0]]) == Step(After({}, log), p[0])
  {
    assert log + p == (log + [p[0]]) + p[1..];
    AfterConcat({}, log + [p[0]], p[1..]);
    AfterSnoc({}, log, p[0]);
  }

  lemma AnswerSources(c: Chain)
    requires SourcesOk(c) && CanMove(c, Answer)
    ensures SourcesOk(Moved(c, Answer))
  {
    Joystick.MoveKeepsInv(c.j, Joystick.Deliver);
  }

  lemma AnswerJoins(c: Chain)
    requires SourcesOk(c) && Joins(c.app, KeyboardHeld(c.d), JoystickHeld(c.j)) && CanMove(c, Answer)
    requires Covered(Joystick.Pending(c.j), c.app.holds)
    ensures var t := Moved(c, Answer);
      Joins(t.app, KeyboardHeld(t.d), JoystickHeld(t.j)) && t.app.holds == c.app.holds
  {
    var p, t := Joystick.Pending(c.j), Moved(c, Answer);
    assert p[0] in p;
    FirstPendingFits(c.j.log, p);
    JoinsSwap(c.app, KeyboardHeld(c.d), JoystickHeld(c.j));
    HandledJoins(c.app, JoystickHeld(c.j), KeyboardHeld(c.d), p[0]);
    JoinsSwap(t.app, JoystickHeld(t.j), KeyboardHeld(t.d));
  }

  lemma AnswerKnown(c: Chain, holds: set<Action>)
    requires SourcesOk(c) && CanMove(c, Answer) && JoystickKnown(c, holds)
    ensures JoystickKnown(Moved(c, Answer), holds)
  {
    var p, t := Joystick.Pending(c.j), Moved(c, Answer);
    assert p[0] in p;
    FirstPendingFits(c.j.log, p);
    forall e | e in Joystick.Pending(t.j) ensures e in p {}
  }

  lemma AnswerKeeps(c: Chain)
    requires Inv(c) && CanMove(c, Answer)
    ensures Inv(Moved(c, Answer))
  {
    AnswerSources(c);
    AnswerJoins(c);
    AnswerKnown(c, c.app.holds);
    if c.rebind.JoystickDone? { AnswerKnown(c, c.rebind.holds); }
  }

  lemma JoyKeeps(c: Chain, m: Joystick.Move)
    requires Inv(c) && CanMove(c, Joy(m))
    ensures Inv(Moved(c, Joy(m)))
  {
    var t := Moved(c, Joy(m));
    Joystick.MoveKeepsInv(c.j, m);
    if m.Section? {
      SectionCovered(c.j.s, m.e);
    }
    if m.Unlock? && c.rebind.JoystickCommitted? {
      assert c.j.log + [] == c.j.log;
    }
  }

  lemma JoyApplyKeeps(c: Chain, ord: seq<Action>)
    requires Inv(c) && CanMove(c, JoyApply(ord))
    ensures Inv(Moved(c, JoyApply(ord)))
  {
    var e := Joystick.Apply(c.rebind.joy, ord);
    Joystick.MoveKeepsInv(c.j, Joystick.Section(Joystick.Rebinder, e));
    SectionCovered(c.j.s, e);
    Joystick.HoldIdsAreHold(c.j.s.desired);
  }

  // ---- every run -----------------------------------------------------------------------

  lemma KeyKeeps(c: Chain, e: Dispatch.Event)
    requires Inv(c) && CanMove(c, Key(e))
    ensures Inv(Moved(c, Key(e)))
  {
    KeyStepKeeps(c, e);
  }

  lemma HkApplyKeeps(c: Chain, ord: seq<Action>)
    requires Inv(c) && CanMove(c, HkApply(ord))
    ensures Inv(Moved(c, HkApply(ord)))
  {
    if !c.hkSuspended { KeyStepKeeps(c, Dispatch.Clear(ord)); }
  }

  lemma HkRegisterKeeps(c: Chain, id: Action, ok: bool)
    requires Inv(c) && CanMove(c, HkRegister(id, ok))
    ensures Inv(Moved(c, HkRegister(id, ok)))
  {
    var done := c.(reg := c.reg.(todo := c.reg.todo - {id}));
    if ok { KeyStepKeeps(done, Dispatch.Add(id, c.reg.todo[id])); }
  }

  /** Suspending, resuming and closing clear the dispatcher first. */
  lemma HkClearKeeps(c: Chain, m: Move)
    requires Inv(c) && CanMove(c, m) && (m.HkSuspend? || m.HkResume? || m.HkClose?)
    ensures Inv(Moved(c, m))
  {
    KeyStepKeeps(c, Dispatch.Clear(m.ord));
  }

  lemma InstallKeeps(c: Chain, m: Move)
    requires Inv(c) && CanMove(c, m) && m.Install?
    ensures Inv(Moved(c, m))
  {
  }

  lemma SwapKeeps(c: Chain)
    requires Inv(c) && CanMove(c, Swap)
    ensures Inv(Moved(c, Swap))
  {
  }

  lemma HkRegisteredKeeps(c: Chain)
    requires Inv(c) && CanMove(c, HkRegistered)
    ensures Inv(Moved(c, HkRegistered))
  {
  }

  lemma MoveKeepsInv(c: Chain, m: Move)
    requires Inv(c) && CanMove(c, m)
    ensures Inv(Moved(c, m))
  {
    match m
    case JoyApply(ord) => JoyApplyKeeps(c, ord);
    case Joy(jm) => JoyKeeps(c, jm);
    case Answer => AnswerKeeps(c);
    case Key(e) => KeyKeeps(c, e);
    case HkApply(ord) => HkApplyKeeps(c, ord);
    case HkRegister(id, ok) => HkRegisterKeeps(c, id, ok);
    case HkSuspend(_) => HkClearKeeps(c, m);
    case HkResume(_) => HkClearKeeps(c, m);
    case HkClose(_) => HkClearKeeps(c, m);
    case Install(_, _, _) => InstallKeeps(c, m);
    case Swap => SwapKeeps(c);
    case HkRegistered => HkRegisteredKeeps(c);
    case Ask =>
  }

  const START := Chain(Dispatch.EMPTY, map[], false, Free,
                       Joystick.System(Joystick.EMPTY, Wrappers.None, []),
                       Wrappers.None, App({}, map[], []), Idle)

  ghost predicate Run(ms: seq<Move>)
    decreases |ms|, 0
  {
    |ms| == 0 || (Run(ms[..|ms| - 1]) && CanMove(Exec(ms[..|ms| - 1]), ms[|ms| - 1]))
  }

  ghost function Exec(ms: seq<Move>): Chain
    requires Run(ms)
    decreases |ms|, 1
  {
    if |ms| == 0 then START else Moved(Exec(ms[..|ms| - 1]), ms[|ms| - 1])
  }

  lemma {:induction false} RunKeepsInv(ms: seq<Move>)
    requires Run(ms)
    ensures Inv(Exec(ms))
  {
    if ms == [] {
      assert Joystick.HoldIds(map[]) == {};
    } else {
      RunKeepsInv(ms[..|ms| - 1]);
      MoveKeepsInv(Exec(ms[..|ms| - 1]), ms[|ms| - 1]);
    }
  }

  /** In every reachable state, through any rebind and any capture: the count of a hold
      action is the number of sources holding it, the hold table covers every action held,
      and the application's own edges alternate with an action down exactly while its
      count is positive. Nothing held anywhere means nothing counted and nothing down. */
  lemma ChainNeverLosesAHold(ms: seq<Move>, id: Action)
    requires Run(ms)
    ensures var c := Exec(ms);
      && Count(c.app.n, id) == (if id in KeyboardHeld(c.d) then 1 else 0) + (if id in JoystickHeld(c.j) then 1 else 0)
      && KeyboardHeld(c.d) + JoystickHeld(c.j) + Joystick.HeldActive(c.j.s) <= c.app.holds
      && Legal({}, c.app.log)
      && (id in After({}, c.app.log) <==> Count(c.app.n, id) > 0)
      && (c.d.latched == map[] && c.j.s.active == {} && c.j.span.None? ==>
            c.app.n == map[] && After({}, c.app.log) == {})
  {
    RunKeepsInv(ms);
    var c := Exec(ms);
    Joystick.HoldIdsAreHold(c.j.s.desired);
    if c.d.latched == map[] && c.j.s.active == {} && c.j.span.None? {
      assert c.j.log + Joystick.Pending(c.j) == c.j.log;
      assert c.app.n.Keys == {};
    }
  }
}
