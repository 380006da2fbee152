/** applyHotkeys on the real objects: both binding tables are built from the keybind
    store, the union of the old and new hold tables covers every release the two managers
    emit while they are rebound, and only then is the new table installed. */
module Rebind {
  import Wrappers
  import opened Edges
  import opened PressCount
  import Dispatch
  import Joystick
  import Resolve
  import PttChain

  datatype Trigger =
    | KeyTrigger(code: int, mods: int, unset: bool)
    | JoyTrigger(main: Resolve.Input, modifier: Wrappers.Option<Resolve.Input>)

  type Store = map<Action, seq<Trigger>>

  ghost predicate HasKey(store: Store, id: Action, b: Dispatch.Bound) {
    id in store && b.hold == Hold(id) && KeyTrigger(b.code, b.mods, false) in store[id]
  }

  ghost predicate HasJoy(store: Store, id: Action, b: Resolve.Binding) {
    id in store && b.hold == Hold(id) && JoyTrigger(b.main, b.modifier) in store[id]
  }

  /** The tables hold exactly the store's triggers for the registered actions. */
  ghost predicate Tables(actions: set<Action>, store: Store, kb: map<Action, Dispatch.Bound>, joy: Resolve.Bindings) {
    && (forall id :: id in kb ==> id in actions && HasKey(store, id, kb[id]))
    && (forall id, b :: id in actions && HasKey(store, id, b) ==> id in kb)
    && (forall id :: id in joy ==> id in actions)
    && (forall id, b :: id in joy && b in joy[id] ==> HasJoy(store, id, b))
    && (forall id, b :: id in actions && HasJoy(store, id, b) ==> id in joy && b in joy[id])
  }

  /** Trigger for trigger: an action has a key exactly if it is registered and has a chord that
      is set, and that key is one of them; its joystick bindings are exactly its joystick
      triggers. Both carry the action's own kind. */
  lemma TablesMean(actions: set<Action>, store: Store, kb: map<Action, Dispatch.Bound>, joy: Resolve.Bindings,
                   id: Action, b: Resolve.Binding)
    requires Tables(actions, store, kb, joy)
    ensures id in kb <==>
              id in actions && id in store && exists t <- store[id] :: t.KeyTrigger? && !t.unset
    ensures id in kb ==> KeyTrigger(kb[id].code, kb[id].mods, false) in store[id] && kb[id].hold == Hold(id)
    ensures id in joy && b in joy[id] <==>
              id in actions && id in store && JoyTrigger(b.main, b.modifier) in store[id] && b.hold == Hold(id)
  {
    if id in actions && id in store {
      if t :| t in store[id] && t.KeyTrigger? && !t.unset {
        assert HasKey(store, id, Dispatch.Bound(t.code, t.mods, Hold(id)));
      }
      assert HasJoy(store, id, b) <==> JoyTrigger(b.main, b.modifier) in store[id] && b.hold == Hold(id);
    }
  }

  ghost function Ids(actions: seq<Action>): set<Action> {
    set id | id in actions
  }

  class Settings {
    const keyboard: Dispatch.Dispatcher
    const joystick: Joystick.Manager
    const app: Backend
    var hkDesired: map<Action, Dispatch.Bound>
    var hkSuspended: bool

    constructor (keyboard: Dispatch.Dispatcher, joystick: Joystick.Manager, app: Backend)
      ensures this.keyboard == keyboard && this.joystick == joystick && this.app == app
      ensures hkDesired == map[] && !hkSuspended
    {
      this.keyboard, this.joystick, this.app := keyboard, joystick, app;
      hkDesired, hkSuspended := map[], false;
    }

    /** The chain as it stands with no rebind running and no handler call in flight. */
    ghost function Snap(): PttChain.Chain
      reads this, keyboard, joystick, app
    {
      PttChain.Chain(keyboard.View(), hkDesired, hkSuspended, PttChain.Free,
        Joystick.System(joystick.View(), Wrappers.None, joystick.delivered),
        Wrappers.None, app.View(), PttChain.Idle)
    }

    method BuildTables(actions: seq<Action>, store: Store)
      returns (kb: map<Action, Dispatch.Bound>, joy: Resolve.Bindings, holds: set<Action>)
      ensures Tables(Ids(actions), store, kb, joy)
      ensures holds == set id | id in actions && Hold(id)
    {
      kb, joy, holds := map[], map[], {};
      for i := 0 to |actions|
        invariant Tables(Ids(actions[..i]), store, kb, joy)
        invariant holds == set id | id in actions[..i] && Hold(id)
      {
        var id := actions[i];
        if Hold(id) {
          holds := holds + {id};
        }
        if id in store {
          kb, joy := AddTriggers(Ids(actions[..i]), store, id, kb, joy);
        }
        assert actions[..i + 1] == actions[..i] + [id];
        assert Ids(actions[..i + 1]) == Ids(actions[..i]) + {id};
      }
      assert actions[..|actions|] == actions;
    }

    method AddTriggers(ghost done: set<Action>, store: Store, id: Action,
                       kb0: map<Action, Dispatch.Bound>, joy0: Resolve.Bindings)
      returns (kb: map<Action, Dispatch.Bound>, joy: Resolve.Bindings)
      requires id in store && Tables(done, store, kb0, joy0)
      ensures Tables(done + {id}, store, kb, joy)
    {
      kb, joy := kb0, joy0;
      for k := 0 to |store[id]|
        invariant forall x :: x in kb ==> x in done + {id} && HasKey(store, x, kb[x])
        invariant forall x :: x in kb0 ==> x in kb
        invariant forall j :: 0 <= j < k && store[id][j].KeyTrigger? && !store[id][j].unset ==> id in kb
        invariant forall x :: x in joy ==> x in done + {id}
        invariant forall x, b :: x in joy && b in joy[x] ==> HasJoy(store, x, b)
        invariant forall x, b :: x in joy0 && b in joy0[x] ==> x in joy && b in joy[x]
        invariant forall j :: 0 <= j < k && store[id][j].JoyTrigger? ==>
                    id in joy && Resolve.Binding(store[id][j].main, store[id][j].modifier, Hold(id)) in joy[id]
      {
        match store[id][k]
        case KeyTrigger(code, mods, unset) =>
          if !unset {
            kb := kb[id := Dispatch.Bound(code, mods, Hold(id))];
          }
        case JoyTrigger(main, modifier) =>
          var list := if id in joy then joy[id] else [];
          joy := joy[id := list + [Resolve.Binding(main, modifier, Hold(id))]];
      }
    }

    method Deliver(es: seq<Edge>)
      modifies app
      ensures app.View() == HandledAll(old(app.View()), es)
    {
      for i := 0 to |es|
        invariant app.View() == HandledAll(old(app.View()), es[..i])
      {
        if es[i].Pressed? {
          app.OnPressed(es[i].id);
        } else {
          app.OnReleased(es[i].id);
        }
        assert es[..i + 1][..i] == es[..i];
      }
      assert es[..|es|] == es;
    }

    method Untagged(cs: seq<Dispatch.Commit>) returns (es: seq<Edge>)
      ensures es == PttChain.Untag(cs)
    {
      es := [];
      for i := 0 to |cs|
        invariant |es| == i
        invariant forall j :: 0 <= j < i ==>
                    es[j] == if cs[j].Press? then Pressed(cs[j].id) else Released(cs[j].id)
      {
        es := es + [if cs[i].Press? then Pressed(cs[i].id) else Released(cs[i].id)];
      }
    }

    /** The keyboard half: clear, which releases what is held, then register what the OS
        accepts. While suspended the set is only recorded. */
    method ApplyKeyboard(kb: map<Action, Dispatch.Bound>, refused: set<Action>) returns (ghost ord: seq<Action>)
      modifies this`hkDesired, keyboard, app
      ensures Enumerates(ord, old(keyboard.latched).Keys)
      ensures Snap() == KeyboardApplied(old(Snap()), kb, refused, ord)
    {
      hkDesired := kb;
      if hkSuspended {
        ord := SomeOrder(keyboard.latched.Keys);
        return;
      }
      var release;
      release, ord := keyboard.ClearAll();
      var es := Untagged(release);
      Deliver(es);
      RegisterAll(kb, refused);
    }

    method RegisterAll(kb: map<Action, Dispatch.Bound>, refused: set<Action>)
      requires keyboard.latched == map[] && keyboard.binds == map[]
      modifies keyboard
      ensures keyboard.View() == Dispatch.State(kb - refused, map[], old(keyboard.gen))
    {
      var todo := kb.Keys - refused;
      assert kb - refused - todo == map[];
      while todo != {}
        invariant todo <= kb.Keys - refused
        invariant keyboard.View() == Dispatch.State(kb - refused - todo, map[], old(keyboard.gen))
        decreases |todo|
      {
        var id :| id in todo;
        todo := todo - {id};
        var out := keyboard.AddBinding(id, kb[id]);
        assert keyboard.latched.Keys == {};
        assert keyboard.binds == kb - refused - todo;
      }
      assert kb - refused - {} == kb - refused;
    }

    /** The joystick half: the manager releases what is held before it forgets it. */
    method ApplyJoystick(joy: Resolve.Bindings) returns (ghost e: Joystick.Event)
      modifies joystick, app
      ensures e.Apply? && e.binds == joy && Joystick.Enabled(old(joystick.View()), e)
      ensures Snap() == JoystickApplied(old(Snap()), e)
    {
      var before := |joystick.delivered|;
      e := joystick.ApplyBindings(joy);
      var es := joystick.delivered[before..];
      assert es == Joystick.Commit(old(joystick.View()), e).1;
      Deliver(es);
    }

    /** A rebind under held actions: whatever was held on either source is released and
        uncounted, including actions that left the registry, and the new tables are live. */
    method ApplyHotkeys(actions: seq<Action>, store: Store, refused: set<Action>)
      requires PttChain.Inv(Snap())
      modifies this`hkDesired, keyboard, joystick, app
      ensures PttChain.Inv(Snap())
      ensures app.n == map[] && After({}, app.log) == {}
      ensures app.holds == set id | id in actions && Hold(id)
      ensures keyboard.latched == map[]
      ensures Tables(Ids(actions), store, hkDesired, joystick.desired)
      ensures keyboard.binds == if hkSuspended then map[] else hkDesired - refused
    {
      ghost var c := Snap();
      var kb, joy, holds := BuildTables(actions, store);
      app.holds := app.holds + holds;
      assert Snap() == c.(app := c.app.(holds := c.app.holds + holds));
      ghost var ord := ApplyKeyboard(kb, refused);
      ghost var e := ApplyJoystick(joy);
      app.holds := holds;
      TablesTyped(Ids(actions), store, kb, joy);
      AppliedKeeps(c, kb, joy, holds, refused, ord, e);
      assert Snap() == Applied(c, kb, holds, refused, ord, e);
    }
  }

  // ---- the same on values -------------------------------------------------------------

  ghost function KeyboardApplied(c: PttChain.Chain, kb: map<Action, Dispatch.Bound>, refused: set<Action>,
                                ord: seq<Action>): PttChain.Chain
    requires Enumerates(ord, c.d.latched.Keys)
  {
    if c.hkSuspended then c.(hkDesired := kb)
    else
      var t := PttChain.KeyStep(c, Dispatch.Clear(ord));
      t.(hkDesired := kb, d := Dispatch.State(kb - refused, map[], c.d.gen))
  }

  ghost function JoystickApplied(c: PttChain.Chain, e: Joystick.Event): PttChain.Chain {
    var (s, es) := Joystick.Commit(c.j.s, e);
    c.(j := Joystick.System(s, Wrappers.None, c.j.log + es), app := HandledAll(c.app, es))
  }

  ghost function Applied(c: PttChain.Chain, kb: map<Action, Dispatch.Bound>, holds: set<Action>,
                         refused: set<Action>, ord: seq<Action>, e: Joystick.Event): PttChain.Chain
    requires Enumerates(ord, c.d.latched.Keys)
  {
    var c1 := c.(app := c.app.(holds := c.app.holds + holds));
    var c3 := JoystickApplied(KeyboardApplied(c1, kb, refused, ord), e);
    c3.(app := c3.app.(holds := holds))
  }

  /** Consistent, with every edge delivered and every action covered by `holds`. */
  ghost predicate Quiet(c: PttChain.Chain) {
    PttChain.Inv(c) && c.reg.Free? && c.rebind.Idle? && c.j.span.None? && c.asked.None?
  }

  method SomeOrder(ids: set<Action>) returns (ord: seq<Action>)
    ensures Enumerates(ord, ids)
  {
    ord := [];
    var todo := ids;
    while todo != {}
      invariant todo <= ids && Enumerates(ord, ids - todo)
      decreases |todo|
    {
      var id :| id in todo;
      assert id !in ord;
      todo := todo - {id};
      ord := ord + [id];
    }
  }

  lemma TablesTyped(actions: set<Action>, store: Store, kb: map<Action, Dispatch.Bound>, joy: Resolve.Bindings)
    requires Tables(actions, store, kb, joy)
    ensures PttChain.Typed(kb) && Joystick.Typed(joy)
    ensures kb.Keys <= actions && joy.Keys <= actions
  {
  }

  lemma KeyboardAppliedKeeps(c: PttChain.Chain, kb: map<Action, Dispatch.Bound>, refused: set<Action>, ord: seq<Action>)
    requires Quiet(c) && Enumerates(ord, c.d.latched.Keys)
    requires PttChain.Typed(kb) && PttChain.Known(kb.Keys, c.app.holds)
    ensures var t := KeyboardApplied(c, kb, refused, ord);
      && Quiet(t) && t.d.latched == map[] && t.app.holds == c.app.holds
      && t.d.binds == (if c.hkSuspended then map[] else kb - refused)
  {
    var t := KeyboardApplied(c, kb, refused, ord);
    if c.hkSuspended {
      assert c.d.latched.Keys == {};
    } else {
      PttChain.KeyStepKeeps(c, Dispatch.Clear(ord));
      Dispatch.TakeAllDomain(c.d, ord);
      assert PttChain.KeyboardHeld(t.d) == {} == PttChain.KeyboardHeld(PttChain.KeyStep(c, Dispatch.Clear(ord)).d);
      assert PttChain.Typed(kb - refused) && (kb - refused).Keys <= kb.Keys;
    }
  }

  /** The manager after its half of the rebind. */
  lemma JoystickAppliedSource(c: PttChain.Chain, e: Joystick.Event)
    requires Joystick.Inv(c.j) && c.j.span.None? && e.Apply? && Joystick.Enabled(c.j.s, e) && Joystick.Typed(e.binds)
    ensures var t, es := JoystickApplied(c, e), Joystick.Commit(c.j.s, e).1;
      && Joystick.Inv(t.j) && PttChain.JoystickHeld(t.j) == {}
      && Legal(PttChain.JoystickHeld(c.j), es) && After(PttChain.JoystickHeld(c.j), es) == {}
  {
    var t, es := JoystickApplied(c, e), Joystick.Commit(c.j.s, e).1;
    assert c.j.log + Joystick.Pending(c.j) == c.j.log;
    Joystick.CommitFollows(c.j.s, e);
    AfterConcat({}, c.j.log, es);
    assert t.j.log + Joystick.Pending(t.j) == t.j.log;
    assert Joystick.HeldActive(t.j.s) == {};
  }

  lemma JoystickAppliedKeeps(c: PttChain.Chain, e: Joystick.Event)
    requires Quiet(c) && e.Apply? && Joystick.Enabled(c.j.s, e)
    requires Joystick.Typed(e.binds) && PttChain.Known(e.binds.Keys, c.app.holds)
    ensures var t := JoystickApplied(c, e);
      && Quiet(t) && t.app.holds == c.app.holds && PttChain.JoystickHeld(t.j) == {}
  {
    var t := JoystickApplied(c, e);
    var es := Joystick.Commit(c.j.s, e).1;
    var a, b := PttChain.KeyboardHeld(c.d), PttChain.JoystickHeld(c.j);
    JoystickAppliedSource(c, e);
    Joystick.HoldIdsAreHold(c.j.s.desired);
    PttChain.SectionCovered(c.j.s, e);
    JoinsSwap(c.app, a, b);
    HandledAllJoins(c.app, b, a, es);
    JoinsSwap(t.app, {}, a);
  }

  // ---- a rebind that nothing interrupts -----------------------------------------------

  /** The keyboard half, as the chain's own moves. */
  lemma KeyboardInOneGo(c: PttChain.Chain, kb: map<Action, Dispatch.Bound>, joy: Resolve.Bindings, holds: set<Action>,
                        refused: set<Action>, ord: seq<Action>)
      returns (ms: seq<PttChain.Move>)
    requires c.rebind == PttChain.Installed(kb, joy, holds) && c.reg.Free? && Enumerates(ord, c.d.latched.Keys)
    ensures PttChain.Leads(c, ms, KeyboardApplied(c, kb, refused, ord).(rebind := PttChain.KeyboardDone(joy, holds)))
  {
    var apply := PttChain.HkApply(ord);
    var done := KeyboardApplied(c, kb, refused, ord).(rebind := PttChain.KeyboardDone(joy, holds));
    var c1 := PttChain.Moved(c, apply);
    if c.hkSuspended {
      ms := [];
    } else {
      Dispatch.TakeAllDomain(c.d, ord);
      assert c1.d.latched.Keys == {} && c1.d.binds == map[] && c1.d.gen == c.d.gen;
      var c2 := PttChain.Registered(c1, refused);
      ms := PttChain.RegistersAll(c1, refused);
      assert c2.d.binds == kb - refused;
      assert PttChain.Moved(c2, PttChain.HkRegistered) == done;
      PttChain.LeadsBy(c2, PttChain.HkRegistered, [], done);
      PttChain.LeadsOn(c1, ms, c2, [PttChain.HkRegistered] + [], done);
      ms := ms + ([PttChain.HkRegistered] + []);
    }
    PttChain.LeadsBy(c, apply, ms, done);
    ms := [apply] + ms;
  }

  /** The joystick half. */
  lemma JoystickInOneGo(c: PttChain.Chain, holds: set<Action>, e: Joystick.Event) returns (ms: seq<PttChain.Move>)
    requires e.Apply? && c.rebind == PttChain.KeyboardDone(e.binds, holds) && c.asked.None? && c.j.span.None?
    requires Joystick.Enabled(c.j.s, e) && Joystick.Typed(e.binds)
    ensures PttChain.Leads(c, ms, JoystickApplied(c, e).(rebind := PttChain.JoystickDone(holds)))
  {
    var apply, done := PttChain.JoyApply(e.ord), JoystickApplied(c, e).(rebind := PttChain.JoystickDone(holds));
    assert e == Joystick.Apply(c.rebind.joy, e.ord);
    var c1 := PttChain.Moved(c, apply);
    ms := PttChain.AnswersAll(c1);
    var c2, unlock := PttChain.Answered(c1), PttChain.Joy(Joystick.Unlock);
    assert PttChain.Moved(c2, unlock) == done;
    PttChain.LeadsBy(c2, unlock, [], done);
    PttChain.LeadsOn(c1, ms, c2, [unlock] + [], done);
    ms := ms + ([unlock] + []);
    PttChain.LeadsBy(c, apply, ms, done);
    ms := [apply] + ms;
  }

  /** The rebind method is one of the runs of the chain: with nothing in between, the chain's
      moves lead to exactly the state it leaves behind. */
  lemma RebindInOneGo(c: PttChain.Chain, kb: map<Action, Dispatch.Bound>, joy: Resolve.Bindings, holds: set<Action>,
                      refused: set<Action>, ord: seq<Action>, e: Joystick.Event)
      returns (ms: seq<PttChain.Move>)
    requires Quiet(c) && Enumerates(ord, c.d.latched.Keys)
    requires e.Apply? && e.binds == joy && Joystick.Enabled(c.j.s, e)
    requires PttChain.CanMove(c, PttChain.Install(kb, joy, holds))
    ensures PttChain.Leads(c, ms, Applied(c, kb, holds, refused, ord, e))
  {
    var install, done := PttChain.Install(kb, joy, holds), Applied(c, kb, holds, refused, ord, e);
    var c1 := PttChain.Moved(c, install);
    ms := KeyboardInOneGo(c1, kb, joy, holds, refused, ord);
    var c2 := KeyboardApplied(c1, kb, refused, ord).(rebind := PttChain.KeyboardDone(joy, holds));
    var more := JoystickInOneGo(c2, holds, e);
    var c3 := JoystickApplied(c2, e).(rebind := PttChain.JoystickDone(holds));
    assert PttChain.Moved(c3, PttChain.Swap) == done;
    PttChain.LeadsBy(c3, PttChain.Swap, [], done);
    PttChain.LeadsOn(c2, more, c3, [PttChain.Swap] + [], done);
    PttChain.LeadsOn(c1, ms, c2, more + ([PttChain.Swap] + []), done);
    ms := ms + (more + ([PttChain.Swap] + []));
    PttChain.LeadsBy(c, install, ms, done);
    ms := [install] + ms;
  }

  /** The whole rebind: consistent again, nothing held, nothing counted, nothing down. */
  lemma AppliedKeeps(c: PttChain.Chain, kb: map<Action, Dispatch.Bound>, joy: Resolve.Bindings, holds: set<Action>,
                     refused: set<Action>, ord: seq<Action>, e: Joystick.Event)
    requires Quiet(c) && Enumerates(ord, c.d.latched.Keys)
    requires e.Apply? && e.binds == joy && Joystick.Enabled(c.j.s, e)
    requires PttChain.Typed(kb) && Joystick.Typed(joy)
    requires forall id :: id in holds ==> Hold(id)
    requires PttChain.Known(kb.Keys, holds) && PttChain.Known(joy.Keys, holds)
    ensures var t := Applied(c, kb, holds, refused, ord, e);
      && Quiet(t) && t.d.latched == map[] && t.app.n == map[] && After({}, t.app.log) == {}
      && t.d.binds == (if c.hkSuspended then map[] else kb - refused)
  {
    var c1 := c.(app := c.app.(holds := c.app.holds + holds));
    WidenKeeps(c, holds);
    KeyboardAppliedKeeps(c1, kb, refused, ord);
    var c2 := KeyboardApplied(c1, kb, refused, ord);
    JoystickAppliedKeeps(c2, e);
    var c3 := JoystickApplied(c2, e);
    SwapKeeps(c3, holds);
  }

  lemma WidenKeeps(c: PttChain.Chain, holds: set<Action>)
    requires Quiet(c) && (forall id :: id in holds ==> Hold(id))
    ensures Quiet(c.(app := c.app.(holds := c.app.holds + holds)))
  {
  }

  /** With nothing held, the hold table may shrink to what the tables still name. */
  lemma SwapKeeps(c: PttChain.Chain, holds: set<Action>)
    requires Quiet(c) && holds <= c.app.holds
    requires c.d.latched == map[] && PttChain.JoystickHeld(c.j) == {}
    requires PttChain.KeyboardKnown(c, holds) && PttChain.Known(c.j.s.desired.Keys, holds)
    ensures var t := c.(app := c.app.(holds := holds));
      Quiet(t) && t.app.n == map[] && After({}, t.app.log) == {}
  {
    assert PttChain.KeyboardHeld(c.d) == {};
    assert c.app.n.Keys == {};
  }
}
