/** The application's press and release handlers: a count per hold action joins the
    keyboard and the joystick into one edge per action. */
module PressCount {
  import opened Edges

  /** `holds` is the live hold table, `n` the counts, `log` the edges the application emitted. */
  datatype App = App(holds: set<Action>, n: map<Action, int>, log: seq<Edge>)

  function Count(n: map<Action, int>, id: Action): int {
    if id in n then n[id] else 0
  }

  /** One handler call whose hold question was answered `isHold`. */
  ghost function Handled(a: App, e: Edge, isHold: bool): App {
    match e
    case Pressed(id) =>
      if !isHold then a.(log := a.log + [e])
      else
        var c := Count(a.n, id) + 1;
        a.(n := a.n[id := c], log := if c == 1 then a.log + [e] else a.log)
    case Released(id) =>
      if !isHold then a.(log := a.log + [e])
      else
        var c := Count(a.n, id);
        if c <= 0 then a.(n := a.n - {id})
        else if c == 1 then a.(n := a.n - {id}, log := a.log + [e])
        else a.(n := a.n[id := c - 1])
  }

  /** What one handler call does. An edge that is not counted reaches the application; a counted
      one does exactly when it is the first press or the last release, and a release with
      nothing held is ignored. No other action's count moves. */
  lemma HandledCounts(a: App, e: Edge, isHold: bool)
    ensures var (t, c) := (Handled(a, e, isHold), Count(a.n, e.id));
      && t.holds == a.holds && (forall x :: x != e.id ==> Count(t.n, x) == Count(a.n, x))
      && (!isHold ==> t == a.(log := a.log + [e]))
      && (isHold && e.Pressed? ==> Count(t.n, e.id) == c + 1 && t.log == if c == 0 then a.log + [e] else a.log)
      && (isHold && e.Released? ==>
            Count(t.n, e.id) == (if c <= 1 then 0 else c - 1) && t.log == if c == 1 then a.log + [e] else a.log)
  {
  }

  ghost function HandledAll(a: App, es: seq<Edge>): App {
    if |es| == 0 then a
    else
      var b := HandledAll(a, es[..|es| - 1]);
      Handled(b, es[|es| - 1], es[|es| - 1].id in b.holds)
  }

  class Backend {
    var holds: set<Action>
    var n: map<Action, int>
    var log: seq<Edge>

    ghost function View(): App
      reads this
    {
      App(holds, n, log)
    }

    constructor ()
      ensures View() == App({}, map[], [])
    {
      holds, n, log := {}, map[], [];
    }

    /** Records a source taking the action; true on the 0 to 1 transition. */
    method Press(id: Action) returns (first: bool)
      modifies this`n
      ensures n == old(n)[id := Count(old(n), id) + 1] && first == (n[id] == 1)
    {
      n := n[id := Count(n, id) + 1];
      first := n[id] == 1;
    }

    /** Records a source letting go; true on the 1 to 0 transition. A release with
        nothing held is ignored. */
    method Release(id: Action) returns (last: bool)
      modifies this`n
      ensures last == (Count(old(n), id) == 1)
      ensures n == if Count(old(n), id) <= 1 then old(n) - {id} else old(n)[id := old(n)[id] - 1]
    {
      if Count(n, id) <= 0 {
        n := n - {id};
        return false;
      }
      n := n[id := n[id] - 1];
      if n[id] == 0 {
        n := n - {id};
        return true;
      }
      return false;
    }

    method OnPressed(id: Action)
      modifies this
      ensures View() == Handled(old(View()), Pressed(id), id in old(holds))
    {
      if id in holds {
        var first := Press(id);
        if !first {
          return;
        }
      }
      log := log + [Pressed(id)];
    }

    method OnReleased(id: Action)
      modifies this
      ensures View() == Handled(old(View()), Released(id), id in old(holds))
    {
      if id in holds {
        var last := Release(id);
        if !last {
          return;
        }
      }
      log := log + [Released(id)];
    }
  }

  /** Sources hold `a` and `b`: each count is the number of sources holding, every held
      action is in the hold table, and the application's own edges are legal with exactly
      the counted actions down. */
  ghost predicate Joins(app: App, a: set<Action>, b: set<Action>) {
    && (forall id :: id in app.holds ==> Hold(id))
    && a <= app.holds && b <= app.holds
    && app.n.Keys == a + b
    && (forall id :: id in app.n ==> app.n[id] == (if id in a then 1 else 0) + (if id in b then 1 else 0))
    && Legal({}, app.log)
    && After({}, app.log) == a + b
  }

  lemma JoinsSwap(app: App, a: set<Action>, b: set<Action>)
    requires Joins(app, a, b)
    ensures Joins(app, b, a)
  {
    assert a + b == b + a;
  }

  /** A fitting edge from the first source keeps the join, provided its action is known. */
  lemma HandledJoins(app: App, a: set<Action>, b: set<Action>, e: Edge)
    requires Joins(app, a, b) && Fits(a, e)
    requires Hold(e.id) ==> e.id in app.holds
    ensures Joins(Handled(app, e, Hold(e.id)), Step(a, e), b)
  {
    AfterSnoc({}, app.log, e);
    var t := Handled(app, e, Hold(e.id));
    assert t.n.Keys == Step(a, e) + b;
    assert After({}, t.log) == Step(a, e) + b;
  }

  lemma {:induction false} HandledAllJoins(app: App, a: set<Action>, b: set<Action>, es: seq<Edge>)
    requires Joins(app, a, b) && Legal(a, es) && Covered(es, app.holds)
    ensures Joins(HandledAll(app, es), After(a, es), b)
    ensures HandledAll(app, es).holds == app.holds
  {
    if es != [] {
      var n := |es| - 1;
      assert es == es[..n] + [es[n]];
      HandledAllJoins(app, a, b, es[..n]);
      var mid := HandledAll(app, es[..n]);
      assert es[n].id in mid.holds <==> Hold(es[n].id);
      HandledJoins(mid, After(a, es[..n]), b, es[n]);
    }
  }
}
