/** What the chain owes to its delivery order. A source commits an edge under its lock and
    hands it to the application afterwards, where the hold question, the count and the
    emission are three more steps. Several goroutines deliver keyboard edges (the reader, a
    rebind or suspend, the watchdogs) with nothing to keep them in commit order; joystick
    deliveries exclude each other through the notify lock. This module proves exactly when
    the counts, and the application's own view, follow what is held. */
module DeliveryOrder {
  import opened Wrappers
  import opened Edges
  import opened PressCount
  import Dispatch
  import PttChain

  datatype Source = FromKeys | FromSticks

  type Goroutine = nat

  /** A goroutine that delivers edges of a source. */
  datatype Deliverer = Deliverer(g: Goroutine, src: Source)

  /** Where the first edge of a delivery stands. */
  datatype Phase = Queued | Asked(hold: bool) | Due

  /** The handler calls a goroutine owes for one commit. */
  datatype Work = Work(src: Source, todo: seq<Edge>, phase: Phase)

  /** The dispatcher, the hold actions active on the joystick, the hold table, the counts and
      the edges emitted; `busy` are the deliveries under way. `keysTold` and `sticksTold`
      are the hold actions each source holds as far as the counts have been told. */
  datatype State = State(
    d: Dispatch.State, sticks: set<Action>, holds: set<Action>, n: map<Action, int>, log: seq<Edge>,
    busy: map<Goroutine, Work>, keysTold: set<Action>, sticksTold: set<Action>)

  datatype Step =
    | KeyCommit(g: Goroutine, e: Dispatch.Event)       // one critical section of the dispatcher
    | StickCommit(g: Goroutine, es: seq<Edge>)         // one of the joystick manager
    | Ask(g: Goroutine)                                // read the hold table
    | Tally(g: Goroutine)                              // count, or pass an edge by uncounted
    | Emit(g: Goroutine)
    | Retable(g: Goroutine, holds: set<Action>)        // a rebind swaps the hold table

  ghost function Owes(d: Dispatch.State, e: Dispatch.Event): seq<Edge>
    requires Dispatch.Enabled(d, e)
  {
    PttChain.Untag(Dispatch.Next(d, e).1)
  }

  /** No action twice: a commit touches each action at most once. */
  ghost predicate Once(es: seq<Edge>) { forall i, j :: 0 <= i < j < |es| ==> es[i].id != es[j].id }

  /** A joystick delivery holds the notify lock, and a rebind has held it since it took the
      actions it drops away from the joystick. */
  ghost predicate CanStep(s: State, t: Step) {
    match t
    case KeyCommit(g, e) =>
      && g !in s.busy && Dispatch.Enabled(s.d, e)
      && (e.Add? ==> e.b.hold == Hold(e.id) && (Hold(e.id) ==> e.id in s.holds))
    case StickCommit(g, es) =>
      && g !in s.busy && (forall h <- s.busy :: s.busy[h].src.FromKeys?)
      && Legal(s.sticks, es) && Once(es) && Covered(es, s.holds)
    case Ask(g) => g in s.busy && s.busy[g].todo != [] && s.busy[g].phase.Queued?
    case Tally(g) => g in s.busy && s.busy[g].todo != [] && s.busy[g].phase.Asked?
    case Emit(g) => g in s.busy && s.busy[g].todo != [] && s.busy[g].phase.Due?
    case Retable(g, holds) =>
      && g !in s.busy && (forall id <- holds :: Hold(id))
      && PttChain.Known(s.d.binds.Keys, holds) && s.sticks <= holds
      && forall h <- s.busy :: s.busy[h].src.FromSticks? ==> Covered(s.busy[h].todo, holds)
  }

  ghost function Started(s: State, g: Goroutine, src: Source, es: seq<Edge>): State {
    if es == [] then s else s.(busy := s.busy[g := Work(src, es, Queued)])
  }

  /** The first edge is dealt with. */
  ghost function Passed(s: State, g: Goroutine): State
    requires g in s.busy && s.busy[g].todo != []
  {
    var w := s.busy[g];
    s.(busy := if |w.todo| == 1 then s.busy - {g} else s.busy[g := Work(w.src, w.todo[1..], Queued)])
  }

  ghost function InPhase(s: State, g: Goroutine, phase: Phase): State
    requires g in s.busy
  {
    s.(busy := s.busy[g := s.busy[g].(phase := phase)])
  }

  ghost function Told(s: State, src: Source, e: Edge): State {
    match src
    case FromKeys => s.(keysTold := Edges.Step(s.keysTold, e))
    case FromSticks => s.(sticksTold := Edges.Step(s.sticksTold, e))
  }

  /** Whether the count lets an edge through, and the count afterwards. */
  ghost predicate Passes(n: map<Action, int>, e: Edge) {
    Count(n, e.id) == if e.Pressed? then 0 else 1
  }

  ghost function Counted(n: map<Action, int>, e: Edge): map<Action, int> {
    var c := Count(n, e.id);
    if e.Pressed? then n[e.id := c + 1] else if c <= 1 then n - {e.id} else n[e.id := c - 1]
  }

  ghost function Next(s: State, t: Step): State
    requires CanStep(s, t)
  {
    match t
    case KeyCommit(g, e) => Started(s.(d := Dispatch.Next(s.d, e).0), g, FromKeys, Owes(s.d, e))
    case StickCommit(g, es) => Started(s.(sticks := After(s.sticks, es)), g, FromSticks, es)
    case Ask(g) => InPhase(s, g, Asked(s.busy[g].todo[0].id in s.holds))
    case Tally(g) =>
      var w, e := s.busy[g], s.busy[g].todo[0];
      if !w.phase.hold then InPhase(s, g, Due)
      else
        var t := Told(s.(n := Counted(s.n, e)), w.src, e);
        if Passes(s.n, e) then InPhase(t, g, Due) else Passed(t, g)
    case Emit(g) => Passed(s.(log := s.log + [s.busy[g].todo[0]]), g)
    case Retable(g, holds) => s.(holds := holds)
  }

  /** `Tally` is the counting of `PressCount`, cut off from its emission. */
  lemma TallyIsHandled(a: App, e: Edge)
    ensures Handled(a, e, true).n == Counted(a.n, e)
    ensures Handled(a, e, true).log == if Passes(a.n, e) then a.log + [e] else a.log
  {
  }

  ghost function Start(holds: set<Action>): State {
    State(Dispatch.EMPTY, {}, holds, map[], [], map[], {}, {})
  }

  ghost function EdgeOf(es: seq<Edge>, id: Action): Option<Edge> {
    if es == [] then None else if es[0].id == id then Some(es[0]) else EdgeOf(es[1..], id)
  }

  /** `D` are the deliverers of edges of `id`, and `R` the goroutines whose rebinds may drop the
      action from the hold table. A rebind clears the keyboard first, but delivers an edge of
      the action only if it finds it latched. */
  ghost predicate StepBy(D: set<Deliverer>, R: set<Goroutine>, id: Action, s: State, t: Step)
    requires CanStep(s, t)
  {
    match t
    case KeyCommit(g, e) => EdgeOf(Owes(s.d, e), id).Some? ==> Deliverer(g, FromKeys) in D
    case StickCommit(g, es) => EdgeOf(es, id).Some? ==> Deliverer(g, FromSticks) in D
    case Retable(g, holds) => id in s.holds && id !in holds ==> g in R
    case _ => true
  }

  ghost predicate Run(D: set<Deliverer>, R: set<Goroutine>, id: Action, ts: seq<Step>, states: seq<State>) {
    && |states| == |ts| + 1
    && (exists holds :: states[0] == Start(holds) && forall x <- holds :: Hold(x))
    && forall i :: 0 <= i < |ts| ==>
         CanStep(states[i], ts[i]) && StepBy(D, R, id, states[i], ts[i]) && states[i + 1] == Next(states[i], ts[i])
  }

  // ---- what is promised -----------------------------------------------------------------------

  ghost predicate Concerns(w: Work, id: Action) { EdgeOf(w.todo, id).Some? }

  /** No delivery of `id` is under way. */
  ghost predicate Still(s: State, id: Action) { forall g <- s.busy :: !Concerns(s.busy[g], id) }

  ghost function One(b: bool): int { if b then 1 else 0 }

  ghost function Holders(s: State, id: Action): int {
    One(id in PttChain.KeyboardHeld(s.d)) + One(id in s.sticks)
  }

  ghost predicate CountOk(s: State, id: Action) { Still(s, id) ==> Count(s.n, id) == Holders(s, id) }

  ghost predicate ViewOk(s: State, id: Action) { Still(s, id) ==> (id in After({}, s.log) <==> Holders(s, id) > 0) }

  /** Over every run, the count of `id` is the number of sources holding it. */
  ghost predicate CountsFollow(D: set<Deliverer>, R: set<Goroutine>, id: Action) {
    forall ts, states, i :: Run(D, R, id, ts, states) && 0 <= i <= |ts| ==> CountOk(states[i], id)
  }

  /** Over every run, the application sees `id` down exactly while a source holds it. */
  ghost predicate ViewFollows(D: set<Deliverer>, R: set<Goroutine>, id: Action) {
    forall ts, states, i :: Run(D, R, id, ts, states) && 0 <= i <= |ts| ==> ViewOk(states[i], id)
  }

  /** At most one goroutine delivers keyboard edges of the action. */
  ghost predicate OneKeyGoroutine(D: set<Deliverer>) {
    forall a, b :: a in D && b in D && a.src.FromKeys? && b.src.FromKeys? ==> a.g == b.g
  }

  /** Its deliveries cannot cross: they are all joystick deliveries, or all of one goroutine. */
  ghost predicate CannotCross(D: set<Deliverer>) {
    (forall a :: a in D ==> a.src.FromSticks?) || forall a, b :: a in D && b in D ==> a.g == b.g
  }

  /** Whoever drops the action from the hold table delivers all of its keyboard edges. */
  ghost predicate DropsOwn(D: set<Deliverer>, R: set<Goroutine>) {
    forall a, r :: a in D && r in R && a.src.FromKeys? ==> a.g == r
  }

  // ---- one commit, seen by one action -----------------------------------------------------------

  /** How an edge, if any, changes whether an action is held. */
  ghost predicate Turns(before: bool, e: Option<Edge>, after: bool) {
    match e case None => before == after case Some(x) => before != x.Pressed? && after == x.Pressed?
  }

  lemma {:induction false} EdgeOfIs(es: seq<Edge>, id: Action)
    ensures EdgeOf(es, id).None? <==> forall e <- es :: e.id != id
    ensures EdgeOf(es, id).Some? ==> EdgeOf(es, id).value in es && EdgeOf(es, id).value.id == id
  {
    if es != [] {
      EdgeOfIs(es[1..], id);
      assert es == [es[0]] + es[1..];
    }
  }

  lemma EdgeOfRest(es: seq<Edge>, id: Action)
    requires es != [] && Once(es)
    ensures Once(es[1..])
    ensures EdgeOf(es[1..], id) == if es[0].id == id then None else EdgeOf(es, id)
  {
    EdgeOfIs(es[1..], id);
  }

  lemma {:induction false} LegalTurns(start: set<Action>, es: seq<Edge>, id: Action)
    requires Legal(start, es) && Once(es) && Hold(id)
    ensures Turns(id in start, EdgeOf(es, id), id in After(start, es))
  {
    if es != [] {
      var p, e := es[..|es| - 1], es[|es| - 1];
      LegalTurns(start, p, id);
      EdgeOfSnoc(p, e, id);
      assert p + [e] == es;
      if e.id == id { EdgeOfIs(p, id); }
    }
  }

  lemma {:induction false} EdgeOfSnoc(es: seq<Edge>, e: Edge, id: Action)
    ensures EdgeOf(es + [e], id)
         == if EdgeOf(es, id).Some? then EdgeOf(es, id) else if e.id == id then Some(e) else None
  {
    if es != [] {
      assert (es + [e])[1..] == es[1..] + [e];
      EdgeOfSnoc(es[1..], e, id);
    }
  }

  lemma CommitsOnce(d: Dispatch.State, e: Dispatch.Event)
    requires Dispatch.Enabled(d, e)
    ensures Once(Owes(d, e))
  {
    Dispatch.StepReports(d, e);
  }

  // ---- the counts -------------------------------------------------------------------------------

  /** What a delivery has not been counted for yet. */
  ghost function Rest(w: Work): seq<Edge> { if w.phase.Due? && w.todo != [] then w.todo[1..] else w.todo }

  ghost function ToldOf(s: State, src: Source): set<Action> {
    match src case FromKeys => s.keysTold case FromSticks => s.sticksTold
  }

  ghost function HeldOf(s: State, src: Source): set<Action> {
    match src case FromKeys => PttChain.KeyboardHeld(s.d) case FromSticks => s.sticks
  }

  ghost predicate Waits(s: State, g: Goroutine, src: Source, id: Action) {
    g in s.busy && s.busy[g].src == src && EdgeOf(Rest(s.busy[g]), id).Some?
  }

  ghost predicate Shape(s: State) {
    && PttChain.Typed(s.d.binds) && s.d.latched.Keys <= s.d.binds.Keys
    && PttChain.Known(s.d.binds.Keys, s.holds) && s.sticks <= s.holds && (forall x <- s.holds :: Hold(x))
    && (forall g <- s.busy :: s.busy[g].todo != [] && Once(s.busy[g].todo))
    && (forall g <- s.busy, h <- s.busy :: s.busy[g].src.FromSticks? && s.busy[h].src.FromSticks? ==> g == h)
  }

  ghost predicate Allowed(D: set<Deliverer>, s: State, id: Action) {
    forall g <- s.busy :: Concerns(s.busy[g], id) ==> Deliverer(g, s.busy[g].src) in D
  }

  /** The uncounted edge of `g` is what the source still has to tell about `id`. */
  ghost predicate WaitOk(s: State, g: Goroutine, src: Source, id: Action)
    requires Waits(s, g, src, id)
  {
    var w := s.busy[g];
    && id in s.holds
    && Turns(id in ToldOf(s, src), EdgeOf(Rest(w), id), id in HeldOf(s, src))
    && (w.phase.Asked? && w.todo != [] && w.todo[0].id == id ==> w.phase.hold)
  }

  /** A source has told all it holds, but for at most one edge on its way. */
  ghost predicate SourceOk(s: State, src: Source, id: Action) {
    && (forall g, h :: Waits(s, g, src, id) && Waits(s, h, src, id) ==> g == h)
    && (forall g :: Waits(s, g, src, id) ==> WaitOk(s, g, src, id))
    && ((forall g :: !Waits(s, g, src, id)) ==> (id in ToldOf(s, src) <==> id in HeldOf(s, src)))
  }

  ghost predicate TallyOk(s: State, id: Action) {
    Count(s.n, id) == One(id in s.keysTold) + One(id in s.sticksTold)
  }

  ghost predicate Inv(D: set<Deliverer>, s: State, id: Action) {
    Shape(s) && Allowed(D, s, id) && SourceOk(s, FromKeys, id) && SourceOk(s, FromSticks, id) && TallyOk(s, id)
  }

  /** Only the delivery of `g` differs. */
  ghost predicate SameBut(s: State, u: State, g: Goroutine) { s.busy - {g} == u.busy - {g} }

  lemma OthersWait(s: State, u: State, g: Goroutine, src: Source, id: Action)
    requires SameBut(s, u, g)
    ensures forall h :: h != g ==> (h in u.busy <==> h in s.busy) && (h in s.busy ==> u.busy[h] == s.busy[h])
    ensures forall h :: h != g ==> (Waits(u, h, src, id) <==> Waits(s, h, src, id))
  {
    forall h | h != g ensures (h in u.busy <==> h in s.busy) && (h in s.busy ==> u.busy[h] == s.busy[h]) {
      assert h in s.busy <==> h in s.busy - {g};
      assert h in u.busy <==> h in u.busy - {g};
      assert h in s.busy ==> s.busy[h] == (s.busy - {g})[h];
    }
  }

  /** A step that leaves what the source tells about `id` as it was. */
  lemma Untouched(s: State, u: State, g: Goroutine, src: Source, id: Action)
    requires SourceOk(s, src, id) && SameBut(s, u, g)
    requires ToldOf(u, src) == ToldOf(s, src) || (id in ToldOf(u, src) <==> id in ToldOf(s, src))
    requires id in HeldOf(u, src) <==> id in HeldOf(s, src)
    requires forall h :: Waits(s, h, src, id) ==> id in u.holds
    requires Waits(u, g, src, id) <==> Waits(s, g, src, id)
    requires Waits(u, g, src, id) ==>
               && EdgeOf(Rest(u.busy[g]), id) == EdgeOf(Rest(s.busy[g]), id)
               && (u.busy[g].phase.Asked? && u.busy[g].todo != [] && u.busy[g].todo[0].id == id ==>
                    u.busy[g].phase.hold)
    ensures SourceOk(u, src, id)
  {
    OthersWait(s, u, g, src, id);
    forall h | Waits(u, h, src, id) ensures WaitOk(u, h, src, id) {
      assert Waits(s, h, src, id) && WaitOk(s, h, src, id);
    }
    forall h, k | Waits(u, h, src, id) && Waits(u, k, src, id) ensures h == k {
      assert Waits(s, h, src, id) && Waits(s, k, src, id);
    }
    if forall h :: !Waits(u, h, src, id) {
      forall h ensures !Waits(s, h, src, id) { assert !Waits(u, h, src, id); }
    }
  }

  /** A commit whose edge is the only one on its way. */
  lemma BeginsWait(s: State, u: State, g: Goroutine, src: Source, id: Action)
    requires SourceOk(s, src, id) && SameBut(s, u, g) && (forall h :: !Waits(s, h, src, id))
    requires ToldOf(u, src) == ToldOf(s, src) && id in u.holds
    requires Waits(u, g, src, id) && u.busy[g].phase.Queued?
    requires Turns(id in HeldOf(s, src), EdgeOf(Rest(u.busy[g]), id), id in HeldOf(u, src))
    ensures SourceOk(u, src, id)
  {
    OthersWait(s, u, g, src, id);
  }

  /** The edge on its way has been counted. */
  lemma EndsWait(s: State, u: State, g: Goroutine, src: Source, id: Action)
    requires SourceOk(s, src, id) && SameBut(s, u, g) && Waits(s, g, src, id) && !Waits(u, g, src, id)
    requires id in ToldOf(u, src) <==> EdgeOf(Rest(s.busy[g]), id).value.Pressed?
    requires HeldOf(u, src) == HeldOf(s, src)
    ensures SourceOk(u, src, id)
  {
    OthersWait(s, u, g, src, id);
    assert WaitOk(s, g, src, id);
  }

  lemma CommitIsSeen(s: State, e: Dispatch.Event, id: Action)
    requires Shape(s) && Dispatch.Enabled(s.d, e) && Hold(id)
    requires e.Add? ==> e.b.hold == Hold(e.id) && (Hold(e.id) ==> e.id in s.holds)
    ensures var d, es := Dispatch.Next(s.d, e).0, Owes(s.d, e);
      && Once(es) && Turns(id in PttChain.KeyboardHeld(s.d), EdgeOf(es, id), id in PttChain.KeyboardHeld(d))
      && (EdgeOf(es, id).Some? ==> id in s.holds)
      && PttChain.Typed(d.binds) && d.latched.Keys <= d.binds.Keys && PttChain.Known(d.binds.Keys, s.holds)
  {
    PttChain.EventFollows(s.d, e);
    CommitsOnce(s.d, e);
    LegalTurns(PttChain.KeyboardHeld(s.d), Owes(s.d, e), id);
    EdgeOfIs(Owes(s.d, e), id);
  }

  /** Beginning a delivery with a commit of allowed edges. */
  lemma StartedKeeps(D: set<Deliverer>, s: State, g: Goroutine, src: Source, es: seq<Edge>, id: Action)
    requires Shape(s) && Allowed(D, s, id) && g !in s.busy && Once(es)
    requires src.FromSticks? ==> forall h <- s.busy :: s.busy[h].src.FromKeys?
    requires EdgeOf(es, id).Some? ==> Deliverer(g, src) in D
    ensures Shape(Started(s, g, src, es)) && Allowed(D, Started(s, g, src, es), id)
      && SameBut(s, Started(s, g, src, es), g)
  {
  }

  lemma KeyCommitShape(D: set<Deliverer>, R: set<Goroutine>, s: State, g: Goroutine, e: Dispatch.Event, id: Action)
    requires Shape(s) && Allowed(D, s, id) && Hold(id)
    requires CanStep(s, KeyCommit(g, e)) && StepBy(D, R, id, s, KeyCommit(g, e))
    ensures Shape(Next(s, KeyCommit(g, e))) && Allowed(D, Next(s, KeyCommit(g, e)), id)
    ensures SameBut(s, Next(s, KeyCommit(g, e)), g)
  {
    CommitIsSeen(s, e, id);
    StartedKeeps(D, s.(d := Dispatch.Next(s.d, e).0), g, FromKeys, Owes(s.d, e), id);
  }

  /** How one commit changes what its own source has yet to tell; `v` is `s` with what the
      source holds moved on. */
  lemma StartedSource(s: State, v: State, g: Goroutine, src: Source, es: seq<Edge>, id: Action)
    requires SourceOk(s, src, id) && g !in s.busy
    requires v.busy == s.busy && ToldOf(v, src) == ToldOf(s, src) && v.holds == s.holds
    requires Turns(id in HeldOf(s, src), EdgeOf(es, id), id in HeldOf(v, src))
    requires EdgeOf(es, id).Some? ==> id in s.holds && forall h :: !Waits(s, h, src, id)
    ensures SourceOk(Started(v, g, src, es), src, id)
  {
    var u := Started(v, g, src, es);
    assert SameBut(s, u, g);
    if EdgeOf(es, id).None? {
      forall h | Waits(s, h, src, id) ensures id in u.holds { assert WaitOk(s, h, src, id); }
      Untouched(s, u, g, src, id);
    } else {
      BeginsWait(s, u, g, src, id);
    }
  }

  lemma KeyCommitSource(D: set<Deliverer>, R: set<Goroutine>, s: State, g: Goroutine, e: Dispatch.Event, id: Action)
    requires Shape(s) && Allowed(D, s, id) && SourceOk(s, FromKeys, id) && Hold(id) && OneKeyGoroutine(D)
    requires CanStep(s, KeyCommit(g, e)) && StepBy(D, R, id, s, KeyCommit(g, e))
    ensures SourceOk(Next(s, KeyCommit(g, e)), FromKeys, id)
  {
    CommitIsSeen(s, e, id);
    if EdgeOf(Owes(s.d, e), id).Some? {
      forall h ensures !Waits(s, h, FromKeys, id) {
        if Waits(s, h, FromKeys, id) { WaitsConcerns(D, s, h, FromKeys, id); }
      }
    }
    StartedSource(s, s.(d := Dispatch.Next(s.d, e).0), g, FromKeys, Owes(s.d, e), id);
  }

  lemma KeyCommitKeeps(D: set<Deliverer>, R: set<Goroutine>, s: State, g: Goroutine, e: Dispatch.Event, id: Action)
    requires Inv(D, s, id) && Hold(id) && OneKeyGoroutine(D)
    requires CanStep(s, KeyCommit(g, e)) && StepBy(D, R, id, s, KeyCommit(g, e))
    ensures Inv(D, Next(s, KeyCommit(g, e)), id)
  {
    KeyCommitShape(D, R, s, g, e, id);
    KeyCommitSource(D, R, s, g, e, id);
    Untouched(s, Next(s, KeyCommit(g, e)), g, FromSticks, id);
  }

  /** Whoever has an uncounted edge of `id` is one of its deliverers. */
  lemma WaitsConcerns(D: set<Deliverer>, s: State, g: Goroutine, src: Source, id: Action)
    requires Shape(s) && Allowed(D, s, id) && Waits(s, g, src, id)
    ensures Concerns(s.busy[g], id) && Deliverer(g, src) in D
  {
    EdgeOfRest(s.busy[g].todo, id);
  }

  lemma StickCommitSource(D: set<Deliverer>, R: set<Goroutine>, s: State, g: Goroutine, es: seq<Edge>, id: Action)
    requires SourceOk(s, FromSticks, id) && Hold(id)
    requires CanStep(s, StickCommit(g, es)) && StepBy(D, R, id, s, StickCommit(g, es))
    ensures SourceOk(Next(s, StickCommit(g, es)), FromSticks, id)
  {
    LegalTurns(s.sticks, es, id);
    EdgeOfIs(es, id);
    StartedSource(s, s.(sticks := After(s.sticks, es)), g, FromSticks, es, id);
  }

  lemma StickCommitKeeps(D: set<Deliverer>, R: set<Goroutine>, s: State, g: Goroutine, es: seq<Edge>, id: Action)
    requires Inv(D, s, id) && Hold(id) && CanStep(s, StickCommit(g, es)) && StepBy(D, R, id, s, StickCommit(g, es))
    ensures Inv(D, Next(s, StickCommit(g, es)), id)
  {
    StickCommitSource(D, R, s, g, es, id);
    SticksStayKnown(s.sticks, es, s.holds);
    StartedKeeps(D, s.(sticks := After(s.sticks, es)), g, FromSticks, es, id);
    Untouched(s, Next(s, StickCommit(g, es)), g, FromKeys, id);
  }

  lemma {:induction false} SticksStayKnown(start: set<Action>, es: seq<Edge>, holds: set<Action>)
    requires start <= holds && Covered(es, holds)
    ensures After(start, es) <= holds
  {
    if es != [] {
      assert es[|es| - 1] in es && forall e <- es[..|es| - 1] :: e in es;
      SticksStayKnown(start, es[..|es| - 1], holds);
    }
  }

  lemma AskKeeps(D: set<Deliverer>, s: State, g: Goroutine, id: Action)
    requires Inv(D, s, id) && CanStep(s, Ask(g))
    ensures Inv(D, Next(s, Ask(g)), id)
  {
    var u := Next(s, Ask(g));
    assert SameBut(s, u, g);
    Untouched(s, u, g, FromKeys, id);
    Untouched(s, u, g, FromSticks, id);
  }

  /** `Passed` leaves exactly the edges behind the first. */
  lemma PassedRest(s: State, g: Goroutine, id: Action)
    requires Shape(s) && g in s.busy
    ensures var u, w := Passed(s, g), s.busy[g];
      && SameBut(s, u, g)
      && (g in u.busy <==> |w.todo| > 1) && (g in u.busy ==> u.busy[g] == Work(w.src, w.todo[1..], Queued))
      && (forall src :: Waits(u, g, src, id) <==> src == w.src && EdgeOf(w.todo[1..], id).Some?)
      && (forall h <- u.busy :: u.busy[h].todo != [] && Once(u.busy[h].todo))
  {
    EdgeOfRest(s.busy[g].todo, id);
  }

  lemma PassedKeepsShape(D: set<Deliverer>, s: State, g: Goroutine, id: Action)
    requires Shape(s) && Allowed(D, s, id) && g in s.busy
    ensures Shape(Passed(s, g)) && Allowed(D, Passed(s, g), id)
  {
    PassedRest(s, g, id);
    EdgeOfRest(s.busy[g].todo, id);
    OthersWait(s, Passed(s, g), g, FromKeys, id);
  }

  lemma EmitKeeps(D: set<Deliverer>, s: State, g: Goroutine, id: Action)
    requires Inv(D, s, id) && CanStep(s, Emit(g))
    ensures Inv(D, Next(s, Emit(g)), id)
  {
    var t, u := s.(log := s.log + [s.busy[g].todo[0]]), Next(s, Emit(g));
    PassedRest(t, g, id);
    PassedKeepsShape(D, t, g, id);
    Untouched(s, u, g, FromKeys, id);
    Untouched(s, u, g, FromSticks, id);
  }

  /** The delivery of `g` after its first edge is counted: the edge is due or passed. */
  ghost predicate HeadCounted(s: State, u: State, g: Goroutine)
    requires g in s.busy && s.busy[g].todo != []
  {
    var w := s.busy[g];
    SameBut(s, u, g)
    && (if g in u.busy then u.busy[g] == w.(phase := Due)
          || (|w.todo| > 1 && u.busy[g] == Work(w.src, w.todo[1..], Queued))
        else |w.todo| == 1)
  }

  lemma HeadCountedRest(D: set<Deliverer>, s: State, u: State, g: Goroutine, id: Action)
    requires Shape(s) && Allowed(D, s, id) && g in s.busy && HeadCounted(s, u, g)
    requires u.d == s.d && u.sticks == s.sticks && u.holds == s.holds
    ensures Shape(u) && Allowed(D, u, id)
    ensures forall src :: Waits(u, g, src, id) <==> src == s.busy[g].src && EdgeOf(s.busy[g].todo[1..], id).Some?
    ensures forall src :: Waits(u, g, src, id) ==>
              EdgeOf(Rest(u.busy[g]), id) == EdgeOf(s.busy[g].todo[1..], id) && !u.busy[g].phase.Asked?
  {
    EdgeOfRest(s.busy[g].todo, id);
    OthersWait(s, u, g, FromKeys, id);
  }

  lemma TallyHead(s: State, g: Goroutine)
    requires CanStep(s, Tally(g))
    ensures HeadCounted(s, Next(s, Tally(g)), g)
  {
  }

  lemma CountedElsewhere(s: State, g: Goroutine, id: Action)
    requires CanStep(s, Tally(g)) && s.busy[g].todo[0].id != id
    ensures var u := Next(s, Tally(g));
      && Count(u.n, id) == Count(s.n, id)
      && (id in u.keysTold <==> id in s.keysTold) && (id in u.sticksTold <==> id in s.sticksTold)
      && u.d == s.d && u.sticks == s.sticks && u.holds == s.holds
  {
  }

  lemma TallyOtherSource(D: set<Deliverer>, s: State, g: Goroutine, src: Source, id: Action)
    requires Shape(s) && Allowed(D, s, id) && SourceOk(s, src, id)
    requires CanStep(s, Tally(g)) && s.busy[g].todo[0].id != id
    ensures SourceOk(Next(s, Tally(g)), src, id)
  {
    var u := Next(s, Tally(g));
    CountedElsewhere(s, g, id);
    TallyHead(s, g);
    HeadCountedRest(D, s, u, g, id);
    EdgeOfRest(s.busy[g].todo, id);
    forall h | Waits(s, h, src, id) ensures id in u.holds { assert WaitOk(s, h, src, id); }
    Untouched(s, u, g, src, id);
  }

  /** Counting an edge of another action. */
  lemma TallyOther(D: set<Deliverer>, s: State, g: Goroutine, id: Action)
    requires Inv(D, s, id) && CanStep(s, Tally(g)) && s.busy[g].todo[0].id != id
    ensures Inv(D, Next(s, Tally(g)), id)
  {
    CountedElsewhere(s, g, id);
    TallyHead(s, g);
    HeadCountedRest(D, s, Next(s, Tally(g)), g, id);
    TallyOtherSource(D, s, g, FromKeys, id);
    TallyOtherSource(D, s, g, FromSticks, id);
  }

  /** Counting the edge of the action itself: it was asked about rightly. */
  lemma TallySelfSource(D: set<Deliverer>, s: State, g: Goroutine, id: Action)
    requires Inv(D, s, id) && Hold(id) && CanStep(s, Tally(g)) && s.busy[g].todo[0].id == id
    ensures var src := s.busy[g].src; Waits(s, g, src, id) && WaitOk(s, g, src, id)
    ensures s.busy[g].phase.hold && SourceOk(Next(s, Tally(g)), s.busy[g].src, id)
  {
    var u, src := Next(s, Tally(g)), s.busy[g].src;
    TallyHead(s, g);
    HeadCountedRest(D, s, u, g, id);
    EdgeOfRest(s.busy[g].todo, id);
    assert Waits(s, g, src, id) && WaitOk(s, g, src, id);
    assert EdgeOf(Rest(s.busy[g]), id) == Some(s.busy[g].todo[0]);
    EndsWait(s, u, g, src, id);
  }

  /** Counting the edge of the action itself: it was asked about rightly, and the count moves
      with what the source has told. */
  lemma TallySelf(D: set<Deliverer>, s: State, g: Goroutine, id: Action)
    requires Inv(D, s, id) && Hold(id) && CanStep(s, Tally(g)) && s.busy[g].todo[0].id == id
    ensures Inv(D, Next(s, Tally(g)), id)
    ensures s.busy[g].phase.hold
    ensures var c := Count(s.n, id);
      Count(Next(s, Tally(g)).n, id) == (if s.busy[g].todo[0].Pressed? then c + 1 else c - 1) && c >= 0
      && (s.busy[g].todo[0].Released? ==> c >= 1)
  {
    var u, src := Next(s, Tally(g)), s.busy[g].src;
    TallyHead(s, g);
    HeadCountedRest(D, s, u, g, id);
    TallySelfSource(D, s, g, id);
    Untouched(s, u, g, if src.FromKeys? then FromSticks else FromKeys, id);
  }

  lemma RetableKeeps(D: set<Deliverer>, R: set<Goroutine>, s: State, g: Goroutine, holds: set<Action>, id: Action)
    requires Inv(D, s, id) && Hold(id) && DropsOwn(D, R)
    requires CanStep(s, Retable(g, holds)) && StepBy(D, R, id, s, Retable(g, holds))
    ensures Inv(D, Next(s, Retable(g, holds)), id)
  {
    var u := Next(s, Retable(g, holds));
    forall h, src | Waits(s, h, src, id) ensures id in holds {
      assert WaitOk(s, h, src, id);
      WaitsConcerns(D, s, h, src, id);
      EdgeOfIs(s.busy[h].todo, id);
    }
    Untouched(s, u, g, FromKeys, id);
    Untouched(s, u, g, FromSticks, id);
  }

  lemma StepKeepsInv(D: set<Deliverer>, R: set<Goroutine>, s: State, t: Step, id: Action)
    requires Inv(D, s, id) && Hold(id) && OneKeyGoroutine(D) && DropsOwn(D, R)
    requires CanStep(s, t) && StepBy(D, R, id, s, t)
    ensures Inv(D, Next(s, t), id)
  {
    match t
    case KeyCommit(g, e) => KeyCommitKeeps(D, R, s, g, e, id);
    case StickCommit(g, es) => StickCommitKeeps(D, R, s, g, es, id);
    case Ask(g) => AskKeeps(D, s, g, id);
    case Tally(g) => if s.busy[g].todo[0].id == id { TallySelf(D, s, g, id); } else { TallyOther(D, s, g, id); }
    case Emit(g) => EmitKeeps(D, s, g, id);
    case Retable(g, holds) => RetableKeeps(D, R, s, g, holds, id);
  }

  lemma {:induction false} RunKeepsInv(D: set<Deliverer>, R: set<Goroutine>, id: Action,
                                       ts: seq<Step>, states: seq<State>, i: nat)
    requires Run(D, R, id, ts, states) && i <= |ts| && Hold(id) && OneKeyGoroutine(D) && DropsOwn(D, R)
    ensures Inv(D, states[i], id)
  {
    if i > 0 {
      RunKeepsInv(D, R, id, ts, states, i - 1);
      StepKeepsInv(D, R, states[i - 1], ts[i - 1], id);
    }
  }

  lemma StillMeansTold(D: set<Deliverer>, s: State, id: Action)
    requires Inv(D, s, id) && Still(s, id)
    ensures Count(s.n, id) == Holders(s, id)
  {
    forall g, src ensures !Waits(s, g, src, id) {
      if Waits(s, g, src, id) { WaitsConcerns(D, s, g, src, id); }
    }
  }

  // ---- the application's view -------------------------------------------------------------------

  /** `g` has counted an edge of `id` and has yet to emit it. */
  ghost predicate DueOn(s: State, g: Goroutine, id: Action) {
    g in s.busy && s.busy[g].phase.Due? && s.busy[g].todo != [] && s.busy[g].todo[0].id == id
  }

  /** The view is the count, but for at most one emission on its way. */
  ghost predicate Sees(s: State, id: Action) {
    && (forall g :: DueOn(s, g, id) ==> (s.busy[g].todo[0].Pressed? <==> Count(s.n, id) > 0))
    && ((forall g :: !DueOn(s, g, id)) ==> (id in After({}, s.log) <==> Count(s.n, id) > 0))
  }

  lemma NeverCross(D: set<Deliverer>, s: State, id: Action, g: Goroutine, h: Goroutine)
    requires Shape(s) && Allowed(D, s, id) && CannotCross(D)
    requires g in s.busy && h in s.busy && Concerns(s.busy[g], id) && Concerns(s.busy[h], id)
    ensures g == h
  {
  }

  lemma DueConcerns(s: State, g: Goroutine, id: Action)
    requires DueOn(s, g, id)
    ensures Concerns(s.busy[g], id)
  {
  }

  /** A step that neither counts nor emits. */
  lemma SeesStill(s: State, u: State, g: Goroutine, id: Action)
    requires Sees(s, id) && SameBut(s, u, g) && u.n == s.n && u.log == s.log
    requires !DueOn(s, g, id) && !DueOn(u, g, id)
    ensures Sees(u, id)
  {
    OthersWait(s, u, g, FromKeys, id);
    forall h ensures DueOn(u, h, id) <==> DueOn(s, h, id) {}
  }

  /** Counting the action's own edge, with no other delivery of it under way. */
  lemma TallySeesSelf(D: set<Deliverer>, s: State, g: Goroutine, id: Action)
    requires Inv(D, s, id) && Sees(s, id) && Hold(id) && CannotCross(D)
    requires CanStep(s, Tally(g)) && s.busy[g].todo[0].id == id
    ensures Sees(Next(s, Tally(g)), id)
  {
    var u := Next(s, Tally(g));
    TallyHead(s, g);
    OthersWait(s, u, g, FromKeys, id);
    TallySelf(D, s, g, id);
    forall h | h != g ensures !DueOn(s, h, id) && !DueOn(u, h, id) {
      if DueOn(s, h, id) { NeverCross(D, s, id, g, h); }
    }
    assert !DueOn(s, g, id);
    assert Passes(s.n, s.busy[g].todo[0]) ==> DueOn(u, g, id);
  }

  lemma TallySees(D: set<Deliverer>, s: State, g: Goroutine, id: Action)
    requires Inv(D, s, id) && Sees(s, id) && Hold(id) && CannotCross(D) && CanStep(s, Tally(g))
    ensures Sees(Next(s, Tally(g)), id)
  {
    if s.busy[g].todo[0].id == id {
      TallySeesSelf(D, s, g, id);
    } else {
      var u := Next(s, Tally(g));
      TallyHead(s, g);
      OthersWait(s, u, g, FromKeys, id);
      CountedElsewhere(s, g, id);
      forall h ensures DueOn(u, h, id) <==> DueOn(s, h, id) {
        if h == g { EdgeOfRest(s.busy[g].todo, id); }
      }
    }
  }

  /** Emitting the action's own edge, with no other delivery of it under way. */
  lemma EmitSeesSelf(D: set<Deliverer>, s: State, g: Goroutine, id: Action)
    requires Inv(D, s, id) && Sees(s, id) && CannotCross(D) && CanStep(s, Emit(g)) && s.busy[g].todo[0].id == id
    ensures Sees(Next(s, Emit(g)), id)
  {
    var u, e := Next(s, Emit(g)), s.busy[g].todo[0];
    AfterSnoc({}, s.log, e);
    PassedRest(s.(log := s.log + [e]), g, id);
    OthersWait(s, u, g, FromKeys, id);
    assert DueOn(s, g, id);
    forall h ensures !DueOn(u, h, id) {
      if h != g && DueOn(s, h, id) { NeverCross(D, s, id, g, h); }
    }
  }

  lemma EmitSees(D: set<Deliverer>, s: State, g: Goroutine, id: Action)
    requires Inv(D, s, id) && Sees(s, id) && Hold(id) && CannotCross(D) && CanStep(s, Emit(g))
    ensures Sees(Next(s, Emit(g)), id)
  {
    var u, e := Next(s, Emit(g)), s.busy[g].todo[0];
    if e.id == id {
      EmitSeesSelf(D, s, g, id);
    } else {
      AfterSnoc({}, s.log, e);
      PassedRest(s.(log := s.log + [e]), g, id);
      OthersWait(s, u, g, FromKeys, id);
      forall h ensures DueOn(u, h, id) <==> DueOn(s, h, id) {}
    }
  }

  /** A commit, a hold question or a table swap. */
  lemma NeitherCountsNorEmits(s: State, t: Step, id: Action)
    requires CanStep(s, t) && !t.Tally? && !t.Emit?
    ensures var u := Next(s, t); SameBut(s, u, t.g) && u.n == s.n && u.log == s.log
    ensures !DueOn(s, t.g, id) && !DueOn(Next(s, t), t.g, id)
  {
  }

  lemma StepSees(D: set<Deliverer>, s: State, t: Step, id: Action)
    requires Inv(D, s, id) && Sees(s, id) && Hold(id) && CannotCross(D) && CanStep(s, t)
    ensures Sees(Next(s, t), id)
  {
    if t.Tally? {
      TallySees(D, s, t.g, id);
    } else if t.Emit? {
      EmitSees(D, s, t.g, id);
    } else {
      NeitherCountsNorEmits(s, t, id);
      SeesStill(s, Next(s, t), t.g, id);
    }
  }

  lemma {:induction false} RunSees(D: set<Deliverer>, R: set<Goroutine>, id: Action,
                                   ts: seq<Step>, states: seq<State>, i: nat)
    requires Run(D, R, id, ts, states) && i <= |ts| && Hold(id) && CannotCross(D) && DropsOwn(D, R)
    ensures Inv(D, states[i], id) && Sees(states[i], id)
  {
    if i > 0 {
      RunSees(D, R, id, ts, states, i - 1);
      StepKeepsInv(D, R, states[i - 1], ts[i - 1], id);
      StepSees(D, states[i - 1], ts[i - 1], id);
    }
  }

  // ---- runs that cross --------------------------------------------------------------------------

  lemma RunSnoc(D: set<Deliverer>, R: set<Goroutine>, id: Action, ts: seq<Step>, states: seq<State>, t: Step, u: State)
      returns (ts2: seq<Step>, states2: seq<State>)
    requires Run(D, R, id, ts, states)
    requires CanStep(states[|ts|], t) && StepBy(D, R, id, states[|ts|], t) && Next(states[|ts|], t) == u
    ensures Run(D, R, id, ts2, states2) && states2[|ts2|] == u
  {
    ts2, states2 := ts + [t], states + [u];
    assert states2[0] == states[0];
  }

  /** The state once a lone edge is counted: its emission is due, or there is none. */
  ghost function Tallied(s: State, g: Goroutine, src: Source, e: Edge): State {
    var t := Told(s.(n := Counted(s.n, e)), src, e);
    if Passes(s.n, e) then t.(busy := s.busy[g := Work(src, [e], Due)]) else t.(busy := s.busy - {g})
  }

  lemma AskThenTally(D: set<Deliverer>, R: set<Goroutine>, id: Action, ts: seq<Step>, states: seq<State>,
                     g: Goroutine, src: Source, e: Edge)
      returns (ts2: seq<Step>, states2: seq<State>)
    requires Run(D, R, id, ts, states)
    requires var s := states[|ts|]; g in s.busy && s.busy[g] == Work(src, [e], Queued) && e.id in s.holds
    ensures Run(D, R, id, ts2, states2) && states2[|ts2|] == Tallied(states[|ts|], g, src, e)
  {
    var s := states[|ts|];
    var asked := s.(busy := s.busy[g := Work(src, [e], Asked(true))]);
    var ts1, states1 := RunSnoc(D, R, id, ts, states, Ask(g), asked);
    assert asked.busy[g := Work(src, [e], Due)] == s.busy[g := Work(src, [e], Due)];
    assert asked.busy - {g} == s.busy - {g};
    ts2, states2 := RunSnoc(D, R, id, ts1, states1, Tally(g), Tallied(s, g, src, e));
  }

  lemma ThenEmit(D: set<Deliverer>, R: set<Goroutine>, id: Action, ts: seq<Step>, states: seq<State>,
                 g: Goroutine, src: Source, e: Edge)
      returns (ts2: seq<Step>, states2: seq<State>)
    requires Run(D, R, id, ts, states)
    requires var s := states[|ts|]; g in s.busy && s.busy[g] == Work(src, [e], Due)
    ensures Run(D, R, id, ts2, states2)
    ensures var s := states[|ts|]; states2[|ts2|] == s.(log := s.log + [e], busy := s.busy - {g})
  {
    var s := states[|ts|];
    ts2, states2 := RunSnoc(D, R, id, ts, states, Emit(g), s.(log := s.log + [e], busy := s.busy - {g}));
  }

  const B := Dispatch.Bound(1, 0, true)

  ghost function Bare(gen: nat): Dispatch.State { Dispatch.State(map[], map[], gen) }
  ghost function BoundAt(id: Action, gen: nat): Dispatch.State { Dispatch.State(map[id := B], map[], gen) }
  ghost function LatchedAt(id: Action, gen: nat): Dispatch.State {
    Dispatch.State(map[id := B], map[id := gen], gen)
  }

  lemma KeyAdded(id: Action, gen: nat)
    ensures Dispatch.Next(Bare(gen), Dispatch.Add(id, B)).0 == BoundAt(id, gen)
    ensures Owes(Bare(gen), Dispatch.Add(id, B)) == []
  {
    assert Dispatch.Take(Bare(gen), id).latched == map[];
  }

  lemma KeyWentDown(id: Action, gen: nat)
    ensures var d, e := BoundAt(id, gen), Dispatch.KeyDown(1, 0, [id]);
      && Dispatch.Enabled(d, e) && Dispatch.Next(d, e).0 == LatchedAt(id, gen + 1) && Owes(d, e) == [Pressed(id)]
  {
    var d := BoundAt(id, gen);
    var none: seq<Dispatch.Commit> := [];
    assert Dispatch.DownSet(d, 1, 0) == {id};
    assert [id][..0] == [] && Dispatch.LatchAll(d, []) == (d, none);
    assert none + [Dispatch.Press(id, gen + 1, true)] == [Dispatch.Press(id, gen + 1, true)];
    assert Dispatch.LatchAll(d, [id]) == (LatchedAt(id, gen + 1), [Dispatch.Press(id, gen + 1, true)]);
  }

  lemma LatchTaken(id: Action, gen: nat)
    ensures Dispatch.TakeAll(LatchedAt(id, gen), [id]) == (BoundAt(id, gen), [Dispatch.Release(id, gen)])
  {
    var d := LatchedAt(id, gen);
    var none: seq<Dispatch.Commit> := [];
    assert [id][..0] == [] && Dispatch.TakeAll(d, []) == (d, none);
    assert none + [Dispatch.Release(id, gen)] == [Dispatch.Release(id, gen)];
    assert Dispatch.Take(d, id).latched == map[];
  }

  lemma KeyCleared(id: Action, gen: nat)
    ensures var d, e := LatchedAt(id, gen), Dispatch.Clear([id]);
      && Dispatch.Enabled(d, e) && Dispatch.Next(d, e).0 == Bare(gen) && Owes(d, e) == [Released(id)]
  {
    LatchTaken(id, gen);
  }

  lemma KeyWentUp(id: Action, gen: nat)
    ensures var d, e := LatchedAt(id, gen), Dispatch.KeyUp(1, [id]);
      && Dispatch.Enabled(d, e) && Dispatch.Next(d, e).0 == BoundAt(id, gen) && Owes(d, e) == [Released(id)]
  {
    LatchTaken(id, gen);
    assert Dispatch.UpSet(LatchedAt(id, gen), 1) == {id};
  }

  /** A clear that finds nothing latched delivers nothing. */
  lemma NothingToClear(id: Action, gen: nat)
    ensures var d, e := BoundAt(id, gen), Dispatch.Clear([]);
      && Dispatch.Enabled(d, e) && Dispatch.Next(d, e).0 == Bare(gen) && Owes(d, e) == []
  {
  }

  lemma OneEdge(e: Edge)
    ensures Once([e]) && EdgeOf([e], e.id) == Some(e)
    ensures forall start :: Fits(start, e) ==> Legal(start, [e]) && After(start, [e]) == Edges.Step(start, e)
  {
    assert [e][..0] == [];
  }

  /** A keyboard goroutine commits a press of `id` and has yet to deliver it. */
  lemma PressCommitted(D: set<Deliverer>, R: set<Goroutine>, id: Action, ts: seq<Step>, states: seq<State>,
                       g: Goroutine)
      returns (ts2: seq<Step>, states2: seq<State>)
    requires Run(D, R, id, ts, states) && Deliverer(g, FromKeys) in D && Hold(id)
    requires var s := states[|ts|]; s.d == Bare(s.d.gen) && g !in s.busy && id in s.holds
    ensures Run(D, R, id, ts2, states2)
    ensures var s := states[|ts|];
      states2[|ts2|] == s.(d := LatchedAt(id, s.d.gen + 1), busy := s.busy[g := Work(FromKeys, [Pressed(id)], Queued)])
  {
    var s := states[|ts|];
    var gen := s.d.gen;
    KeyAdded(id, gen);
    KeyWentDown(id, gen);
    OneEdge(Pressed(id));
    var ts1, states1 := RunSnoc(D, R, id, ts, states, KeyCommit(g, Dispatch.Add(id, B)), s.(d := BoundAt(id, gen)));
    var owing := s.busy[g := Work(FromKeys, [Pressed(id)], Queued)];
    ts2, states2 := RunSnoc(D, R, id, ts1, states1, KeyCommit(g, Dispatch.KeyDown(1, 0, [id])),
                            s.(d := LatchedAt(id, gen + 1), busy := owing));
  }

  /** The key comes up: a release is committed and has yet to be delivered. */
  lemma ReleaseCommitted(D: set<Deliverer>, R: set<Goroutine>, id: Action, ts: seq<Step>, states: seq<State>,
                         g: Goroutine, gen: nat)
      returns (ts2: seq<Step>, states2: seq<State>)
    requires Run(D, R, id, ts, states) && Deliverer(g, FromKeys) in D && Hold(id)
    requires var s := states[|ts|]; s.d == LatchedAt(id, gen) && g !in s.busy
    ensures Run(D, R, id, ts2, states2)
    ensures var s := states[|ts|];
      states2[|ts2|] == s.(d := BoundAt(id, gen), busy := s.busy[g := Work(FromKeys, [Released(id)], Queued)])
  {
    var s := states[|ts|];
    KeyWentUp(id, gen);
    OneEdge(Released(id));
    ts2, states2 := RunSnoc(D, R, id, ts, states, KeyCommit(g, Dispatch.KeyUp(1, [id])),
                            s.(d := BoundAt(id, gen), busy := s.busy[g := Work(FromKeys, [Released(id)], Queued)]));
  }

  /** Another one clears the keyboard, as a rebind or a suspend does. */
  lemma ClearCommitted(D: set<Deliverer>, R: set<Goroutine>, id: Action, ts: seq<Step>, states: seq<State>,
                       g: Goroutine, gen: nat)
      returns (ts2: seq<Step>, states2: seq<State>)
    requires Run(D, R, id, ts, states) && Deliverer(g, FromKeys) in D && Hold(id)
    requires var s := states[|ts|]; s.d == LatchedAt(id, gen) && g !in s.busy
    ensures Run(D, R, id, ts2, states2)
    ensures var s := states[|ts|];
      states2[|ts2|] == s.(d := Bare(gen), busy := s.busy[g := Work(FromKeys, [Released(id)], Queued)])
  {
    var s := states[|ts|];
    KeyCleared(id, gen);
    OneEdge(Released(id));
    ts2, states2 := RunSnoc(D, R, id, ts, states, KeyCommit(g, Dispatch.Clear([id])),
                            s.(d := Bare(gen), busy := s.busy[g := Work(FromKeys, [Released(id)], Queued)]));
  }

  /** A rebind finds nothing latched, delivers nothing and drops the action from the table. */
  lemma ActionDropped(D: set<Deliverer>, R: set<Goroutine>, id: Action, ts: seq<Step>, states: seq<State>,
                      g: Goroutine, gen: nat)
      returns (ts2: seq<Step>, states2: seq<State>)
    requires Run(D, R, id, ts, states) && g in R && Hold(id)
    requires var s := states[|ts|]; s.d == BoundAt(id, gen) && g !in s.busy && s.sticks == {}
    requires forall h <- states[|ts|].busy :: states[|ts|].busy[h].src.FromKeys?
    ensures Run(D, R, id, ts2, states2)
    ensures states2[|ts2|] == states[|ts|].(d := Bare(gen), holds := {})
  {
    var s := states[|ts|];
    NothingToClear(id, gen);
    var ts1, states1 := RunSnoc(D, R, id, ts, states, KeyCommit(g, Dispatch.Clear([])), s.(d := Bare(gen)));
    ts2, states2 := RunSnoc(D, R, id, ts1, states1, Retable(g, {}), s.(d := Bare(gen), holds := {}));
  }

  /** An edge of an action the table no longer holds is passed by uncounted. */
  lemma PassedUncounted(D: set<Deliverer>, R: set<Goroutine>, id: Action, ts: seq<Step>, states: seq<State>,
                        g: Goroutine, src: Source, e: Edge)
      returns (ts2: seq<Step>, states2: seq<State>)
    requires Run(D, R, id, ts, states)
    requires var s := states[|ts|]; g in s.busy && s.busy[g] == Work(src, [e], Queued) && e.id !in s.holds
    ensures Run(D, R, id, ts2, states2)
    ensures var s := states[|ts|]; states2[|ts2|] == s.(log := s.log + [e], busy := s.busy - {g})
  {
    var s := states[|ts|];
    var asked, due := s.busy[g := Work(src, [e], Asked(false))], s.busy[g := Work(src, [e], Due)];
    assert asked[g := Work(src, [e], Due)] == due && due - {g} == s.busy - {g};
    var ts1, states1 := RunSnoc(D, R, id, ts, states, Ask(g), s.(busy := asked));
    ts1, states1 := RunSnoc(D, R, id, ts1, states1, Tally(g), s.(busy := due));
    ts2, states2 := ThenEmit(D, R, id, ts1, states1, g, src, e);
  }

  /** A joystick delivery begins. */
  lemma StickCommitted(D: set<Deliverer>, R: set<Goroutine>, id: Action, ts: seq<Step>, states: seq<State>,
                       g: Goroutine, e: Edge)
      returns (ts2: seq<Step>, states2: seq<State>)
    requires Run(D, R, id, ts, states) && Deliverer(g, FromSticks) in D && e.id == id
    requires var s := states[|ts|]; s.busy == map[] && Fits(s.sticks, e) && id in s.holds
    ensures Run(D, R, id, ts2, states2)
    ensures var s := states[|ts|];
      states2[|ts2|] == s.(sticks := Edges.Step(s.sticks, e), busy := map[g := Work(FromSticks, [e], Queued)])
  {
    var s := states[|ts|];
    OneEdge(e);
    ts2, states2 := RunSnoc(D, R, id, ts, states, StickCommit(g, [e]),
                            s.(sticks := Edges.Step(s.sticks, e), busy := map[g := Work(FromSticks, [e], Queued)]));
  }

  lemma AtStart(D: set<Deliverer>, R: set<Goroutine>, id: Action) returns (ts: seq<Step>, states: seq<State>)
    requires Hold(id)
    ensures Run(D, R, id, ts, states) && states[|ts|] == Start({id})
  {
    ts, states := [], [Start({id})];
  }

  /** A release that is counted before its press is ignored. */
  lemma ReleaseIgnored(D: set<Deliverer>, R: set<Goroutine>, id: Action, p: Goroutine, q: Goroutine)
      returns (ts: seq<Step>, states: seq<State>)
    requires Hold(id) && p != q && Deliverer(p, FromKeys) in D && Deliverer(q, FromKeys) in D
    ensures Run(D, R, id, ts, states)
    ensures states[|ts|] == State(Bare(1), {}, {id}, map[], [], map[p := Work(FromKeys, [Pressed(id)], Queued)], {}, {})
  {
    var wp, wq := Work(FromKeys, [Pressed(id)], Queued), Work(FromKeys, [Released(id)], Queued);
    ts, states := AtStart(D, R, id);
    ts, states := PressCommitted(D, R, id, ts, states, p);
    ts, states := ClearCommitted(D, R, id, ts, states, q, 1);
    assert states[|ts|] == State(Bare(1), {}, {id}, map[], [], map[p := wp, q := wq], {}, {});
    ts, states := AskThenTally(D, R, id, ts, states, q, FromKeys, Released(id));
  }

  /** The keyboard alone, two goroutines: a press is committed, a clear commits and delivers its
      release before the press is counted. Nothing is held, the count stays at one and the
      action stays down. */
  lemma CountLeaks(D: set<Deliverer>, R: set<Goroutine>, id: Action, p: Goroutine, q: Goroutine)
      returns (ts: seq<Step>, states: seq<State>)
    requires Hold(id) && p != q && Deliverer(p, FromKeys) in D && Deliverer(q, FromKeys) in D
    ensures Run(D, R, id, ts, states)
    ensures states[|ts|] == State(Bare(1), {}, {id}, map[id := 1], [Pressed(id)], map[], {id}, {})
  {
    var wp := Work(FromKeys, [Pressed(id)], Queued);
    ts, states := ReleaseIgnored(D, R, id, p, q);
    ts, states := AskThenTally(D, R, id, ts, states, p, FromKeys, Pressed(id));
    assert states[|ts|] == State(Bare(1), {}, {id}, map[id := 1], [], map[p := wp.(phase := Due)], {id}, {});
    ts, states := ThenEmit(D, R, id, ts, states, p, FromKeys, Pressed(id));
    assert [] + [Pressed(id)] == [Pressed(id)];
  }

  /** One delivering goroutine: a release is committed and not yet asked about when a rebind
      finds nothing latched and drops the action. The release passes uncounted; nothing is held
      and the count stays at one. */
  lemma DropLeaks(D: set<Deliverer>, R: set<Goroutine>, id: Action, p: Goroutine, r: Goroutine)
      returns (ts: seq<Step>, states: seq<State>)
    requires Hold(id) && p != r && Deliverer(p, FromKeys) in D && r in R
    ensures Run(D, R, id, ts, states)
    ensures states[|ts|] == State(Bare(1), {}, {}, map[id := 1], [Pressed(id), Released(id)], map[], {id}, {})
  {
    var wp, wr := Work(FromKeys, [Pressed(id)], Due), Work(FromKeys, [Released(id)], Queued);
    ts, states := AtStart(D, R, id);
    ts, states := PressCommitted(D, R, id, ts, states, p);
    ts, states := AskThenTally(D, R, id, ts, states, p, FromKeys, Pressed(id));
    assert states[|ts|] == State(LatchedAt(id, 1), {}, {id}, map[id := 1], [], map[p := wp], {id}, {});
    ts, states := ThenEmit(D, R, id, ts, states, p, FromKeys, Pressed(id));
    assert [] + [Pressed(id)] == [Pressed(id)];
    ts, states := ReleaseCommitted(D, R, id, ts, states, p, 1);
    assert states[|ts|] == State(BoundAt(id, 1), {}, {id}, map[id := 1], [Pressed(id)], map[p := wr], {id}, {});
    ts, states := ActionDropped(D, R, id, ts, states, r, 1);
    ts, states := PassedUncounted(D, R, id, ts, states, p, FromKeys, Released(id));
    assert [Pressed(id)] + [Released(id)] == [Pressed(id), Released(id)];
  }

  /** The same run goes on: the action returns to the table, and its next press is swallowed.
      The key is held and the application does not see it. */
  lemma PressSwallowed(D: set<Deliverer>, R: set<Goroutine>, id: Action, p: Goroutine, r: Goroutine)
      returns (ts: seq<Step>, states: seq<State>)
    requires Hold(id) && p != r && Deliverer(p, FromKeys) in D && r in R
    ensures Run(D, R, id, ts, states)
    ensures states[|ts|] == State(LatchedAt(id, 2), {}, {id}, map[id := 2], [Pressed(id), Released(id)],
                                  map[], {id}, {})
  {
    ts, states := DropLeaks(D, R, id, p, r);
    ts, states := RunSnoc(D, R, id, ts, states, Retable(r, {id}), states[|ts|].(holds := {id}));
    ts, states := PressCommitted(D, R, id, ts, states, p);
    ts, states := AskThenTally(D, R, id, ts, states, p, FromKeys, Pressed(id));
  }

  /** Press and release are counted in order, and both emissions are due. */
  lemma BothDue(D: set<Deliverer>, R: set<Goroutine>, id: Action, p: Goroutine, q: Goroutine)
      returns (ts: seq<Step>, states: seq<State>)
    requires Hold(id) && p != q && Deliverer(p, FromKeys) in D && Deliverer(q, FromKeys) in D
    ensures Run(D, R, id, ts, states)
    ensures states[|ts|] == State(Bare(1), {}, {id}, map[], [],
              map[p := Work(FromKeys, [Pressed(id)], Due), q := Work(FromKeys, [Released(id)], Due)], {}, {})
  {
    var wp := Work(FromKeys, [Pressed(id)], Due);
    ts, states := AtStart(D, R, id);
    ts, states := PressCommitted(D, R, id, ts, states, p);
    ts, states := AskThenTally(D, R, id, ts, states, p, FromKeys, Pressed(id));
    assert states[|ts|] == State(LatchedAt(id, 1), {}, {id}, map[id := 1], [], map[p := wp], {id}, {});
    ts, states := ClearCommitted(D, R, id, ts, states, q, 1);
    ts, states := AskThenTally(D, R, id, ts, states, q, FromKeys, Released(id));
  }

  /** The keyboard alone again: the press is counted, the clear counts and emits its release,
      then the press is emitted. The count is right and the microphone is open. */
  lemma OpenMicrophone(D: set<Deliverer>, R: set<Goroutine>, id: Action, p: Goroutine, q: Goroutine)
      returns (ts: seq<Step>, states: seq<State>)
    requires Hold(id) && p != q && Deliverer(p, FromKeys) in D && Deliverer(q, FromKeys) in D
    ensures Run(D, R, id, ts, states)
    ensures states[|ts|] == State(Bare(1), {}, {id}, map[], [Released(id), Pressed(id)], map[], {}, {})
  {
    var wp, wq := Work(FromKeys, [Pressed(id)], Due), Work(FromKeys, [Released(id)], Due);
    ts, states := BothDue(D, R, id, p, q);
    ts, states := ThenEmit(D, R, id, ts, states, q, FromKeys, Released(id));
    assert states[|ts|] == State(Bare(1), {}, {id}, map[], [Released(id)], map[p := wp], {}, {});
    ts, states := ThenEmit(D, R, id, ts, states, p, FromKeys, Pressed(id));
    assert [Released(id)] + [Pressed(id)] == [Released(id), Pressed(id)];
  }

  /** The joystick's release is counted, and its emission is overtaken by a keyboard press. */
  lemma ReleaseDue(D: set<Deliverer>, R: set<Goroutine>, id: Action, p: Goroutine)
      returns (ts: seq<Step>, states: seq<State>)
    requires Hold(id) && Deliverer(p, FromSticks) in D
    ensures Run(D, R, id, ts, states)
    ensures states[|ts|] == State(Dispatch.EMPTY, {}, {id}, map[], [Pressed(id)],
                                  map[p := Work(FromSticks, [Released(id)], Due)], {}, {})
  {
    ts, states := AtStart(D, R, id);
    ts, states := StickCommitted(D, R, id, ts, states, p, Pressed(id));
    ts, states := AskThenTally(D, R, id, ts, states, p, FromSticks, Pressed(id));
    assert states[|ts|] == State(Dispatch.EMPTY, {id}, {id}, map[id := 1], [],
                                 map[p := Work(FromSticks, [Pressed(id)], Due)], {}, {id});
    ts, states := ThenEmit(D, R, id, ts, states, p, FromSticks, Pressed(id));
    assert [] + [Pressed(id)] == [Pressed(id)];
    assert states[|ts|] == State(Dispatch.EMPTY, {id}, {id}, map[id := 1], [Pressed(id)], map[], {}, {id});
    ts, states := StickCommitted(D, R, id, ts, states, p, Released(id));
    ts, states := AskThenTally(D, R, id, ts, states, p, FromSticks, Released(id));
  }

  /** The press is counted in the meantime, and its emission is due as well. */
  lemma PressOvertakes(D: set<Deliverer>, R: set<Goroutine>, id: Action, p: Goroutine, q: Goroutine)
      returns (ts: seq<Step>, states: seq<State>)
    requires Hold(id) && p != q && Deliverer(p, FromSticks) in D && Deliverer(q, FromKeys) in D
    ensures Run(D, R, id, ts, states)
    ensures states[|ts|] == State(LatchedAt(id, 1), {}, {id}, map[id := 1], [Pressed(id)],
              map[p := Work(FromSticks, [Released(id)], Due), q := Work(FromKeys, [Pressed(id)], Due)], {id}, {})
  {
    ts, states := ReleaseDue(D, R, id, p);
    ts, states := PressCommitted(D, R, id, ts, states, q);
    ts, states := AskThenTally(D, R, id, ts, states, q, FromKeys, Pressed(id));
  }

  lemma SourcesCross(D: set<Deliverer>, R: set<Goroutine>, id: Action, p: Goroutine, q: Goroutine)
      returns (ts: seq<Step>, states: seq<State>)
    requires Hold(id) && p != q && Deliverer(p, FromSticks) in D && Deliverer(q, FromKeys) in D
    ensures Run(D, R, id, ts, states)
    ensures states[|ts|] == State(LatchedAt(id, 1), {}, {id}, map[id := 1], [Pressed(id), Pressed(id), Released(id)],
                                  map[], {id}, {})
  {
    var wp := Work(FromSticks, [Released(id)], Due);
    ts, states := PressOvertakes(D, R, id, p, q);
    ts, states := ThenEmit(D, R, id, ts, states, q, FromKeys, Pressed(id));
    assert [Pressed(id)] + [Pressed(id)] == [Pressed(id), Pressed(id)];
    assert states[|ts|].busy == map[p := wp];
    ts, states := ThenEmit(D, R, id, ts, states, p, FromSticks, Released(id));
    assert [Pressed(id), Pressed(id)] + [Released(id)] == [Pressed(id), Pressed(id), Released(id)];
  }

  // ---- exactly when -----------------------------------------------------------------------------

  lemma TwoKeyGoroutinesLeak(D: set<Deliverer>, R: set<Goroutine>, id: Action, p: Goroutine, q: Goroutine)
    requires Hold(id) && p != q && Deliverer(p, FromKeys) in D && Deliverer(q, FromKeys) in D
    ensures !CountsFollow(D, R, id) && !ViewFollows(D, R, id)
  {
    var ts, states := CountLeaks(D, R, id, p, q);
    var s := states[|ts|];
    assert PttChain.KeyboardHeld(s.d) == {} && Still(s, id);
    OneEdge(Pressed(id));
    assert !CountOk(s, id) && !ViewOk(s, id);
  }

  lemma TwoSourcesBlind(D: set<Deliverer>, R: set<Goroutine>, id: Action, p: Goroutine, q: Goroutine)
    requires Hold(id) && p != q && Deliverer(p, FromSticks) in D && Deliverer(q, FromKeys) in D
    ensures !ViewFollows(D, R, id)
  {
    var ts, states := SourcesCross(D, R, id, p, q);
    var s := states[|ts|];
    assert id in PttChain.KeyboardHeld(s.d) && Still(s, id);
    AfterSnoc({}, [Pressed(id), Pressed(id)], Released(id));
    assert [Pressed(id), Pressed(id)] + [Released(id)] == s.log;
    assert !ViewOk(s, id);
  }

  lemma DropperBreaks(D: set<Deliverer>, R: set<Goroutine>, id: Action, p: Goroutine, r: Goroutine)
    requires Hold(id) && p != r && Deliverer(p, FromKeys) in D && r in R
    ensures !CountsFollow(D, R, id) && !ViewFollows(D, R, id)
  {
    var ts, states := DropLeaks(D, R, id, p, r);
    var s := states[|ts|];
    assert PttChain.KeyboardHeld(s.d) == {} && Still(s, id);
    assert !CountOk(s, id);
    ts, states := PressSwallowed(D, R, id, p, r);
    s := states[|ts|];
    assert id in PttChain.KeyboardHeld(s.d) && Still(s, id);
    AfterSnoc({}, [Pressed(id)], Released(id));
    assert [Pressed(id)] + [Released(id)] == s.log;
    assert !ViewOk(s, id);
  }

  /** Exactly when a hold action's count is the number of sources holding it, whenever no
      delivery of it is under way: at most one goroutine delivers its keyboard edges, and no
      other one may drop the action from the hold table. With joystick deliveries alone,
      anyone may. */
  lemma CountsFollowIff(D: set<Deliverer>, R: set<Goroutine>, id: Action)
    requires Hold(id)
    ensures CountsFollow(D, R, id) <==> OneKeyGoroutine(D) && DropsOwn(D, R)
  {
    if OneKeyGoroutine(D) && DropsOwn(D, R) {
      forall ts, states, i | Run(D, R, id, ts, states) && 0 <= i <= |ts| ensures CountOk(states[i], id) {
        RunKeepsInv(D, R, id, ts, states, i);
        if Still(states[i], id) { StillMeansTold(D, states[i], id); }
      }
    } else if OneKeyGoroutine(D) {
      var a, r :| a in D && r in R && a.src.FromKeys? && a.g != r;
      assert a == Deliverer(a.g, FromKeys);
      DropperBreaks(D, R, id, a.g, r);
    } else {
      var a, b :| a in D && b in D && a.src.FromKeys? && b.src.FromKeys? && a.g != b.g;
      assert a == Deliverer(a.g, FromKeys) && b == Deliverer(b.g, FromKeys);
      TwoKeyGoroutinesLeak(D, R, id, a.g, b.g);
    }
  }

  lemma ViewIsHolders(D: set<Deliverer>, s: State, id: Action)
    requires Inv(D, s, id) && Sees(s, id)
    ensures ViewOk(s, id)
  {
    if Still(s, id) {
      StillMeansTold(D, s, id);
      forall g ensures !DueOn(s, g, id) { if DueOn(s, g, id) { DueConcerns(s, g, id); } }
    }
  }

  /** Exactly when the application sees a hold action down while, and only while, a source
      holds it: its deliveries cannot cross, because they are all joystick deliveries or all
      of one goroutine, and nobody but its keyboard deliverer may drop it from the hold table. */
  lemma ViewFollowsIff(D: set<Deliverer>, R: set<Goroutine>, id: Action)
    requires Hold(id)
    ensures ViewFollows(D, R, id) <==> CannotCross(D) && DropsOwn(D, R)
  {
    if CannotCross(D) && DropsOwn(D, R) {
      forall ts, states, i | Run(D, R, id, ts, states) && 0 <= i <= |ts| ensures ViewOk(states[i], id) {
        RunSees(D, R, id, ts, states, i);
        ViewIsHolders(D, states[i], id);
      }
    } else if CannotCross(D) {
      var a, r :| a in D && r in R && a.src.FromKeys? && a.g != r;
      assert a == Deliverer(a.g, FromKeys);
      DropperBreaks(D, R, id, a.g, r);
    } else {
      var k :| k in D && !k.src.FromSticks?;
      var a, b :| a in D && b in D && a.g != b.g;
      var x := if a.g != k.g then a else b;
      assert k == Deliverer(k.g, FromKeys) && x == Deliverer(x.g, x.src);
      if x.src.FromKeys? { TwoKeyGoroutinesLeak(D, R, id, k.g, x.g); } else { TwoSourcesBlind(D, R, id, x.g, k.g); }
    }
  }
}
