/** The transmit set, the voice session it feeds and the log of own transmissions. Presses
    and releases change the set under one lock, a timer clears an idle session later, and
    sessions are swapped in and out meanwhile. */
module VoiceTx {
  import opened Wrappers

  datatype Target = Target(freq: nat, intercom: bool)

  /** The held actions, each with the target it resolved to when pressed, if any. */
  type Held = map<string, Option<Target>>

  /** A session and the frequency list it transmits on. `transmissions` counts the starts. */
  datatype Session = Session(id: nat, targets: seq<Target>, transmissions: nat)

  datatype Row = Row(freq: nat, start: nat, end: nat)

  datatype Core = Core(tx: Held, sess: Option<Session>, gen: nat, started: map<nat, nat>, rows: seq<Row>,
                       timer: Option<nat>)

  function Freqs(ts: seq<Target>): set<nat> { set t <- ts :: t.freq }

  /** Exactly one target per frequency the held actions resolve to, taken from one of them. */
  ghost predicate Rendered(tx: Held, ts: seq<Target>) {
    && (forall i, j :: 0 <= i < j < |ts| ==> ts[i].freq != ts[j].freq)
    && (forall t <- ts :: exists a <- tx :: tx[a] == Some(t))
    && (forall a <- tx :: tx[a].Some? ==> tx[a].value.freq in Freqs(ts))
  }

  function StartedAfter(started: map<nat, nat>, next: set<nat>, now: nat): map<nat, nat> {
    map f <- next :: if f in started then started[f] else now
  }

  /** `e` closes each interval of a frequency that is not in `next`, in some order. */
  ghost predicate Closes(started: map<nat, nat>, next: set<nat>, now: nat, e: seq<Row>) {
    && (forall i, j :: 0 <= i < j < |e| ==> e[i].freq != e[j].freq)
    && (forall r <- e :: r.freq in started && r.freq !in next && r == Row(r.freq, started[r.freq], now))
    && (forall f <- started :: f !in next ==> Row(f, started[f], now) in e)
  }

  // ---- the effect of each operation -----------------------------------------------------------

  function Install(c: Core, ts: seq<Target>, e: seq<Row>, now: nat): Core {
    c.(sess := if c.sess.Some? then Some(c.sess.value.(targets := ts)) else None,
       started := StartedAfter(c.started, Freqs(ts), now), rows := c.rows + e)
  }

  function Begun(c: Core): Core {
    if c.sess.Some? && c.tx == map[] then
      c.(sess := Some(c.sess.value.(transmissions := c.sess.value.transmissions + 1)))
    else c
  }

  function Pressed(c: Core, a: string, target: Option<Target>, ts: seq<Target>, e: seq<Row>, now: nat): Core {
    var d := Begun(c).(tx := c.tx[a := target], timer := None);
    if c.sess.Some? then Install(d, ts, e, now) else d
  }

  function Released(c: Core, a: string, ts: seq<Target>, e: seq<Row>, now: nat): Core {
    var d := c.(tx := c.tx - {a});
    if d.tx != map[] && c.sess.Some? then Install(d, ts, e, now) else d
  }

  function Cleared(c: Core, e: seq<Row>, now: nat): Core {
    var d := c.(timer := None);
    if c.tx == map[] && c.sess.Some? then Install(d, [], e, now) else d
  }

  function TornDown(c: Core, e: seq<Row>, now: nat): Core {
    Install(c.(gen := c.gen + 1, sess := None), [], e, now)
  }

  // ---- the lock-holding methods -----------------------------------------------------------------

  /** What just started is not closed. */
  lemma ClosesOld(started: map<nat, nat>, live: map<nat, nat>, next: set<nat>, now: nat, e: seq<Row>)
    requires live.Keys == started.Keys + next
    requires forall f <- live :: live[f] == if f in started then started[f] else now
    requires Closes(live, next, now, e)
    ensures Closes(started, next, now, e)
  {
  }

  class Voice {
    var tx: Held
    var sess: Option<Session>
    var gen: nat
    var started: map<nat, nat>
    var rows: seq<Row>
    var timer: Option<nat>

    ghost function View(): Core
      reads this
    {
      Core(tx, sess, gen, started, rows, timer)
    }

    constructor ()
      ensures View() == Core(map[], None, 0, map[], [], None)
    {
      tx, sess, gen, started, rows, timer := map[], None, 0, map[], [], None;
    }

    /** The held targets as a list, one per frequency. */
    method TargetsLocked() returns (ts: seq<Target>)
      ensures Rendered(tx, ts)
    {
      var dedup: map<nat, Target> := map[];
      var todo := tx.Keys;
      while todo != {}
        invariant todo <= tx.Keys
        invariant forall f <- dedup :: dedup[f].freq == f && exists a <- tx :: tx[a] == Some(dedup[f])
        invariant forall a <- tx :: a !in todo && tx[a].Some? ==> tx[a].value.freq in dedup
        decreases todo
      {
        var a :| a in todo;
        todo := todo - {a};
        if tx[a].Some? {
          dedup := dedup[tx[a].value.freq := tx[a].value];
        }
      }
      ts := [];
      var left := dedup.Keys;
      while left != {}
        invariant left <= dedup.Keys
        invariant forall i, j :: 0 <= i < j < |ts| ==> ts[i].freq != ts[j].freq
        invariant forall t <- ts :: t.freq in dedup && t.freq !in left && dedup[t.freq] == t
        invariant forall f <- dedup :: f in left || f in Freqs(ts)
        decreases left
      {
        var f :| f in left;
        left := left - {f};
        ghost var was := ts;
        ts := ts + [dedup[f]];
        assert Freqs(ts) == Freqs(was) + {f};
      }
    }

    /** Frequencies new to the set start now. */
    method StartNew(next: set<nat>, now: nat) returns (live: map<nat, nat>)
      ensures live.Keys == started.Keys + next
      ensures forall f <- live :: live[f] == if f in started then started[f] else now
    {
      live := started;
      var todo := next;
      while todo != {}
        invariant todo <= next
        invariant live.Keys == started.Keys + (next - todo)
        invariant forall f <- live :: live[f] == if f in started then started[f] else now
        decreases todo
      {
        var f :| f in todo;
        todo := todo - {f};
        if f !in live {
          live := live[f := now];
        }
      }
    }

    /** Frequencies that left the set end now. */
    static method EndOld(live: map<nat, nat>, next: set<nat>, now: nat) returns (kept: map<nat, nat>, ended: seq<Row>)
      ensures kept == map f <- live | f in next :: live[f]
      ensures Closes(live, next, now, ended)
    {
      ended, kept := [], live;
      var todo := live.Keys;
      while todo != {}
        invariant todo <= live.Keys
        invariant kept == map f <- live | f in next || f in todo :: live[f]
        invariant forall i, j :: 0 <= i < j < |ended| ==> ended[i].freq != ended[j].freq
        invariant forall r <- ended :: r.freq in live && r.freq !in next && r.freq !in todo
        invariant forall r <- ended :: r == Row(r.freq, live[r.freq], now)
        invariant forall f <- live :: f !in next && f !in todo ==> Row(f, live[f], now) in ended
        decreases todo
      {
        var f :| f in todo;
        todo := todo - {f};
        if f !in next {
          assert Row(f, live[f], now) !in ended;
          ended := ended + [Row(f, live[f], now)];
          kept := kept - {f};
        }
      }
    }

    /** Installs a target list and logs the intervals that end with it. */
    method InstallLocked(ts: seq<Target>, now: nat) returns (ghost e: seq<Row>)
      modifies this`sess, this`started, this`rows
      ensures Closes(old(started), Freqs(ts), now, e)
      ensures View() == Install(old(View()), ts, e, now)
    {
      var next := set t <- ts :: t.freq;
      var live := StartNew(next, now);
      var kept, ended := EndOld(live, next, now);
      ClosesOld(started, live, next, now, ended);
      assert kept == StartedAfter(started, next, now);
      if sess.Some? {
        sess := Some(sess.value.(targets := ts));
      }
      e := ended;
      started, rows := kept, rows + ended;
    }

    /** The gate condition afterwards is always "held", so nothing is returned. */
    method Press(a: string, target: Option<Target>, now: nat) returns (ghost ts: seq<Target>, ghost e: seq<Row>)
      modifies this
      ensures old(sess).Some? ==> Rendered(tx, ts) && Closes(old(started), Freqs(ts), now, e)
      ensures View() == Pressed(old(View()), a, target, ts, e, now)
    {
      ts, e := [], [];
      var freshStart := tx == map[];
      timer := None;
      tx := tx[a := target];
      if sess.Some? {
        if freshStart {
          sess := Some(sess.value.(transmissions := sess.value.transmissions + 1));
        }
        var list := TargetsLocked();
        ts := list;
        e := InstallLocked(list, now);
      }
    }

    method Release(a: string, now: nat) returns (held: bool, ghost ts: seq<Target>, ghost e: seq<Row>)
      modifies this
      ensures held == (old(tx) - {a} != map[])
      ensures held && old(sess).Some? ==> Rendered(tx, ts) && Closes(old(started), Freqs(ts), now, e)
      ensures View() == Released(old(View()), a, ts, e, now)
    {
      ts, e := [], [];
      tx := tx - {a};
      held := tx != map[];
      if held && sess.Some? {
        var list := TargetsLocked();
        ts := list;
        e := InstallLocked(list, now);
      }
    }

    method ScheduleClear(id: nat)
      modifies this`timer
      ensures View() == old(View()).(timer := Some(id))
    {
      timer := None;
      timer := Some(id);
    }

    method ClearIfStillIdle(now: nat) returns (ghost e: seq<Row>)
      modifies this
      ensures old(tx) == map[] && old(sess).Some? ==> Closes(old(started), {}, now, e)
      ensures View() == Cleared(old(View()), e, now)
    {
      e := [];
      timer := None;
      if tx != map[] {
        return;
      }
      if sess.Some? {
        e := InstallLocked([], now);
      }
    }

    /** `next` None is a teardown, which always proceeds. A session is installed only if its
        dial is of the live generation. */
    method Swap(next: Option<Session>, dialGen: nat, now: nat)
        returns (prev: Option<Session>, installed: bool, ghost e: seq<Row>)
      modifies this
      ensures installed == (next.None? || dialGen == old(gen))
      ensures prev == if installed then old(sess) else None
      ensures !installed ==> View() == old(View())
      ensures installed && next.Some? ==> View() == old(View()).(sess := next)
      ensures next.None? ==> Closes(old(started), {}, now, e) && View() == TornDown(old(View()), e, now)
    {
      e := [];
      if next.Some? && dialGen != gen {
        return None, false, e;
      }
      prev := sess;
      if next.None? {
        gen := gen + 1;
        sess := None;
        e := InstallLocked([], now);
      }
      sess := next;
      installed := true;
    }

    method NextGeneration() returns (g: nat)
      modifies this`gen
      ensures g == old(gen) + 1 && View() == old(View()).(gen := g)
    {
      gen := gen + 1;
      g := gen;
    }
  }

  // ---- runs ---------------------------------------------------------------------------------------

  /** One call of the install routine: the frequencies it put in force, and when. */
  datatype Change = Change(freqs: set<nat>, time: nat)

  /** `live` are the timers that will still fire, `owed` the releases whose caller has yet to
      arm one. `synced` says a target list was installed on the current session. */
  datatype State = State(core: Core, live: set<nat>, owed: nat, synced: bool, changes: seq<Change>, now: nat)

  /** A press or an arming stops the current timer, or comes too late (`inTime` false). */
  datatype Step =
    | Press(a: string, target: Option<Target>, ts: seq<Target>, e: seq<Row>, now: nat, inTime: bool)
    | Release(a: string, ts: seq<Target>, e: seq<Row>, now: nat)
    | Arm(id: nat, inTime: bool)
    | Fire(id: nat, e: seq<Row>, now: nat)
    | SwapIn(id: nat, dialGen: nat)
    | SwapOut(e: seq<Row>, now: nat)
    | NewGeneration

  ghost predicate CanStep(s: State, t: Step) {
    var c := s.core;
    match t
    case Press(a, target, ts, e, now, _) =>
      now >= s.now && (c.sess.Some? ==> Rendered(c.tx[a := target], ts) && Closes(c.started, Freqs(ts), now, e))
    case Release(a, ts, e, now) =>
      now >= s.now && (c.tx - {a} != map[] && c.sess.Some? ==>
        Rendered(c.tx - {a}, ts) && Closes(c.started, Freqs(ts), now, e))
    case Arm(id, _) => s.owed > 0 && id !in s.live
    case Fire(id, e, now) => id in s.live && now >= s.now && Closes(c.started, {}, now, e)
    case SwapOut(e, now) => now >= s.now && Closes(c.started, {}, now, e)
    case _ => true
  }

  function Stopped(s: State, inTime: bool): set<nat> {
    if inTime && s.core.timer.Some? then s.live - {s.core.timer.value} else s.live
  }

  /** Records an install of `freqs` on the live session, if `happened`. */
  function Noted(s: State, happened: bool, freqs: set<nat>, now: nat): State {
    if happened then s.(synced := s.core.sess.Some?, changes := s.changes + [Change(freqs, now)], now := now)
    else s.(now := now)
  }

  ghost function Next(s: State, t: Step): State
    requires CanStep(s, t)
  {
    var c := s.core;
    match t
    case Press(a, target, ts, e, now, inTime) =>
      Noted(s.(core := Pressed(c, a, target, ts, e, now), live := Stopped(s, inTime)), c.sess.Some?, Freqs(ts), now)
    case Release(a, ts, e, now) =>
      var held := c.tx - {a} != map[];
      Noted(s.(core := Released(c, a, ts, e, now), owed := if held then s.owed else s.owed + 1),
            held && c.sess.Some?, Freqs(ts), now)
    case Arm(id, inTime) =>
      s.(core := c.(timer := Some(id)), live := Stopped(s, inTime) + {id}, owed := s.owed - 1)
    case Fire(id, e, now) =>
      Noted(s.(core := Cleared(c, e, now), live := s.live - {id}), c.tx == map[] && c.sess.Some?, {}, now)
    case SwapIn(id, dialGen) =>
      if dialGen == c.gen then s.(core := c.(sess := Some(Session(id, [], 0))), synced := false) else s
    case SwapOut(e, now) =>
      Noted(s.(core := TornDown(c, e, now)), true, {}, now)
    case NewGeneration => s.(core := c.(gen := c.gen + 1))
  }

  const INIT := State(Core(map[], None, 0, map[], [], None), {}, 0, false, [Change({}, 0)], 0)

  ghost predicate Run(ts: seq<Step>, states: seq<State>) {
    && |states| == |ts| + 1
    && states[0] == INIT
    && forall i :: 0 <= i < |ts| ==> CanStep(states[i], ts[i]) && states[i + 1] == Next(states[i], ts[i])
  }

  // ---- the targets of the session -----------------------------------------------------------------

  /** What the session transmits agrees with what is held, once installed on it. */
  ghost predicate TargetsOk(s: State) {
    var c := s.core;
    && (c.sess.None? ==> c.started == map[])
    && (s.synced ==>
          && c.sess.Some? && c.started.Keys == Freqs(c.sess.value.targets)
          && (c.tx != map[] ==> Rendered(c.tx, c.sess.value.targets)))
    && (c.sess.Some? && !s.synced ==> c.sess.value.targets == [])
    && (c.tx == map[] && c.sess.Some? && (c.sess.value.targets != [] || c.started != map[]) ==>
          s.owed > 0 || s.live != {})
  }

  lemma StepKeepsTargets(s: State, t: Step)
    requires TargetsOk(s) && CanStep(s, t)
    ensures TargetsOk(Next(s, t))
  {
    var u := Next(s, t);
    match t
    case Press(a, _, _, _, _, _) => assert a in u.core.tx;
    case Arm(id, _) => assert id in u.live;
    case Fire(_, _, _) => assert u.core.tx == map[] && u.core.sess.Some? ==> u.core.started == map[];
    case _ =>
  }

  /** Between the first install on a session and its replacement, its targets are exactly one
      per frequency the held actions resolved to, whatever stale timers fire. With nothing
      held, targets or an open interval remain only while a clear is armed or owed. */
  lemma {:induction false} SessionTransmitsWhatIsHeld(ts: seq<Step>, states: seq<State>, i: nat)
    requires Run(ts, states) && i <= |ts|
    ensures TargetsOk(states[i])
  {
    if i > 0 {
      SessionTransmitsWhatIsHeld(ts, states, i - 1);
      StepKeepsTargets(states[i - 1], ts[i - 1]);
    }
  }

  /** No swap between `p` and `i` replaced the session. */
  ghost predicate SameSession(ts: seq<Step>, states: seq<State>, p: nat, i: nat)
    requires Run(ts, states) && i <= |ts|
  {
    forall k :: p <= k < i ==>
      !ts[k].SwapOut? && (ts[k].SwapIn? ==> ts[k].dialGen != states[k].core.gen)
  }

  /** From the first press after a session is installed until it is replaced, its targets are
      exactly the held ones whenever anything is held. */
  lemma {:induction false} HeldIsTransmitted(ts: seq<Step>, states: seq<State>, p: nat, i: nat)
    requires Run(ts, states) && p < i <= |ts|
    requires ts[p].Press? && states[p].core.sess.Some? && SameSession(ts, states, p, i)
    ensures var c := states[i].core;
      c.sess.Some? && states[i].synced && (c.tx != map[] ==> Rendered(c.tx, c.sess.value.targets))
  {
    assert CanStep(states[i - 1], ts[i - 1]) && states[i] == Next(states[i - 1], ts[i - 1]);
    if p < i - 1 {
      HeldIsTransmitted(ts, states, p, i - 1);
    }
    SessionTransmitsWhatIsHeld(ts, states, i);
  }

  /** Once no clear is outstanding, an idle session has no target a voice-activated frame
      could go out on, and no interval is left open. */
  lemma IdleIsSilent(ts: seq<Step>, states: seq<State>, i: nat)
    requires Run(ts, states) && i <= |ts|
    requires var s := states[i]; s.core.tx == map[] && s.owed == 0 && s.live == {}
    ensures states[i].core.sess.Some? ==> states[i].core.sess.value.targets == []
    ensures states[i].core.started == map[]
  {
    SessionTransmitsWhatIsHeld(ts, states, i);
  }

  lemma {:induction false} GenerationsGrow(ts: seq<Step>, states: seq<State>, i: nat, j: nat)
    requires Run(ts, states) && i <= j <= |ts|
    ensures states[i].core.gen <= states[j].core.gen
  {
    if i < j {
      GenerationsGrow(ts, states, i, j - 1);
      assert CanStep(states[j - 1], ts[j - 1]);
    }
  }

  /** A dial begun before a teardown never installs a session after it. */
  lemma TeardownOutlivesDials(ts: seq<Step>, states: seq<State>, i: nat, j: nat)
    requires Run(ts, states) && i < j < |ts|
    requires ts[i].SwapOut? && ts[j].SwapIn? && ts[j].dialGen <= states[i].core.gen
    ensures states[j + 1] == states[j]
  {
    assert CanStep(states[i], ts[i]) && states[i + 1] == Next(states[i], ts[i]);
    GenerationsGrow(ts, states, i + 1, j);
    assert CanStep(states[j], ts[j]);
  }

  // ---- the clear timer --------------------------------------------------------------------------

  /** Which timers may still fire after a step: one is armed by an arming, and is gone once it
      fires or once a press or another arming stops it in time. */
  lemma TimersMove(s: State, t: Step, x: nat)
    requires CanStep(s, t)
    ensures x in Next(s, t).live <==>
      (t.Arm? && t.id == x)
      || (x in s.live
          && !(t.Fire? && t.id == x)
          && !((t.Press? || t.Arm?) && t.inTime && s.core.timer == Some(x)))
    ensures Next(s, t).core.timer ==
      match t
      case Press(_, _, _, _, _, _) => None
      case Arm(id, _) => Some(id)
      case Fire(_, _, _) => None
      case _ => s.core.timer
  {
  }

  /** Of the first `i` steps, the releases that left nothing held, and the armings. */
  function IdleReleases(ts: seq<Step>, states: seq<State>, i: nat): nat
    requires |states| == |ts| + 1 && i <= |ts|
  {
    if i == 0 then 0
    else IdleReleases(ts, states, i - 1) + if ts[i - 1].Release? && states[i].core.tx == map[] then 1 else 0
  }

  function Armings(ts: seq<Step>, i: nat): nat
    requires i <= |ts|
  {
    if i == 0 then 0 else Armings(ts, i - 1) + if ts[i - 1].Arm? then 1 else 0
  }

  /** Over every run, each release that leaves nothing held arms the clear once. */
  lemma {:induction false} EachIdleReleaseArms(ts: seq<Step>, states: seq<State>, i: nat)
    requires Run(ts, states) && i <= |ts|
    ensures Armings(ts, i) + states[i].owed == IdleReleases(ts, states, i)
  {
    if i > 0 {
      EachIdleReleaseArms(ts, states, i - 1);
      assert CanStep(states[i - 1], ts[i - 1]) && states[i] == Next(states[i - 1], ts[i - 1]);
    }
  }

  /** A new generation, and a teardown, outdate every dial begun before. */
  lemma GenerationsMove(s: State, t: Step)
    requires CanStep(s, t)
    ensures t.NewGeneration? || t.SwapOut? ==> Next(s, t).core.gen > s.core.gen
    ensures !t.NewGeneration? && !t.SwapOut? ==> Next(s, t).core.gen == s.core.gen
  {
  }

  // ---- what is held, and how often it began to be --------------------------------------------

  /** Of the steps before `i` that name action `a`, the last is the press `k`. */
  ghost predicate PressedLast(ts: seq<Step>, a: string, k: nat, i: nat) {
    && k < i <= |ts| && ts[k].Press? && ts[k].a == a
    && forall j :: k < j < i && (ts[j].Press? || ts[j].Release?) ==> ts[j].a != a
  }

  ghost predicate HeldAsPressed(ts: seq<Step>, tx: Held, a: string, i: nat)
    requires i <= |ts|
  {
    && (a in tx <==> exists k: nat :: PressedLast(ts, a, k, i))
    && (a in tx ==> forall k: nat :: PressedLast(ts, a, k, i) ==> tx[a] == ts[k].target)
  }

  /** Over every run an action is held exactly if it was pressed and not released since, with
      the target of that press. */
  lemma {:induction false} HeldIsPressed(ts: seq<Step>, states: seq<State>, i: nat, a: string)
    requires Run(ts, states) && i <= |ts|
    ensures HeldAsPressed(ts, states[i].core.tx, a, i)
  {
    if i > 0 {
      HeldIsPressed(ts, states, i - 1, a);
      assert CanStep(states[i - 1], ts[i - 1]) && states[i] == Next(states[i - 1], ts[i - 1]);
      HeldAfter(states[i - 1], ts[i - 1], a);
      HeldNext(ts, states[i - 1].core.tx, states[i].core.tx, a, i);
    }
  }

  lemma HeldNext(ts: seq<Step>, was: Held, held: Held, a: string, i: nat)
    requires 0 < i <= |ts| && HeldAsPressed(ts, was, a, i - 1)
    requires var t := ts[i - 1];
      && (a in held <==> if t.Press? && t.a == a then true else a in was && !Names(t, a))
      && (a in held ==> held[a] == if t.Press? && t.a == a then t.target else was[a])
    ensures HeldAsPressed(ts, held, a, i)
  {
    forall k: nat ensures PressedLast(ts, a, k, i)
                     <==> if Names(ts[i - 1], a) then k == i - 1 && ts[k].Press? else PressedLast(ts, a, k, i - 1) {
      LastNamed(ts, a, k, i);
    }
    if Names(ts[i - 1], a) {
      assert ts[i - 1].Press? ==> PressedLast(ts, a, i - 1, i);
    } else if a in was {
      var k: nat :| PressedLast(ts, a, k, i - 1);
      assert PressedLast(ts, a, k, i);
    }
  }

  predicate Names(t: Step, a: string) { (t.Press? || t.Release?) && t.a == a }

  lemma LastNamed(ts: seq<Step>, a: string, k: nat, i: nat)
    requires 0 < i <= |ts|
    ensures PressedLast(ts, a, k, i)
       <==> if Names(ts[i - 1], a) then k == i - 1 && ts[k].Press? else PressedLast(ts, a, k, i - 1)
  {
  }

  /** A press holds its action, a release lets it go, and no other step does either. */
  lemma HeldAfter(s: State, t: Step, a: string)
    requires CanStep(s, t)
    ensures a in Next(s, t).core.tx <==> if t.Press? && t.a == a then true else a in s.core.tx && !Names(t, a)
    ensures a in Next(s, t).core.tx ==>
              Next(s, t).core.tx[a] == if t.Press? && t.a == a then t.target else s.core.tx[a]
  {
  }

  /** From state `p` to state `i`, how often the held set went from empty to not empty. */
  function Starts(states: seq<State>, p: nat, i: nat): nat
    requires p <= i < |states|
  {
    if p == i then 0
    else Starts(states, p, i - 1) + if states[i - 1].core.tx == map[] && states[i].core.tx != map[] then 1 else 0
  }

  /** The session that is live at `i` was installed at `p`, and counts the starts since. */
  ghost predicate LiveSince(ts: seq<Step>, states: seq<State>, p: nat, i: nat)
    requires Run(ts, states) && i <= |ts|
  {
    && p < i && ts[p].SwapIn? && ts[p].dialGen == states[p].core.gen && SameSession(ts, states, p + 1, i)
    && states[i].core.sess.Some? && states[i].core.sess.value.id == ts[p].id
    && states[i].core.sess.value.transmissions == Starts(states, p + 1, i)
  }

  /** Over every run the live session counts exactly the starts since it was installed. */
  lemma {:induction false} TransmissionsAreStarts(ts: seq<Step>, states: seq<State>, i: nat) returns (p: nat)
    requires Run(ts, states) && i <= |ts| && states[i].core.sess.Some?
    ensures LiveSince(ts, states, p, i)
  {
    var t := ts[i - 1];
    RunSession(ts, states, i);
    if t.SwapIn? && t.dialGen == states[i - 1].core.gen {
      p := i - 1;
    } else {
      p := TransmissionsAreStarts(ts, states, i - 1);
      LiveOn(ts, states, p, i);
    }
  }

  lemma LiveOn(ts: seq<Step>, states: seq<State>, p: nat, i: nat)
    requires Run(ts, states) && 0 < i <= |ts| && LiveSince(ts, states, p, i - 1) && states[i].core.sess.Some?
    requires !(ts[i - 1].SwapIn? && ts[i - 1].dialGen == states[i - 1].core.gen)
    ensures LiveSince(ts, states, p, i)
  {
    RunSession(ts, states, i);
  }

  /** What one step of a run does to the session that is live after it. */
  lemma RunSession(ts: seq<Step>, states: seq<State>, i: nat)
    requires Run(ts, states) && 0 < i <= |ts| && states[i].core.sess.Some?
    ensures var (t, s, u) := (ts[i - 1], states[i - 1].core, states[i].core);
      if t.SwapIn? && t.dialGen == s.gen then u.sess == Some(Session(t.id, [], 0)) && u.tx == s.tx
      else
        && !t.SwapOut? && s.sess.Some? && u.sess.value.id == s.sess.value.id
        && u.sess.value.transmissions
           == s.sess.value.transmissions + if s.tx == map[] && u.tx != map[] then 1 else 0
  {
    var t := ts[i - 1];
    assert CanStep(states[i - 1], t) && states[i] == Next(states[i - 1], t);
    if states[i - 1].core.sess.Some? && !t.SwapOut? && (t.SwapIn? ==> t.dialGen != states[i - 1].core.gen) {
      SessionKept(states[i - 1], t);
    }
  }

  /** A step that does not swap keeps the session, and counts a start exactly if it is one. */
  lemma SessionKept(s: State, t: Step)
    requires CanStep(s, t) && s.core.sess.Some? && !t.SwapOut? && (t.SwapIn? ==> t.dialGen != s.core.gen)
    ensures var u := Next(s, t);
      && u.core.sess.Some? && u.core.sess.value.id == s.core.sess.value.id
      && u.core.sess.value.transmissions
         == s.core.sess.value.transmissions + if s.core.tx == map[] && u.core.tx != map[] then 1 else 0
  {
    if t.Press? { assert t.a in Next(s, t).core.tx; }
  }

  // ---- own transmissions ------------------------------------------------------------------------

  /** `f` is in force from change `i` up to, and not including, change `j`. */
  ghost predicate Interval(h: seq<Change>, f: nat, i: int, j: int) {
    && 0 < i < j < |h|
    && f !in h[i - 1].freqs && f !in h[j].freqs
    && forall k :: i <= k < j ==> f in h[k].freqs
  }

  /** How often `f` entered the set, and how often it left. */
  function Entered(h: seq<Change>, f: nat): nat {
    if |h| <= 1 then 0
    else Entered(h[..|h| - 1], f) + if f !in h[|h| - 2].freqs && f in h[|h| - 1].freqs then 1 else 0
  }

  function Left(h: seq<Change>, f: nat): nat {
    if |h| <= 1 then 0
    else Left(h[..|h| - 1], f) + if f in h[|h| - 2].freqs && f !in h[|h| - 1].freqs then 1 else 0
  }

  /** The rows of one frequency, oldest first. */
  function RowsOf(rows: seq<Row>, f: nat): seq<Row> {
    if rows == [] then []
    else RowsOf(rows[..|rows| - 1], f) + if rows[|rows| - 1].freq == f then [rows[|rows| - 1]] else []
  }

  ghost predicate Timely(h: seq<Change>, now: nat) {
    && |h| > 0 && h[0].freqs == {}
    && (forall i, j :: 0 <= i <= j < |h| ==> h[i].time <= h[j].time)
    && h[|h| - 1].time <= now
  }

  /** `f` has been in force since change `i`. */
  ghost predicate OpenSince(h: seq<Change>, f: nat, i: int) {
    0 < i < |h| && f !in h[i - 1].freqs && forall k :: i <= k < |h| ==> f in h[k].freqs
  }

  /** The rows `rs` of `f` are its closed intervals, one each and none overlapping; `since`
      is the start of the interval still open, if there is one. */
  ghost predicate Logged(h: seq<Change>, f: nat, rs: seq<Row>, since: Option<nat>) {
    && |h| > 0
    && OpenIs(h, f, since)
    && RowsAre(h, f, rs)
    && |rs| == Left(h, f)
    && Entered(h, f) == |rs| + (if since.Some? then 1 else 0)
    && Disjoint(rs)
    && (forall r <- rs :: r.end <= if since.Some? then since.value else h[|h| - 1].time)
  }

  ghost predicate OpenIs(h: seq<Change>, f: nat, since: Option<nat>)
    requires |h| > 0
  {
    && (since.Some? <==> f in h[|h| - 1].freqs)
    && (since.Some? ==> exists i :: OpenSince(h, f, i) && since.value == h[i].time)
  }

  /** `r` is the row of the interval from change `i` to change `j`. */
  ghost predicate RowOf(h: seq<Change>, f: nat, r: Row, i: int, j: int) {
    Interval(h, f, i, j) && r == Row(f, h[i].time, h[j].time)
  }

  ghost predicate RowsAre(h: seq<Change>, f: nat, rs: seq<Row>) {
    && (forall r <- rs :: exists i, j :: RowOf(h, f, r, i, j))
    && (forall r, i, j :: RowOf(h, f, r, i, j) ==> r in rs)
  }

  ghost predicate Disjoint(rs: seq<Row>) {
    && (forall r <- rs :: r.start <= r.end)
    && (forall k, l :: 0 <= k < l < |rs| ==> rs[k].end <= rs[l].start)
  }

  function Since(started: map<nat, nat>, f: nat): Option<nat> {
    if f in started then Some(started[f]) else None
  }

  lemma RowsOfConcat(rows: seq<Row>, e: seq<Row>, f: nat)
    ensures RowsOf(rows + e, f) == RowsOf(rows, f) + RowsOf(e, f)
  {
    if e == [] {
      assert rows + e == rows;
    } else {
      assert (rows + e)[..|rows + e| - 1] == rows + e[..|e| - 1];
      RowsOfConcat(rows, e[..|e| - 1], f);
    }
  }

  /** Of a list with each frequency once, the rows of `f` are at most one. */
  lemma {:induction false} RowsOfDistinct(e: seq<Row>, f: nat)
    requires forall i, j :: 0 <= i < j < |e| ==> e[i].freq != e[j].freq
    ensures |RowsOf(e, f)| <= 1
    ensures forall r :: r in RowsOf(e, f) <==> r in e && r.freq == f
  {
    if e != [] {
      var p := e[..|e| - 1];
      RowsOfDistinct(p, f);
      assert forall r <- p :: r.freq != e[|e| - 1].freq;
      assert RowsOf(p, f) != [] ==> RowsOf(p, f)[0] in p;
    }
  }

  lemma RowsOfClosing(started: map<nat, nat>, next: set<nat>, now: nat, e: seq<Row>, f: nat)
    requires Closes(started, next, now, e)
    ensures RowsOf(e, f) == if f in started && f !in next then [Row(f, started[f], now)] else []
  {
    RowsOfDistinct(e, f);
    var rs := RowsOf(e, f);
    if f in started && f !in next {
      assert Row(f, started[f], now) in rs;
    } else {
      assert |rs| == 1 ==> rs[0] in e && rs[0].freq == f;
    }
  }

  lemma OpenSnoc(h: seq<Change>, x: Change, f: nat, i: int)
    requires |h| > 0
    ensures OpenSince(h + [x], f, i) <==> f in x.freqs && (OpenSince(h, f, i) || (i == |h| && f !in h[|h| - 1].freqs))
  {
    var g := h + [x];
    assert forall k :: 0 <= k < |h| ==> g[k] == h[k];
    assert g[|h|] == x;
  }

  lemma IntervalSnoc(h: seq<Change>, x: Change, f: nat, i: int, j: int)
    requires |h| > 0
    ensures Interval(h + [x], f, i, j) <==> Interval(h, f, i, j) || (j == |h| && OpenSince(h, f, i) && f !in x.freqs)
  {
    var g := h + [x];
    assert forall k :: 0 <= k < |h| ==> g[k] == h[k];
    assert g[|h|] == x;
  }

  /** Two open starts of one frequency are the same change. */
  lemma OpenOnce(h: seq<Change>, f: nat, i: int, j: int)
    requires OpenSince(h, f, i) && OpenSince(h, f, j)
    ensures i == j
  {
    var before := (h[i - 1], h[j - 1]);
  }

  lemma CountSnoc(h: seq<Change>, x: Change, f: nat)
    requires |h| > 0
    ensures Entered(h + [x], f) == Entered(h, f) + if f !in h[|h| - 1].freqs && f in x.freqs then 1 else 0
    ensures Left(h + [x], f) == Left(h, f) + if f in h[|h| - 1].freqs && f !in x.freqs then 1 else 0
  {
    assert (h + [x])[..|h + [x]| - 1] == h;
  }

  /** Without an interval of `f` ending, the closed ones stay as they were. */
  lemma RowsStay(h: seq<Change>, x: Change, f: nat, rs: seq<Row>)
    requires |h| > 0 && RowsAre(h, f, rs) && (f in h[|h| - 1].freqs ==> f in x.freqs)
    ensures RowsAre(h + [x], f, rs)
  {
    forall r, i, j ensures RowOf(h + [x], f, r, i, j) <==> RowOf(h, f, r, i, j) {
      IntervalSnoc(h, x, f, i, j);
    }
  }

  /** A change that does not end an interval of `f`. */
  lemma KeepOpenOrStart(h: seq<Change>, x: Change, f: nat, rs: seq<Row>, since: Option<nat>)
    requires Logged(h, f, rs, since) && (forall c <- h :: c.time <= x.time)
    requires since.Some? ==> f in x.freqs
    ensures Logged(h + [x], f, rs, if since.Some? then since else if f in x.freqs then Some(x.time) else None)
  {
    var g := h + [x];
    CountSnoc(h, x, f);
    RowsStay(h, x, f, rs);
    assert g[|h|] == x;
    assert h[|h| - 1].time <= x.time;
    if since.Some? {
      var i :| OpenSince(h, f, i) && since.value == h[i].time;
      OpenSnoc(h, x, f, i);
    } else {
      OpenSnoc(h, x, f, |h|);
    }
  }

  /** A change that ends the open interval of `f`. */
  lemma CloseInterval(h: seq<Change>, x: Change, f: nat, rs: seq<Row>, since: nat)
    requires Logged(h, f, rs, Some(since)) && (forall c <- h :: c.time <= x.time)
    requires f !in x.freqs
    ensures Logged(h + [x], f, rs + [Row(f, since, x.time)], None)
  {
    var g, last := h + [x], Row(f, since, x.time);
    var s :| OpenSince(h, f, s) && since == h[s].time;
    CountSnoc(h, x, f);
    assert g[|h|] == x;
    forall r, i, j ensures RowOf(g, f, r, i, j) <==> RowOf(h, f, r, i, j) || (r == last && i == s && j == |h|) {
      IntervalSnoc(h, x, f, i, j);
      if OpenSince(h, f, i) { OpenOnce(h, f, i, s); }
    }
    assert RowsAre(g, f, rs + [last]) by {
      assert RowOf(g, f, last, s, |h|);
    }
    assert h[s].time <= x.time;
    assert Disjoint(rs + [last]);
  }

  /** An install keeps the log of every frequency. */
  lemma InstallKeepsLog(c: Core, h: seq<Change>, ts: seq<Target>, e: seq<Row>, was: nat, now: nat, f: nat)
    requires Timely(h, was) && was <= now && Closes(c.started, Freqs(ts), now, e)
    requires Logged(h, f, RowsOf(c.rows, f), Since(c.started, f))
    ensures var d := Install(c, ts, e, now);
      Logged(h + [Change(Freqs(ts), now)], f, RowsOf(d.rows, f), Since(d.started, f))
  {
    var x, rs := Change(Freqs(ts), now), RowsOf(c.rows, f);
    RowsOfConcat(c.rows, e, f);
    RowsOfClosing(c.started, Freqs(ts), now, e, f);
    if f in c.started && f !in x.freqs {
      CloseInterval(h, x, f, rs, c.started[f]);
    } else {
      assert rs + [] == rs;
      KeepOpenOrStart(h, x, f, rs, Since(c.started, f));
    }
  }

  ghost predicate LogOk(s: State) {
    Timely(s.changes, s.now) && forall f: nat :: Logged(s.changes, f, RowsOf(s.core.rows, f), Since(s.core.started, f))
  }

  /** What a step installs, if it installs anything. */
  function InstalledBy(s: State, t: Step): Option<seq<Target>> {
    var c := s.core;
    match t
    case Press(_, _, ts, _, _, _) => if c.sess.Some? then Some(ts) else None
    case Release(a, ts, _, _) => if c.tx - {a} != map[] && c.sess.Some? then Some(ts) else None
    case Fire(_, _, _) => if c.tx == map[] && c.sess.Some? then Some([]) else None
    case SwapOut(_, _) => Some([])
    case _ => None
  }

  /** A step changes the log by exactly one install, or not at all. */
  lemma StepInstalls(s: State, t: Step)
    requires CanStep(s, t)
    ensures var u := Next(s, t);
      match InstalledBy(s, t)
      case None => u.core.started == s.core.started && u.core.rows == s.core.rows
        && u.changes == s.changes && u.now >= s.now
      case Some(ts) =>
        var d := Install(s.core, ts, t.e, t.now);
        && Closes(s.core.started, Freqs(ts), t.now, t.e) && t.now >= s.now && u.now == t.now
        && u.core.started == d.started && u.core.rows == d.rows && u.changes == s.changes + [Change(Freqs(ts), t.now)]
  {
    assert Freqs([]) == {};
  }

  lemma StepKeepsLog(s: State, t: Step)
    requires LogOk(s) && CanStep(s, t)
    ensures LogOk(Next(s, t))
  {
    StepInstalls(s, t);
    if InstalledBy(s, t).Some? {
      forall f: nat ensures var u := Next(s, t);
        Logged(u.changes, f, RowsOf(u.core.rows, f), Since(u.core.started, f)) {
        InstallKeepsLog(s.core, s.changes, InstalledBy(s, t).value, t.e, s.now, t.now, f);
      }
    }
  }

  /** Over every run, the rows of a frequency are exactly the intervals it spent in the
      installed set: one row each, with its times, none overlapping; rows plus the interval
      still open are the intervals begun; and without a session none is open. */
  lemma {:induction false} OneRowPerTransmission(ts: seq<Step>, states: seq<State>, i: nat, f: nat)
    requires Run(ts, states) && i <= |ts|
    ensures LogOk(states[i])
    ensures var s := states[i];
      Logged(s.changes, f, RowsOf(s.core.rows, f), Since(s.core.started, f)) &&
      (s.core.sess.None? ==> f !in s.core.started)
  {
    if i > 0 {
      OneRowPerTransmission(ts, states, i - 1, f);
      StepKeepsLog(states[i - 1], ts[i - 1]);
    } else {
      assert forall g: nat :: Logged(INIT.changes, g, [], None);
    }
    SessionTransmitsWhatIsHeld(ts, states, i);
  }
}
