/** The gate's push-to-talk flag. A dispatch changes the transmit set under a lock and stores
    the flag afterwards, outside it, so dispatches on different goroutines may cross. */
module PttGate {

  type Caller = nat

  /** `tx` are the held actions, `owed` the value each dispatch in flight has yet to store. */
  datatype State = State(tx: set<string>, owed: map<Caller, bool>, ptt: bool)

  datatype Step = Press(who: Caller, a: string) | Release(who: Caller, a: string) | Store(who: Caller)

  predicate CanStep(s: State, t: Step) {
    if t.Store? then t.who in s.owed else t.who !in s.owed
  }

  function Next(s: State, t: Step): State
    requires CanStep(s, t)
  {
    match t
    case Press(who, a) => s.(tx := s.tx + {a}, owed := s.owed[who := true])
    case Release(who, a) => s.(tx := s.tx - {a}, owed := s.owed[who := s.tx - {a} != {}])
    case Store(who) => s.(ptt := s.owed[who], owed := s.owed - {who})
  }

  const START := State({}, map[], false)

  ghost predicate Run(ts: seq<Step>, states: seq<State>) {
    && |states| == |ts| + 1
    && states[0] == START
    && forall i :: 0 <= i < |ts| ==> CanStep(states[i], ts[i]) && states[i + 1] == Next(states[i], ts[i])
  }

  ghost predicate By(ts: seq<Step>, callers: set<Caller>) {
    forall t <- ts :: t.who in callers
  }

  /** With no dispatch in flight, the gate is open exactly while something is held. */
  predicate InStep(s: State) { s.owed == map[] ==> s.ptt == (s.tx != {}) }

  ghost predicate GateFollows(callers: set<Caller>) {
    forall ts, states, i :: Run(ts, states) && By(ts, callers) && 0 <= i <= |ts| ==> InStep(states[i])
  }

  lemma {:induction false} OneCallerFollows(ts: seq<Step>, states: seq<State>, c: Caller, i: nat)
    requires Run(ts, states) && By(ts, {c}) && i <= |ts|
    ensures var s := states[i];
      s.owed.Keys <= {c} && (if c in s.owed then s.owed[c] == (s.tx != {}) else s.ptt == (s.tx != {}))
  {
    if i > 0 {
      OneCallerFollows(ts, states, c, i - 1);
      var s, t := states[i - 1], ts[i - 1];
      assert t.who == c && CanStep(s, t) && states[i] == Next(s, t);
      if t.Press? { assert t.a in states[i].tx; }
    }
  }

  lemma RunSnoc(ts: seq<Step>, states: seq<State>, s: State, t: Step, u: State)
    requires Run(ts, states) && states[|ts|] == s && CanStep(s, t) && Next(s, t) == u
    ensures Run(ts + [t], states + [u]) && (states + [u])[|ts + [t]|] == u
  {
  }

  /** One goroutine has released everything but not stored it yet. */
  lemma ReleaseInFlight(p: Caller) returns (ts: seq<Step>, states: seq<State>)
    ensures Run(ts, states) && By(ts, {p}) && states[|ts|] == State({}, map[p := false], true)
  {
    var s1, s2 := State({"a"}, map[p := true], false), State({"a"}, map[], true);
    RunSnoc([], [START], START, Press(p, "a"), s1);
    RunSnoc([] + [Press(p, "a")], [START] + [s1], s1, Store(p), s2);
    ts, states := [] + [Press(p, "a")] + [Store(p)], [START] + [s1] + [s2];
    RunSnoc(ts, states, s2, Release(p, "a"), State({}, map[p := false], true));
    ts, states := ts + [Release(p, "a")], states + [State({}, map[p := false], true)];
  }

  /** The release of one goroutine is stored after the press of another. */
  lemma CrossedRun(p: Caller, q: Caller) returns (ts: seq<Step>, states: seq<State>)
    requires p != q
    ensures Run(ts, states) && By(ts, {p, q}) && states[|ts|] == State({"b"}, map[], false)
  {
    var done, kept := ReleaseInFlight(p);
    var s3, s4 := State({}, map[p := false], true), State({"b"}, map[p := false, q := true], true);
    var s5, s6 := State({"b"}, map[p := false], true), State({"b"}, map[], false);
    assert Next(s3, Press(q, "b")) == s4;
    RunSnoc(done, kept, s3, Press(q, "b"), s4);
    var ts4, states4 := done + [Press(q, "b")], kept + [s4];
    assert Next(s4, Store(q)) == s5;
    RunSnoc(ts4, states4, s4, Store(q), s5);
    var ts5, states5 := ts4 + [Store(q)], states4 + [s5];
    assert Next(s5, Store(p)) == s6;
    RunSnoc(ts5, states5, s5, Store(p), s6);
    ts, states := ts5 + [Store(p)], states5 + [s6];
    assert By(ts, {p, q});
  }

  lemma CrossedStores(p: Caller, q: Caller)
    requires p != q
    ensures !GateFollows({p, q})
  {
    var ts, states := CrossedRun(p, q);
    assert "b" in states[|ts|].tx && !InStep(states[|ts|]);
  }

  lemma MoreCallers(few: set<Caller>, many: set<Caller>)
    requires few <= many && GateFollows(many)
    ensures GateFollows(few)
  {
    forall ts, states, i | Run(ts, states) && By(ts, few) && 0 <= i <= |ts| ensures InStep(states[i]) {
      assert By(ts, many);
    }
  }

  /** Exactly when the gate follows the transmit set: push-to-talk edges come from at most
      one goroutine. */
  lemma GateFollowsIffOneCaller(callers: set<Caller>)
    ensures GateFollows(callers) <==> forall p, q :: p in callers && q in callers ==> p == q
  {
    if p, q :| p in callers && q in callers && p != q {
      CrossedStores(p, q);
      if GateFollows(callers) {
        MoreCallers({p, q}, callers);
      }
    } else {
      var c := if callers == {} then 0 else var c :| c in callers; c;
      forall ts, states, i | Run(ts, states) && By(ts, callers) && 0 <= i <= |ts| ensures InStep(states[i]) {
        assert By(ts, {c});
        OneCallerFollows(ts, states, c, i);
      }
    }
  }
}
