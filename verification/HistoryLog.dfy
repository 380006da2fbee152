/** The transmission log: a bounded list in memory, and the debounced flush that writes it
    outside the lock and clears the dirty flag only if nothing changed meanwhile. */
module HistoryLog {
  import opened Wrappers

  type Entry = nat

  const DEFAULT_CAP := 2000

  /** The last `cap` of a list. */
  function LastOf(s: seq<Entry>, cap: nat): seq<Entry> { if |s| <= cap then s else s[|s| - cap..] }

  function Reversed(s: seq<Entry>): seq<Entry> { if s == [] then [] else Reversed(s[1..]) + [s[0]] }

  lemma {:induction false} ReversedAt(s: seq<Entry>, k: nat)
    requires k < |s|
    ensures |Reversed(s)| == |s| && Reversed(s)[|s| - 1 - k] == s[k]
  {
    if |s| > 1 {
      ReversedAt(s[1..], if k > 0 then k - 1 else 0);
    }
  }

  class Log {
    const cap: nat
    var entries: seq<Entry>
    var dirty: bool
    var rev: nat
    var lastChange: int
    var file: Option<seq<Entry>>
    /** Everything appended since the last clear, and whether the file was ever written. */
    ghost var appended: seq<Entry>
    ghost var flushed: bool

    ghost predicate Valid()
      reads this
    {
      cap > 0 && entries == LastOf(appended, cap) && (flushed && !dirty ==> file == Some(entries))
    }

    constructor (capacity: int, file: Option<seq<Entry>>)
      ensures Valid() && cap == (if capacity <= 0 then 2000 else capacity)
      ensures appended == [] && !dirty && !flushed && this.file == file
    {
      cap := if capacity <= 0 then DEFAULT_CAP else capacity;
      entries, dirty, rev, lastChange, this.file := [], false, 0, 0, file;
      appended, flushed := [], false;
    }

    method Append(e: Entry, now: int)
      requires Valid()
      modifies this`entries, this`dirty, this`rev, this`lastChange, this`appended
      ensures Valid() && dirty && appended == old(appended) + [e] && rev == old(rev) + 1 && lastChange == now
    {
      if |entries| >= cap {
        entries := entries[|entries| - cap + 1..];
      }
      entries := entries + [e];
      appended := appended + [e];
      dirty, rev, lastChange := true, rev + 1, now;
    }

    method Clear(now: int)
      requires Valid()
      modifies this`entries, this`dirty, this`rev, this`lastChange, this`appended
      ensures Valid() && dirty && entries == appended == [] && rev == old(rev) + 1 && lastChange == now
    {
      entries, appended := [], [];
      dirty, rev, lastChange := true, rev + 1, now;
    }

    /** A copy, newest first. */
    method Snapshot() returns (out: array<Entry>)
      requires Valid()
      ensures fresh(out) && out[..] == Reversed(LastOf(appended, cap))
    {
      var n := |entries|;
      out := new Entry[n];
      for i := 0 to n
        invariant forall k :: 0 <= k < i ==> out[n - 1 - k] == entries[k]
      {
        out[n - 1 - i] := entries[i];
      }
      forall k | 0 <= k < n ensures |Reversed(entries)| == n && out[k] == Reversed(entries)[k] {
        ReversedAt(entries, n - 1 - k);
      }
      assert n == 0 ==> Reversed(entries) == [];
    }

    /** A flush that nothing interrupts. */
    method Flush(saveOk: bool) returns (ok: bool)
      requires Valid()
      modifies this`dirty, this`file, this`flushed
      ensures Valid() && ok == (!old(dirty) || saveOk)
      ensures old(dirty) && ok ==> file == Some(entries) && !dirty && flushed
      ensures !old(dirty) || !ok ==> dirty == old(dirty) && file == old(file) && flushed == old(flushed)
    {
      if !dirty {
        return true;
      }
      var snap, snapRev := entries, rev;
      if !saveOk {
        return false;
      }
      file := Some(snap);
      if rev == snapRev {
        dirty := false;
      }
      flushed := true;
      ok := true;
    }

    /** Flushes once the log has been quiet for the debounce window. */
    method Tick(now: int, debounce: int, saveOk: bool)
      requires Valid()
      modifies this`dirty, this`file, this`flushed
      ensures Valid()
      ensures old(dirty) && now - lastChange >= debounce && saveOk ==> file == Some(entries) && !dirty
      ensures !old(dirty) || now - lastChange < debounce ==> dirty == old(dirty) && file == old(file)
    {
      if !dirty {
        return;
      }
      if now - lastChange < debounce {
        return;
      }
      var _ := Flush(saveOk);
    }
  }

  // ---- interleavings --------------------------------------------------------------------------

  /** A flush cut at the lock and the file rename: the copy it took, and whether it is in the
      file already. */
  datatype Writing = Writing(snap: seq<Entry>, snapRev: nat, done: bool)

  type Flusher = nat

  datatype State = State(entries: seq<Entry>, appended: seq<Entry>, dirty: bool, rev: nat,
                         file: Option<seq<Entry>>, flushed: bool, busy: map<Flusher, Writing>)

  datatype Step =
    | Append(e: Entry) | Clear
    | Take(who: Flusher) | Rename(who: Flusher) | Fail(who: Flusher) | Finish(who: Flusher)

  predicate CanStep(s: State, t: Step) {
    match t
    case Take(who) => who !in s.busy && s.dirty
    case Rename(who) => who in s.busy && !s.busy[who].done
    case Fail(who) => who in s.busy && !s.busy[who].done
    case Finish(who) => who in s.busy && s.busy[who].done
    case _ => true
  }

  function Next(cap: nat, s: State, t: Step): State
    requires cap > 0 && CanStep(s, t)
  {
    match t
    case Append(e) =>
      var kept := if |s.entries| >= cap then LastOf(s.entries, cap - 1) else s.entries;
      s.(entries := kept + [e], appended := s.appended + [e], dirty := true, rev := s.rev + 1)
    case Clear => s.(entries := [], appended := [], dirty := true, rev := s.rev + 1)
    case Take(who) => s.(busy := s.busy[who := Writing(s.entries, s.rev, false)])
    case Rename(who) => s.(file := Some(s.busy[who].snap), busy := s.busy[who := s.busy[who].(done := true)])
    case Fail(who) => s.(busy := s.busy - {who})
    case Finish(who) =>
      s.(dirty := s.dirty && s.busy[who].snapRev != s.rev, flushed := true, busy := s.busy - {who})
  }

  function Start(file: Option<seq<Entry>>): State { State([], [], false, 0, file, false, map[]) }

  ghost predicate Run(cap: nat, file: Option<seq<Entry>>, ts: seq<Step>, states: seq<State>)
    requires cap > 0
  {
    && |states| == |ts| + 1
    && states[0] == Start(file)
    && forall i :: 0 <= i < |ts| ==> CanStep(states[i], ts[i]) && states[i + 1] == Next(cap, states[i], ts[i])
  }

  predicate IsFlush(t: Step) { t.Take? || t.Rename? || t.Fail? || t.Finish? }

  ghost predicate By(ts: seq<Step>, flushers: set<Flusher>) {
    forall t <- ts :: IsFlush(t) ==> t.who in flushers
  }

  /** A clean log is what the file holds, once something was flushed. */
  ghost predicate FileOk(s: State) { s.flushed && !s.dirty ==> s.file == Some(s.entries) }

  /** Memory is the tail of the appends. */
  lemma {:induction false} MemoryIsTail(cap: nat, file: Option<seq<Entry>>, ts: seq<Step>, states: seq<State>, i: nat)
    requires cap > 0 && Run(cap, file, ts, states) && i <= |ts|
    ensures states[i].entries == LastOf(states[i].appended, cap)
  {
    if i > 0 {
      MemoryIsTail(cap, file, ts, states, i - 1);
      assert CanStep(states[i - 1], ts[i - 1]);
      TailNext(cap, states[i - 1], ts[i - 1]);
    }
  }

  lemma TailNext(cap: nat, s: State, t: Step)
    requires cap > 0 && CanStep(s, t) && s.entries == LastOf(s.appended, cap)
    ensures Next(cap, s, t).entries == LastOf(Next(cap, s, t).appended, cap)
  {
    if t.Append? { LastOfSnoc(s.appended, cap, t.e); }
  }

  lemma LastOfSnoc(s: seq<Entry>, cap: nat, e: Entry)
    requires cap > 0
    ensures var l := LastOf(s, cap);
      LastOf(s + [e], cap) == (if |l| >= cap then LastOf(l, cap - 1) else l) + [e]
  {
  }

  /** A flush that nothing interrupts writes the log and leaves it clean; one that fails leaves
      everything as it was. */
  lemma FlushInOneGo(cap: nat, s: State, who: Flusher)
    requires cap > 0 && s.dirty && who !in s.busy
    ensures CanStep(s, Take(who))
    ensures var s1 := Next(cap, s, Take(who));
      && CanStep(s1, Rename(who)) && CanStep(s1, Fail(who)) && Next(cap, s1, Fail(who)) == s
      && var s2 := Next(cap, s1, Rename(who));
         CanStep(s2, Finish(who)) &&
         Next(cap, s2, Finish(who)) == s.(file := Some(s.entries), dirty := false, flushed := true)
  {
    assert s.busy[who := Writing(s.entries, s.rev, false)] - {who} == s.busy;
    assert s.busy[who := Writing(s.entries, s.rev, true)] - {who} == s.busy;
  }

  /** Finishing cleans the log only if nothing changed since the copy, and never dirties it. */
  lemma FinishCleans(cap: nat, s: State, who: Flusher)
    requires cap > 0 && CanStep(s, Finish(who))
    ensures Next(cap, s, Finish(who)).dirty <==> s.dirty && s.busy[who].snapRev != s.rev
    ensures who !in Next(cap, s, Finish(who)).busy
  {
  }

  /** What the one flusher knows: its copy is current unless the revision moved. */
  ghost predicate Inv(s: State, c: Flusher) {
    && FileOk(s) && s.busy.Keys <= {c}
    && (c in s.busy ==>
          var w := s.busy[c];
          && s.dirty && w.snapRev <= s.rev && (w.snapRev == s.rev ==> w.snap == s.entries)
          && (w.done ==> s.file == Some(w.snap)))
  }

  lemma {:induction false} OneFlusher(cap: nat, file: Option<seq<Entry>>, ts: seq<Step>, states: seq<State>,
                                      c: Flusher, i: nat)
    requires cap > 0 && Run(cap, file, ts, states) && By(ts, {c}) && i <= |ts|
    ensures Inv(states[i], c)
  {
    if i > 0 {
      OneFlusher(cap, file, ts, states, c, i - 1);
      var t := ts[i - 1];
      assert t in ts && CanStep(states[i - 1], t);
      assert IsFlush(t) ==> t.who == c;
    }
  }

  ghost predicate Safe(cap: nat, flushers: set<Flusher>)
    requires cap > 0
  {
    forall file, ts, states, i :: Run(cap, file, ts, states) && By(ts, flushers) && 0 <= i <= |ts| ==> FileOk(states[i])
  }

  lemma RunSnoc(cap: nat, file: Option<seq<Entry>>, ts: seq<Step>, states: seq<State>, s: State, t: Step, u: State)
    requires cap > 0 && Run(cap, file, ts, states) && states[|ts|] == s && CanStep(s, t) && Next(cap, s, t) == u
    ensures Run(cap, file, ts + [t], states + [u]) && (states + [u])[|ts + [t]|] == u
  {
  }

  /** One flusher holds an old copy while memory has moved on. */
  lemma OldCopyHeld(cap: nat, p: Flusher) returns (ts: seq<Step>, states: seq<State>)
    requires cap > 0
    ensures Run(cap, None, ts, states) && By(ts, {p})
    ensures states[|ts|] == State([], [], true, 2, None, false, map[p := Writing([7], 1, false)])
  {
    var s0 := Start(None);
    var s1 := State([7], [7], true, 1, None, false, map[]);
    var s2 := s1.(busy := map[p := Writing([7], 1, false)]);
    var s3 := State([], [], true, 2, None, false, map[p := Writing([7], 1, false)]);
    RunSnoc(cap, None, [], [s0], s0, Append(7), s1);
    RunSnoc(cap, None, [] + [Append(7)], [s0] + [s1], s1, Take(p), s2);
    ts, states := [] + [Append(7)] + [Take(p)], [s0] + [s1] + [s2];
    RunSnoc(cap, None, ts, states, s2, Clear, s3);
    ts, states := ts + [Clear], states + [s3];
  }

  /** The second flusher takes a newer copy and writes it. */
  lemma NewCopyWritten(cap: nat, p: Flusher, q: Flusher) returns (ts: seq<Step>, states: seq<State>)
    requires cap > 0 && p != q
    ensures Run(cap, None, ts, states) && By(ts, {p, q})
    ensures states[|ts|] == State([], [], true, 2, Some([]), false,
                                  map[p := Writing([7], 1, false), q := Writing([], 2, true)])
  {
    var old7 := Writing([7], 1, false);
    var s3 := State([], [], true, 2, None, false, map[p := old7]);
    var s4 := s3.(busy := map[p := old7, q := Writing([], 2, false)]);
    var s5 := s4.(file := Some([]), busy := map[p := old7, q := Writing([], 2, true)]);
    ts, states := OldCopyHeld(cap, p);
    RunSnoc(cap, None, ts, states, s3, Take(q), s4);
    ts, states := ts + [Take(q)], states + [s4];
    assert Next(cap, s4, Rename(q)) == s5;
    RunSnoc(cap, None, ts, states, s4, Rename(q), s5);
    ts, states := ts + [Rename(q)], states + [s5];
  }

  /** The second flusher writes and finishes, then the first overwrites the file. */
  lemma OldCopyWins(cap: nat, p: Flusher, q: Flusher) returns (ts: seq<Step>, states: seq<State>)
    requires cap > 0 && p != q
    ensures Run(cap, None, ts, states) && By(ts, {p, q})
    ensures var s := states[|ts|]; s.flushed && !s.dirty && s.entries == [] && s.file == Some([7])
  {
    var old7 := Writing([7], 1, false);
    var s5 := State([], [], true, 2, Some([]), false, map[p := old7, q := Writing([], 2, true)]);
    var s6 := s5.(dirty := false, flushed := true, busy := map[p := old7]);
    var s7 := s6.(file := Some([7]), busy := map[p := Writing([7], 1, true)]);
    ts, states := NewCopyWritten(cap, p, q);
    assert Next(cap, s5, Finish(q)) == s6;
    RunSnoc(cap, None, ts, states, s5, Finish(q), s6);
    ts, states := ts + [Finish(q)], states + [s6];
    assert Next(cap, s6, Rename(p)) == s7;
    RunSnoc(cap, None, ts, states, s6, Rename(p), s7);
    ts, states := ts + [Rename(p)], states + [s7];
  }

  lemma TwoAreUnsafe(cap: nat, p: Flusher, q: Flusher)
    requires cap > 0 && p != q
    ensures !Safe(cap, {p, q})
  {
    var ts, states := OldCopyWins(cap, p, q);
    assert !FileOk(states[|ts|]);
  }

  lemma MoreFlushers(cap: nat, few: set<Flusher>, many: set<Flusher>)
    requires cap > 0 && few <= many && Safe(cap, many)
    ensures Safe(cap, few)
  {
    forall file, ts, states, i | Run(cap, file, ts, states) && By(ts, few) && 0 <= i <= |ts| ensures FileOk(states[i]) {
      assert By(ts, many);
    }
  }

  /** Exactly when a clean log may be trusted to be on disk: there is at most one flusher at
      work, which is why shutdown joins the ticker before the last flush. */
  lemma SafeIffOneFlusher(cap: nat, flushers: set<Flusher>)
    requires cap > 0
    ensures Safe(cap, flushers) <==> forall p, q :: p in flushers && q in flushers ==> p == q
  {
    if p, q :| p in flushers && q in flushers && p != q {
      TwoAreUnsafe(cap, p, q);
      if Safe(cap, flushers) {
        MoreFlushers(cap, {p, q}, flushers);
      }
    } else {
      var c := if flushers == {} then 0 else var c :| c in flushers; c;
      forall file, ts, states, i | Run(cap, file, ts, states) && By(ts, flushers) && 0 <= i <= |ts|
        ensures FileOk(states[i]) {
        assert By(ts, {c});
        OneFlusher(cap, file, ts, states, c, i);
      }
    }
  }
}
