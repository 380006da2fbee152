/** The keybind refresher: a counter of identical jobs, a one-slot wake channel and one worker.
    Every step below is one critical section, channel operation or job. */
module Refresher {

  /** Waiting for a wake-up or the stop; about to look at the counter; running a job; gone. */
  datatype Phase = Waiting | Checking | Running | Exited

  /** `owed` enqueuers have counted their job but not sent the wake-up yet. The rest counts
      jobs: accepted, started, finished, and discarded by the shutdown. */
  datatype State = State(pending: nat, stopped: bool, wake: bool, stopSent: bool, phase: Phase, owed: nat,
                         accepted: nat, started: nat, finished: nat, discarded: nat)

  datatype Step = Enqueue | Send | Wake | Take | Drained | Finish | MarkStopped | SendStop | Exit

  predicate CanStep(s: State, t: Step) {
    match t
    case Enqueue => true
    case Send => s.owed > 0
    case Wake => s.phase.Waiting? && s.wake
    case Take => s.phase.Checking? && !s.stopped && s.pending > 0
    case Drained => s.phase.Checking? && (s.stopped || s.pending == 0)
    case Finish => s.phase.Running?
    case MarkStopped => !s.stopped
    case SendStop => s.stopped && !s.stopSent
    case Exit => s.phase.Waiting? && s.stopSent
  }

  function Next(s: State, t: Step): State
    requires CanStep(s, t)
  {
    match t
    case Enqueue => if s.stopped then s
      else s.(pending := s.pending + 1, owed := s.owed + 1, accepted := s.accepted + 1)
    case Send => s.(owed := s.owed - 1, wake := true)
    case Wake => s.(wake := false, phase := Checking)
    case Take => s.(pending := s.pending - 1, phase := Running, started := s.started + 1)
    case Drained => s.(phase := Waiting)
    case Finish => s.(phase := Checking, finished := s.finished + 1)
    case MarkStopped => s.(stopped := true, pending := 0, discarded := s.pending)
    case SendStop => s.(stopSent := true)
    case Exit => s.(phase := Exited)
  }

  const START := State(0, false, false, false, Waiting, 0, 0, 0, 0, 0)

  ghost predicate Run(ts: seq<Step>, states: seq<State>) {
    && |states| == |ts| + 1
    && states[0] == START
    && forall i :: 0 <= i < |ts| ==> CanStep(states[i], ts[i]) && states[i + 1] == Next(states[i], ts[i])
  }

  /** No wake-up is lost, no job is lost or run twice, and a stopped worker starts nothing. */
  predicate Inv(s: State) {
    && (s.phase.Waiting? && s.pending > 0 ==> s.wake || s.owed > 0)
    && s.accepted == s.started + s.pending + s.discarded
    && s.started == s.finished + (if s.phase.Running? then 1 else 0)
    && (s.stopped ==> s.pending == 0) && (s.stopSent ==> s.stopped) && (s.phase.Exited? ==> s.stopSent)
    && (!s.stopped ==> s.discarded == 0)
  }

  lemma {:induction false} NoWakeupLost(ts: seq<Step>, states: seq<State>, i: nat)
    requires Run(ts, states) && i <= |ts|
    ensures Inv(states[i])
  {
    if i > 0 {
      NoWakeupLost(ts, states, i - 1);
      assert CanStep(states[i - 1], ts[i - 1]);
    }
  }

  /** What the worker and the enqueuers do without anyone asking for more. */
  predicate Progress(t: Step) { t.Send? || t.Wake? || t.Take? || t.Drained? || t.Finish? }

  /** The steps left until everything enqueued so far has run. */
  function Work(s: State): nat {
    2 * s.pending + 3 * s.owed + (if s.wake then 2 else 0)
    + match s.phase case Waiting => 0 case Checking => 1 case Running => 2 case Exited => 0
  }

  function SomeStep(s: State): Step {
    match s.phase
    case Running => Finish
    case Checking => if s.stopped || s.pending == 0 then Drained else Take
    case _ => if s.wake && s.phase.Waiting? then Wake else Send
  }

  /** While a job is left, some step of the worker or an enqueuer is possible, and every such
      step leaves less work: nothing waits forever for a wake-up. */
  lemma JobsGetDone(s: State, t: Step)
    requires Inv(s)
    ensures s.pending > 0 || s.phase.Running? ==> CanStep(s, SomeStep(s)) && Progress(SomeStep(s))
    ensures CanStep(s, t) && Progress(t) ==> Work(Next(s, t)) < Work(s)
  {
  }

  lemma ProgressKeepsInv(s: State, t: Step)
    requires Inv(s) && CanStep(s, t)
    ensures Inv(Next(s, t))
  {
  }

  ghost predicate Continues(s: State, ts: seq<Step>, states: seq<State>) {
    && |states| == |ts| + 1 && states[0] == s
    && forall i :: 0 <= i < |ts| ==> CanStep(states[i], ts[i]) && states[i + 1] == Next(states[i], ts[i])
  }

  /** Neither the worker nor an enqueuer can do anything more. */
  ghost predicate Settled(s: State) { forall t :: Progress(t) ==> !CanStep(s, t) }

  lemma SettledIsDone(s: State)
    requires Inv(s) && Settled(s)
    ensures s.pending == 0 && s.finished == s.accepted - s.discarded
  {
    JobsGetDone(s, SomeStep(s));
  }

  /** From any state and under any schedule, the worker and the enqueuers left to themselves
      take no more steps than there was work; wherever they can take no more, every job
      accepted and not discarded has run. */
  lemma {:induction false} WorkerFinishes(s: State, ts: seq<Step>, states: seq<State>)
    requires Inv(s) && Continues(s, ts, states) && forall t <- ts :: Progress(t)
    ensures var u := states[|ts|];
      && |ts| + Work(u) <= Work(s) && Inv(u) && u.accepted == s.accepted && u.discarded == s.discarded
      && (Settled(u) ==> u.pending == 0 && u.finished == s.accepted - s.discarded)
    decreases |ts|
  {
    if ts == [] {
      if Settled(s) { SettledIsDone(s); }
    } else {
      assert ts[0] in ts && states[1] == Next(s, ts[0]);
      JobsGetDone(s, ts[0]);
      ProgressKeepsInv(s, ts[0]);
      var rest := ts[1..];
      assert Continues(states[1], rest, states[1..]);
      WorkerFinishes(states[1], rest, states[1..]);
    }
  }

  /** No job starts once the shutdown has marked the queue. */
  lemma {:induction false} NothingStartsAfterStop(ts: seq<Step>, states: seq<State>, p: nat, i: nat)
    requires Run(ts, states) && p <= i <= |ts| && states[p].stopped
    ensures states[i].stopped && states[i].started == states[p].started
  {
    if p < i {
      NothingStartsAfterStop(ts, states, p, i - 1);
      assert CanStep(states[i - 1], ts[i - 1]);
    }
  }

  /** Until the shutdown, every accepted job has run, is running or is still counted. */
  lemma EveryChangeCounts(ts: seq<Step>, states: seq<State>, i: nat)
    requires Run(ts, states) && i <= |ts| && !states[i].stopped
    ensures var s := states[i];
      s.accepted == s.finished + s.pending + (if s.phase.Running? then 1 else 0)
  {
    NoWakeupLost(ts, states, i);
  }

  /** One job, from a worker at rest back to rest. */
  lemma OneJob(s: State)
    requires s.phase.Waiting? && !s.stopped && !s.wake && s.pending == 0
    ensures CanStep(s, Enqueue)
    ensures var s1 := Next(s, Enqueue);
      CanStep(s1, Send) &&
      var s2 := Next(s1, Send);
      CanStep(s2, Wake) &&
      var s3 := Next(s2, Wake);
      CanStep(s3, Take) &&
      var s4 := Next(s3, Take);
      CanStep(s4, Finish) &&
      var s5 := Next(s4, Finish);
      CanStep(s5, Drained) &&
      Next(s5, Drained)
      == s.(accepted := s.accepted + 1, started := s.started + 1, finished := s.finished + 1)
  {
  }

  /** A shutdown discards what is counted, and a waiting worker leaves. */
  lemma ShutsDown(s: State)
    requires s.phase.Waiting? && !s.stopped && !s.stopSent
    ensures CanStep(s, MarkStopped)
    ensures var s1 := Next(s, MarkStopped);
      CanStep(s1, SendStop) &&
      var s2 := Next(s1, SendStop);
      CanStep(s2, Exit) &&
      Next(s2, Exit) == s.(stopped := true, pending := 0, discarded := s.pending, stopSent := true, phase := Exited)
      && Next(s2, Enqueue) == s2
  {
  }

  // ---- the counter ----------------------------------------------------------------------------

  class Queue {
    var pending: nat
    var running: bool
    var stopped: bool
    var wake: bool
    /** What the jobs read, and what the last one applied. */
    var current: nat
    var applied: nat

    ghost predicate Valid()
      reads this
    {
      stopped ==> pending == 0
    }

    constructor ()
      ensures Valid() && pending == 0 && !running && !stopped && !wake
    {
      pending, running, stopped, wake, current, applied := 0, false, false, false, 0, 0;
    }

    /** Counts a job and wakes the worker; the channel has room for one wake-up. */
    method Enqueue()
      requires Valid()
      modifies this`pending, this`wake
      ensures Valid() && pending == (if stopped then 0 else old(pending) + 1) && wake == (old(wake) || !stopped)
    {
      if stopped {
        return;
      }
      pending := pending + 1;
      wake := true;
    }

    /** One pass of the worker over everything counted; returns how many jobs it ran. Every
        job re-reads the current state, so the last one leaves it applied. */
    method Drain() returns (ran: nat)
      requires Valid() && !running
      modifies this`pending, this`running, this`applied
      ensures Valid() && !running && pending == 0 && ran == old(pending)
      ensures applied == if ran > 0 then current else old(applied)
    {
      ran := 0;
      while true
        invariant Valid() && !running && ran + pending == old(pending)
        invariant applied == if ran > 0 then current else old(applied)
        decreases pending
      {
        if stopped || pending == 0 {
          break;
        }
        pending := pending - 1;
        running := true;
        applied := current;
        running := false;
        ran := ran + 1;
      }
    }

    method Close()
      requires Valid()
      modifies this`pending, this`stopped
      ensures Valid() && stopped && pending == 0
    {
      stopped := true;
      pending := 0;
    }
  }
}
