/** One direction of the audio poll loop: which device should be open, when a dead one is
    retried, and why a flapping device list cannot pin the retry rate. Times are in
    milliseconds, with 0 the zero time that is always due. */
module Reopen {

  datatype Device = Device(id: string, isDefault: bool)

  const INITIAL_BACKOFF := 1000
  const MAX_BACKOFF := 30000

  // ---- device resolution ----------------------------------------------------------------

  ghost predicate Listed(id: string, devices: seq<Device>) {
    exists d :: d in devices && d.id == id
  }

  ghost predicate FirstDefault(devices: seq<Device>, i: nat) {
    i < |devices| && devices[i].isDefault && forall j :: 0 <= j < i ==> !devices[j].isDefault
  }

  /** The configured device while it is listed, else the first default, else the first, else none. */
  ghost predicate Resolves(id: string, devices: seq<Device>, want: string) {
    if id != "" && Listed(id, devices) then want == id
    else if exists i: nat :: FirstDefault(devices, i)
      then exists i: nat :: FirstDefault(devices, i) && want == devices[i].id
    else want == if devices == [] then "" else devices[0].id
  }

  method ResolveDevice(id: string, devices: seq<Device>) returns (want: string)
    ensures Resolves(id, devices, want)
    ensures (exists d <- devices :: d.id == id) && id != "" ==> want == id
    ensures !(exists d <- devices :: d.id == id) || id == "" ==>
      if exists d <- devices :: d.isDefault
        then exists i :: 0 <= i < |devices| && want == devices[i].id && devices[i].isDefault
                         && forall j :: 0 <= j < i ==> !devices[j].isDefault
      else want == if devices == [] then "" else devices[0].id
  {
    if id != "" {
      for i := 0 to |devices|
        invariant forall j :: 0 <= j < i ==> devices[j].id != id
      {
        if devices[i].id == id {
          assert devices[i] in devices;
          return id;
        }
      }
    }
    for i := 0 to |devices|
      invariant forall j :: 0 <= j < i ==> !devices[j].isDefault
    {
      if devices[i].isDefault {
        assert FirstDefault(devices, i);
        return devices[i].id;
      }
    }
    if |devices| > 0 {
      return devices[0].id;
    }
    want := "";
  }

  /** Resolution is a function of its inputs and never names a device that is not listed. */
  lemma ResolvesToListed(id: string, devices: seq<Device>, want: string, want2: string)
    requires Resolves(id, devices, want) && Resolves(id, devices, want2)
    ensures want == want2
    ensures devices == [] ==> want == ""
    ensures devices != [] ==> Listed(want, devices)
  {
    if !(id != "" && Listed(id, devices)) {
      if exists i: nat :: FirstDefault(devices, i) {
        var i: nat :| FirstDefault(devices, i) && want == devices[i].id;
        var j: nat :| FirstDefault(devices, j) && want2 == devices[j].id;
        assert i == j;
        assert devices[i] in devices;
      } else if devices != [] {
        assert devices[0] in devices;
      }
    }
  }

  // ---- one poll ---------------------------------------------------------------------------

  function NextBackoff(cur: int): int {
    if cur <= 0 then INITIAL_BACKOFF
    else if cur * 2 > MAX_BACKOFF then MAX_BACKOFF
    else cur * 2
  }

  datatype State = State(open: bool, device: string, target: string, attemptCfg: string, backoff: int, retryAt: int)

  /** One poll: the clock, the configured id, what it resolves to now, and whether an open would work. */
  datatype Poll = Poll(now: int, cfg: string, want: string, ok: bool)

  function Closed(s: State, p: Poll): State {
    if s.open then (if p.want != s.device then s.(open := false, backoff := 0, retryAt := 0) else s)
    else if p.cfg != s.attemptCfg then s.(backoff := 0, retryAt := 0)
    else if s.target == "" && p.want != "" then s.(retryAt := 0)
    else s
  }

  predicate Attempts(s: State, p: Poll) {
    !Closed(s, p).open && p.now >= Closed(s, p).retryAt
  }

  function Next(s: State, p: Poll): State {
    var c := Closed(s, p);
    if !Attempts(s, p) then c
    else
      var a := c.(target := p.want, attemptCfg := p.cfg);
      if p.ok then a.(open := true, device := p.want, backoff := 0)
      else a.(backoff := NextBackoff(c.backoff), retryAt := p.now + NextBackoff(c.backoff))
  }

  class Direction {
    var open: bool
    var device: string
    var target: string
    var attemptCfg: string
    var backoff: int
    var retryAt: int

    ghost function View(): State
      reads this
    {
      State(open, device, target, attemptCfg, backoff, retryAt)
    }

    constructor (device: string, cfg: string, isOpen: bool)
      ensures View() == State(isOpen, device, device, cfg, 0, 0)
    {
      open, this.device, target, attemptCfg := isOpen, device, device, cfg;
      backoff, retryAt := 0, 0;
    }

    method CloseSuperseded(cfg: string, want: string)
      modifies this
      ensures forall now, ok :: View() == Closed(old(View()), Poll(now, cfg, want, ok))
    {
      if open && want != device {
        open := false;
        backoff, retryAt := 0, 0;
      } else if !open {
        if cfg != attemptCfg {
          backoff, retryAt := 0, 0;
        } else if target == "" && want != "" {
          retryAt := 0;
        }
      }
    }

    method PollOnce(now: int, cfg: string, devices: seq<Device>, ok: bool)
      modifies this
      ensures exists want :: Resolves(cfg, devices, want) && View() == Next(old(View()), Poll(now, cfg, want, ok))
    {
      var want := ResolveDevice(cfg, devices);
      CloseSuperseded(cfg, want);
      if open || now < retryAt {
        return;
      }
      target, attemptCfg := want, cfg;
      if ok {
        open, device, backoff := true, want, 0;
      } else {
        backoff := NextBackoff(backoff);
        retryAt := now + backoff;
      }
    }
  }

  function Min(a: int, b: int): int { if a < b then a else b }

  function Doubled(n: nat): int { if n == 0 then 1000 else 2 * Doubled(n - 1) }

  function BackoffAfter(n: nat): int { if n == 0 then 0 else NextBackoff(BackoffAfter(n - 1)) }

  /** After `n + 1` failures in a row the wait is a second doubled `n` times, but half a minute
      at most. */
  lemma {:induction false} BackoffDoubles(n: nat)
    ensures BackoffAfter(n + 1) == Min(Doubled(n), 30000) && Doubled(n) >= 1000
  {
    if n > 0 { BackoffDoubles(n - 1); }
  }

  /** What one poll promises. A stream on its device is left alone; one whose device is gone
      is closed, and replaced in the same poll if opening works. A closed stream is tried at
      once if the configured device changed or a device appeared where there was none, and
      otherwise exactly when its wait is over; a failed try waits longer. */
  lemma PollPromises(s: State, p: Poll)
    requires p.now >= 0
    ensures var u := Next(s, p);
      && (s.open && p.want == s.device ==> u == s)
      && (s.open && p.want != s.device ==> Attempts(s, p) && (u.open <==> p.ok) && (!p.ok ==> u.backoff == 1000))
      && (!s.open ==>
            (Attempts(s, p) <==>
               p.cfg != s.attemptCfg || (s.target == "" && p.want != "") || p.now >= s.retryAt))
      && (Attempts(s, p) ==> u.open == p.ok && u.target == p.want && u.attemptCfg == p.cfg)
      && (Attempts(s, p) && p.ok ==> u.device == p.want && u.backoff == 0)
      && (Attempts(s, p) && !p.ok ==> u.retryAt == p.now + u.backoff)
      && (!s.open && Attempts(s, p) && !p.ok ==>
            u.backoff == if p.cfg != s.attemptCfg then 1000 else NextBackoff(s.backoff))
      && (!s.open && !Attempts(s, p) ==> u == s)
  {
  }

  /** After a poll that closed or kept a stream, an open stream is on the resolved device. */
  lemma OpenMeansWanted(s: State, p: Poll)
    ensures Next(s, p).open ==> Next(s, p).device == p.want
  {
  }

  // ---- the retry rate -----------------------------------------------------------------------

  /** The state after the first `i` polls. */
  function After(s: State, ps: seq<Poll>, i: nat): State
    requires i <= |ps|
  {
    if i == 0 then s else Next(After(s, ps, i - 1), ps[i - 1])
  }

  /** Poll `i` of the run tries to open the device. */
  ghost predicate TriesAt(s: State, ps: seq<Poll>, i: nat) {
    i < |ps| && Attempts(After(s, ps, i), ps[i])
  }

  /** It does so before its backoff is over, because a device just appeared. */
  ghost predicate FreeAt(s: State, ps: seq<Poll>, i: nat) {
    TriesAt(s, ps, i) && ps[i].now < After(s, ps, i).retryAt
  }

  predicate Bounded(s: State) {
    s.backoff == 0 || INITIAL_BACKOFF <= s.backoff <= MAX_BACKOFF
  }

  /** The configured id never changes, nothing opens, and the clock does not go back. */
  ghost predicate Failing(s: State, ps: seq<Poll>) {
    && !s.open && Bounded(s)
    && (forall i :: 0 <= i < |ps| ==> ps[i].cfg == s.attemptCfg && !ps[i].ok && ps[i].now >= 0)
    && (forall i, j :: 0 <= i < j < |ps| ==> ps[i].now <= ps[j].now)
  }

  lemma {:induction false} StaysFailing(s: State, ps: seq<Poll>, i: nat)
    requires Failing(s, ps) && i <= |ps|
    ensures !After(s, ps, i).open && After(s, ps, i).attemptCfg == s.attemptCfg && Bounded(After(s, ps, i))
  {
    if i > 0 {
      StaysFailing(s, ps, i - 1);
    }
  }

  /** While nothing opens and the configured id stays, a free retry follows only an attempt
      that resolved to nothing, and finds a device. */
  lemma FreeNeedsDevice(c: State, p: Poll)
    requires !c.open && p.cfg == c.attemptCfg && !p.ok
    ensures Next(c, p).target == if Attempts(c, p) then p.want else c.target
    ensures Attempts(c, p) && p.now < c.retryAt ==> c.target == "" && p.want != ""
  {
  }

  /** From one attempt at `i` to poll `m`: either a backed-off attempt has happened since,
      or the last target was a real device, which blocks another free attempt. */
  lemma {:induction false} AfterFree(s: State, ps: seq<Poll>, i: nat, m: nat)
    requires Failing(s, ps) && FreeAt(s, ps, i) && i < m <= |ps|
    ensures (exists k :: i < k < m && TriesAt(s, ps, k) && !FreeAt(s, ps, k)) || After(s, ps, m).target != ""
  {
    StaysFailing(s, ps, m - 1);
    FreeNeedsDevice(After(s, ps, m - 1), ps[m - 1]);
    if m > i + 1 {
      AfterFree(s, ps, i, m - 1);
      if TriesAt(s, ps, m - 1) && !FreeAt(s, ps, m - 1) { assert i < m - 1 < m; }
    }
  }

  /** Two free retries never happen without a backed-off attempt between them. */
  lemma FreeRetriesAreSeparated(s: State, ps: seq<Poll>, i: nat, j: nat)
    requires Failing(s, ps) && i < j && FreeAt(s, ps, i) && FreeAt(s, ps, j)
    ensures exists k :: i < k < j && TriesAt(s, ps, k) && !FreeAt(s, ps, k)
  {
    AfterFree(s, ps, i, j);
    StaysFailing(s, ps, j);
  }

  ghost predicate TriedBetween(s: State, ps: seq<Poll>, i: nat, m: nat) {
    exists k :: i < k < m && TriesAt(s, ps, k)
  }

  /** What a wait until `until` still enforces: before any further attempt it is due in
      full; after one, it is over or cannot be skipped again. `last` is the latest clock. */
  predicate Waits(c: State, until: int, tried: bool, last: int) {
    c.retryAt >= until && c.backoff >= INITIAL_BACKOFF && (tried && c.target == "" ==> last >= until)
  }

  lemma WaitStep(c: State, p: Poll, until: int, tried: bool, last: int)
    requires !c.open && p.cfg == c.attemptCfg && !p.ok && p.now >= 0 && Bounded(c)
    requires Waits(c, until, tried, last) && last <= p.now && p.now + c.backoff >= until
    ensures Waits(Next(c, p), until, tried || Attempts(c, p), p.now)
    ensures Next(c, p).backoff >= c.backoff
    ensures tried && Attempts(c, p) ==> p.now >= until
  {
  }

  lemma FailedAttempt(c: State, p: Poll)
    requires !c.open && p.cfg == c.attemptCfg && !p.ok && p.now >= 0 && Bounded(c) && Attempts(c, p)
    ensures var t := Next(c, p); t.retryAt == p.now + t.backoff && t.backoff >= INITIAL_BACKOFF
    ensures Waits(Next(c, p), Next(c, p).retryAt, false, p.now)
  {
  }

  lemma TriedGrows(s: State, ps: seq<Poll>, i: nat, m: nat)
    requires i < m < |ps|
    ensures TriedBetween(s, ps, i, m + 1) <==> TriedBetween(s, ps, i, m) || (i < m && TriesAt(s, ps, m))
  {
    if TriedBetween(s, ps, i, m + 1) {
      var k :| i < k < m + 1 && TriesAt(s, ps, k);
      assert k < m ==> TriedBetween(s, ps, i, m);
    }
  }

  /** The attempt that sets the wait. */
  lemma WaitBegins(s: State, ps: seq<Poll>, i: nat)
    requires Failing(s, ps) && TriesAt(s, ps, i)
    ensures var first := After(s, ps, i + 1);
      && first.retryAt == ps[i].now + first.backoff && first.backoff >= INITIAL_BACKOFF
      && Waits(first, first.retryAt, TriedBetween(s, ps, i, i + 1), ps[i].now)
  {
    StaysFailing(s, ps, i);
    FailedAttempt(After(s, ps, i), ps[i]);
    assert !TriedBetween(s, ps, i, i + 1);
  }

  lemma WaitGoesOn(s: State, ps: seq<Poll>, i: nat, m: nat, first: State)
    requires Failing(s, ps) && i < m < |ps| && first.retryAt == ps[i].now + first.backoff
    requires Waits(After(s, ps, m), first.retryAt, TriedBetween(s, ps, i, m), ps[m - 1].now)
    requires After(s, ps, m).backoff >= first.backoff
    ensures Waits(After(s, ps, m + 1), first.retryAt, TriedBetween(s, ps, i, m + 1), ps[m].now)
    ensures After(s, ps, m + 1).backoff >= first.backoff
  {
    var c, tried := After(s, ps, m), TriedBetween(s, ps, i, m);
    StaysFailing(s, ps, m);
    WaitStep(c, ps[m], first.retryAt, tried, ps[m - 1].now);
    TriedGrows(s, ps, i, m);
    assert TriedBetween(s, ps, i, m + 1) == (tried || Attempts(c, ps[m]));
  }

  lemma {:induction false} WaitHolds(s: State, ps: seq<Poll>, i: nat, m: nat)
    requires Failing(s, ps) && TriesAt(s, ps, i) && i < m <= |ps|
    ensures var first := After(s, ps, i + 1);
      && first.retryAt == ps[i].now + first.backoff
      && Waits(After(s, ps, m), first.retryAt, TriedBetween(s, ps, i, m), ps[m - 1].now)
      && After(s, ps, m).backoff >= first.backoff >= INITIAL_BACKOFF
  {
    WaitBegins(s, ps, i);
    if m > i + 1 {
      WaitHolds(s, ps, i, m - 1);
      WaitGoesOn(s, ps, i, m - 1, After(s, ps, i + 1));
    }
  }

  /** The rate keeps decaying even while the device list flaps: any three attempts span at
      least the backoff the first of them set, and the backoff never shrinks. */
  lemma ThreeAttemptsSpanTheBackoff(s: State, ps: seq<Poll>, i: nat, j: nat, l: nat)
    requires Failing(s, ps) && i < j < l && TriesAt(s, ps, i) && TriesAt(s, ps, j) && TriesAt(s, ps, l)
    ensures ps[l].now >= ps[i].now + After(s, ps, i + 1).backoff
    ensures INITIAL_BACKOFF <= After(s, ps, i + 1).backoff <= After(s, ps, l + 1).backoff <= MAX_BACKOFF
  {
    StaysFailing(s, ps, l);
    StaysFailing(s, ps, l + 1);
    WaitHolds(s, ps, i, l);
    WaitHolds(s, ps, i, l + 1);
    assert TriedBetween(s, ps, i, l);
    WaitStep(After(s, ps, l), ps[l], After(s, ps, i + 1).retryAt, true, ps[l - 1].now);
  }
}
