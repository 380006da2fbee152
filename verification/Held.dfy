/** The update stream held back while a snapshot loads, then replayed on top of it. */
module Held {
  import opened Wrappers

  /** What the client keeps of the server: the roster, the settings and the voice plane. */
  datatype Store = Store(
    clients: map<string, string>, radios: map<string, string>, settings: Option<string>,
    secret: string, coalition: string, global: string)

  /** One server update; a missing payload is a malformed message. */
  datatype Update =
    | ClientUpdate(guid: string, info: Option<string>)
    | ClientLeft(guid: string)
    | RadioUpdate(guid: string, radios: Option<string>)
    | SettingsChanged(settings: Option<string>)
    | VoiceAddress(secret: string, coalition: string, global: string)
    | Ignored

  function Route(st: Store, u: Update): Store {
    match u
    case ClientUpdate(guid, info) => if info.None? then st else st.(clients := st.clients[guid := info.value])
    case ClientLeft(guid) => st.(clients := st.clients - {guid}, radios := st.radios - {guid})
    case RadioUpdate(guid, radios) => if radios.None? then st else st.(radios := st.radios[guid := radios.value])
    case SettingsChanged(settings) => if settings.None? then st else st.(settings := settings)
    case VoiceAddress(secret, coalition, global) =>
      var s := if secret != "" then st.(secret := secret) else st;
      s.(coalition := coalition, global := global)
    case Ignored => st
  }

  function RouteAll(st: Store, us: seq<Update>): Store {
    if |us| == 0 then st else Route(RouteAll(st, us[..|us| - 1]), us[|us| - 1])
  }

  /** SyncClient: the snapshot replaces the roster and the addresses; missing settings or
      an empty secret leave what was there. */
  function Sync(st: Store, sv: Store): Store {
    Store(sv.clients, sv.radios, if sv.settings.Some? then sv.settings else st.settings,
          if sv.secret != "" then sv.secret else st.secret, sv.coalition, sv.global)
  }

  // ---- the algebra of keyed updates ---------------------------------------------------------

  datatype Key = Client(guid: string) | Radios(guid: string) | Settings | Secret | Coalition | Global

  ghost function Get(st: Store, k: Key): Option<string> {
    match k
    case Client(guid) => if guid in st.clients then Some(st.clients[guid]) else None
    case Radios(guid) => if guid in st.radios then Some(st.radios[guid]) else None
    case Settings => st.settings
    case Secret => Some(st.secret)
    case Coalition => Some(st.coalition)
    case Global => Some(st.global)
  }

  ghost predicate Touches(u: Update, k: Key) {
    match u
    case ClientUpdate(guid, info) => info.Some? && k == Client(guid)
    case ClientLeft(guid) => k == Client(guid) || k == Radios(guid)
    case RadioUpdate(guid, radios) => radios.Some? && k == Radios(guid)
    case SettingsChanged(settings) => settings.Some? && k == Settings
    case VoiceAddress(secret, _, _) => k == Coalition || k == Global || (k == Secret && secret != "")
    case Ignored => false
  }

  ghost predicate TouchedBy(us: seq<Update>, k: Key) {
    exists i :: 0 <= i < |us| && Touches(us[i], k)
  }

  lemma SameKeys(a: Store, b: Store)
    requires forall k :: Get(a, k) == Get(b, k)
    ensures a == b
  {
    forall g: string ensures (g in a.clients <==> g in b.clients) && (g in a.clients ==> a.clients[g] == b.clients[g]) {
      assert Get(a, Client(g)) == Get(b, Client(g));
    }
    forall g: string ensures (g in a.radios <==> g in b.radios) && (g in a.radios ==> a.radios[g] == b.radios[g]) {
      assert Get(a, Radios(g)) == Get(b, Radios(g));
    }
    assert a.clients == b.clients && a.radios == b.radios;
    assert Get(a, Settings) == Get(b, Settings) && Get(a, Secret) == Get(b, Secret);
    assert Get(a, Coalition) == Get(b, Coalition) && Get(a, Global) == Get(b, Global);
  }

  /** What each update writes. A missing payload writes nothing, nor does a blank secret. */
  lemma RouteWrites(st: Store, u: Update)
    ensures var t := Route(st, u);
      match u
      case ClientUpdate(g, Some(x)) => Get(t, Client(g)) == Some(x)
      case ClientLeft(g) => Get(t, Client(g)) == None && Get(t, Radios(g)) == None
      case RadioUpdate(g, Some(x)) => Get(t, Radios(g)) == Some(x)
      case SettingsChanged(Some(x)) => Get(t, Settings) == Some(x)
      case VoiceAddress(s, c, g) =>
        && t.coalition == c && t.global == g && Get(t, Coalition) == Some(c) && Get(t, Global) == Some(g)
        && Get(t, Secret) == Some(if s == "" then st.secret else s)
      case _ => t == st
  {
  }

  /** What an update writes at a key it touches. */
  ghost function Written(u: Update, k: Key): Option<string>
    requires Touches(u, k)
  {
    match u
    case ClientUpdate(_, info) => info
    case ClientLeft(_) => None
    case RadioUpdate(_, radios) => radios
    case SettingsChanged(settings) => settings
    case VoiceAddress(s, c, g) => Some(if k.Secret? then s else if k.Coalition? then c else g)
  }

  /** An update fixes the keys it touches, whatever was there, and leaves the others alone. */
  lemma RouteIsKeyed(a: Store, b: Store, u: Update, k: Key)
    ensures Touches(u, k) ==> Get(Route(a, u), k) == Get(Route(b, u), k)
    ensures !Touches(u, k) ==> Get(Route(a, u), k) == Get(a, k)
  {
  }

  lemma WrittenIsRead(st: Store, u: Update, k: Key)
    ensures Get(Route(st, u), k) == if Touches(u, k) then Written(u, k) else Get(st, k)
  {
    RouteWrites(st, u);
    RouteIsKeyed(st, st, u, k);
  }

  /** After any updates, a key holds what the last one that touches it wrote, or what was there. */
  lemma {:induction false} LastWriteWins(st: Store, us: seq<Update>, k: Key, i: int)
    requires -1 <= i < |us| && (i >= 0 ==> Touches(us[i], k)) && forall j :: i < j < |us| ==> !Touches(us[j], k)
    ensures Get(RouteAll(st, us), k) == if i >= 0 then Written(us[i], k) else Get(st, k)
  {
    if us != [] {
      var n := |us| - 1;
      WrittenIsRead(RouteAll(st, us[..n]), us[n], k);
      if i < n { LastWriteWins(st, us[..n], k, i); }
    }
  }

  lemma TouchedSnoc(us: seq<Update>, k: Key)
    requires us != []
    ensures TouchedBy(us, k) <==> TouchedBy(us[..|us| - 1], k) || Touches(us[|us| - 1], k)
  {
    var n := |us| - 1;
    if TouchedBy(us, k) && !Touches(us[n], k) {
      var i :| 0 <= i < |us| && Touches(us[i], k);
      assert us[..n][i] == us[i];
    }
    if TouchedBy(us[..n], k) {
      var i :| 0 <= i < n && Touches(us[..n][i], k);
      assert Touches(us[i], k);
    }
  }

  /** One more update, after some that touched the key or did not. */
  lemma LastIsKeyed(a: Store, x: Store, y: Store, u: Update, k: Key, touched: bool)
    requires if touched then Get(x, k) == Get(y, k) else Get(x, k) == Get(a, k)
    ensures touched || Touches(u, k) ==> Get(Route(x, u), k) == Get(Route(y, u), k)
    ensures !touched && !Touches(u, k) ==> Get(Route(x, u), k) == Get(a, k)
  {
    RouteIsKeyed(x, y, u, k);
    RouteIsKeyed(y, x, u, k);
  }

  lemma {:induction false} RouteAllIsKeyed(a: Store, b: Store, us: seq<Update>, k: Key)
    ensures TouchedBy(us, k) ==> Get(RouteAll(a, us), k) == Get(RouteAll(b, us), k)
    ensures !TouchedBy(us, k) ==> Get(RouteAll(a, us), k) == Get(a, k)
  {
    if us != [] {
      var n := |us| - 1;
      RouteAllIsKeyed(a, b, us[..n], k);
      TouchedSnoc(us, k);
      LastIsKeyed(a, RouteAll(a, us[..n]), RouteAll(b, us[..n]), us[n], k, TouchedBy(us[..n], k));
    }
  }

  lemma {:induction false} RouteAllConcat(st: Store, a: seq<Update>, b: seq<Update>)
    ensures RouteAll(st, a + b) == RouteAll(RouteAll(st, a), b)
  {
    if b == [] {
      assert a + b == a;
    } else {
      var n := |b| - 1;
      assert (a + b)[..|a + b| - 1] == a + b[..n];
      RouteAllConcat(st, a, b[..n]);
    }
  }

  /** What a snapshot carries of each key: everything but missing settings and a blank secret. */
  ghost predicate Carried(sv: Store, k: Key) {
    match k case Settings => sv.settings.Some? case Secret => sv.secret != "" case _ => true
  }

  lemma SyncIsKeyed(st: Store, sv: Store, k: Key)
    ensures Get(Sync(st, sv), k) == if Carried(sv, k) then Get(sv, k) else Get(st, k)
  {
  }

  lemma {:induction false} CarriedGrows(sv: Store, us: seq<Update>, k: Key)
    ensures Carried(RouteAll(sv, us), k) <==> Carried(sv, k) || TouchedBy(us, k)
  {
    if us != [] {
      var n := |us| - 1;
      CarriedGrows(sv, us[..n], k);
      TouchedSnoc(us, k);
    }
  }

  /** One key of a replay: `pre` came before the subscription, `early` before the snapshot,
      `late` after it. */
  lemma ReplayKey(st: Store, sv: Store, pre: seq<Update>, early: seq<Update>, late: seq<Update>, k: Key)
    ensures Get(RouteAll(Sync(st, RouteAll(sv, pre + early)), early + late), k)
         == Get(Sync(st, RouteAll(sv, pre + (early + late))), k)
  {
    var at, us := RouteAll(sv, pre + early), early + late;
    var end := RouteAll(at, late);
    RouteAllConcat(sv, pre, us);
    RouteAllConcat(sv, pre + early, late);
    assert (pre + early) + late == pre + us;
    RouteAllIsKeyed(Sync(st, at), RouteAll(sv, pre), us, k);
    RouteAllIsKeyed(at, at, late, k);
    CarriedGrows(RouteAll(sv, pre), us, k);
    CarriedGrows(at, late, k);
    SyncIsKeyed(st, at, k);
    SyncIsKeyed(st, end, k);
    LateIsTouched(early, late, k);
  }

  lemma LateIsTouched(early: seq<Update>, late: seq<Update>, k: Key)
    ensures TouchedBy(late, k) ==> TouchedBy(early + late, k)
  {
    if i :| 0 <= i < |late| && Touches(late[i], k) {
      assert Touches((early + late)[|early| + i], k);
    }
  }

  /** Replaying from at or before the snapshot point is the same as a later snapshot:
      updates the snapshot already reflects do no harm. */
  lemma ReplayConverges(st: Store, sv: Store, log: seq<Update>, sub: nat, snap: nat, m: nat)
    requires sub <= snap <= m <= |log|
    ensures RouteAll(Sync(st, RouteAll(sv, log[..snap])), log[sub..m]) == Sync(st, RouteAll(sv, log[..m]))
  {
    var pre, early, late := log[..sub], log[sub..snap], log[snap..m];
    assert log[..snap] == pre + early && log[sub..m] == early + late && log[..m] == pre + (early + late);
    var replayed := RouteAll(Sync(st, RouteAll(sv, log[..snap])), log[sub..m]);
    forall k ensures Get(replayed, k) == Get(Sync(st, RouteAll(sv, log[..m])), k) {
      ReplayKey(st, sv, pre, early, late, k);
    }
    SameKeys(replayed, Sync(st, RouteAll(sv, log[..m])));
  }

  // ---- the held stream ----------------------------------------------------------------------

  class HeldStream {
    const max: nat
    var buf: seq<Update>
    var released: bool
    var store: Store

    constructor (max: nat, store: Store)
      ensures this.max == max && buf == [] && !released && this.store == store
    {
      this.max, buf, released, this.store := max, [], false, store;
    }

    /** The locked half of Consume for one received update: hold it, end on overflow, or
        hand it back to be routed live. */
    method Receive(u: Update) returns (overflow: bool, live: Option<Update>)
      modifies this`buf
      ensures overflow == (!old(released) && |old(buf)| >= max)
      ensures live == if old(released) then Some(u) else None
      ensures buf == if old(released) || overflow then old(buf) else old(buf) + [u]
    {
      overflow, live := false, None;
      if released {
        return false, Some(u);
      }
      if |buf| >= max {
        return true, None;
      }
      buf := buf + [u];
    }

    /** Replays the held updates once, in arrival order. */
    method Release()
      modifies this
      ensures released
      ensures if old(released) then store == old(store) && buf == old(buf)
              else store == RouteAll(old(store), old(buf)) && buf == []
    {
      if released {
        return;
      }
      for i := 0 to |buf|
        invariant buf == old(buf) && !released
        invariant store == RouteAll(old(store), buf[..i])
      {
        store := Route(store, buf[i]);
        assert buf[..i + 1][..i] == buf[..i];
      }
      assert buf[..|buf|] == buf;
      buf := [];
      released := true;
    }
  }

  /** Consume and the caller, with the server's log beyond the subscription point. */
  datatype State = State(
    arrived: nat,               // updates read from the stream
    buf: seq<Update>, released: bool, ended: bool,
    live: Option<Update>,       // read after Release, about to be routed
    synced: bool, store: Store, routed: seq<Update>)

  datatype Step = Snapshot | Receive | RouteLive | Release | End

  /** One run: the server's log from state `sv`, subscribed at `sub`, snapshot taken at `snap`. */
  datatype World = World(sv: Store, log: seq<Update>, sub: nat, snap: nat, max: nat, client: Store)

  predicate WorldOk(w: World) {
    w.sub <= w.snap <= |w.log|
  }

  ghost predicate CanStep(w: World, s: State, t: Step) {
    match t
    case Snapshot => !s.synced && !s.released
    case Receive => !s.ended && s.live.None? && w.sub + s.arrived < |w.log|
    case RouteLive => s.live.Some?
    case Release => s.synced
    case End => !s.ended && s.live.None?
  }

  ghost function Next(w: World, s: State, t: Step): State
    requires WorldOk(w) && CanStep(w, s, t)
  {
    match t
    case Snapshot => s.(synced := true, store := Sync(s.store, RouteAll(w.sv, w.log[..w.snap])))
    case Receive =>
      var u := w.log[w.sub + s.arrived];
      if s.released then s.(live := Some(u), arrived := s.arrived + 1)
      else if |s.buf| >= w.max then s.(ended := true)
      else s.(buf := s.buf + [u], arrived := s.arrived + 1)
    case RouteLive => s.(store := Route(s.store, s.live.value), routed := s.routed + [s.live.value], live := None)
    case Release =>
      if s.released then s
      else s.(store := RouteAll(s.store, s.buf), routed := s.routed + s.buf, buf := [], released := true)
    case End => s.(ended := true)
  }

  /** A step of the machine has the contract of the method it stands for. */
  lemma StepsAreMethods(w: World, s: State)
    requires WorldOk(w)
    ensures CanStep(w, s, Receive) ==>
      var (u, x, overflow) := (Next(w, s, Receive), w.log[w.sub + s.arrived], !s.released && |s.buf| >= w.max);
      && u.ended == overflow && u.arrived == s.arrived + (if overflow then 0 else 1)
      && u.live == (if s.released then Some(x) else None)
      && u.buf == (if s.released || overflow then s.buf else s.buf + [x]) && u.store == s.store
    ensures CanStep(w, s, Release) ==>
      var u := Next(w, s, Release);
      && u.released
      && if s.released then u == s
         else u.buf == [] && u.store == RouteAll(s.store, s.buf) && u.routed == s.routed + s.buf
    ensures CanStep(w, s, RouteLive) ==>
      var u := Next(w, s, RouteLive); u.live == None && u.store == Route(s.store, s.live.value)
    ensures CanStep(w, s, Snapshot) ==>
      Next(w, s, Snapshot).synced && Next(w, s, Snapshot).store == Sync(s.store, RouteAll(w.sv, w.log[..w.snap]))
    ensures CanStep(w, s, End) ==> Next(w, s, End) == s.(ended := true)
  {
  }

  /** The client's store just after the snapshot. */
  ghost function Base(w: World): Store
    requires WorldOk(w)
  {
    Sync(w.client, RouteAll(w.sv, w.log[..w.snap]))
  }

  ghost function Pending(s: State): seq<Update> {
    if s.live.Some? then [s.live.value] else s.buf
  }

  ghost predicate Inv(w: World, s: State)
    requires WorldOk(w)
  {
    && w.sub + s.arrived <= |w.log|
    && s.routed + Pending(s) == w.log[w.sub..w.sub + s.arrived]
    && (!s.released ==> s.routed == [] && s.live.None?)
    && (s.released ==> s.buf == [] && s.synced)
    && s.store == (if s.synced then RouteAll(Base(w), s.routed) else w.client)
    && |s.buf| <= w.max
  }

  lemma ReceiveKeeps(w: World, s: State)
    requires WorldOk(w) && Inv(w, s) && CanStep(w, s, Receive)
    ensures Inv(w, Next(w, s, Receive))
  {
    var n := w.sub + s.arrived;
    var u := Next(w, s, Receive);
    assert w.log[w.sub..n + 1] == w.log[w.sub..n] + [w.log[n]];
    assert s.released ==> s.routed + Pending(s) == s.routed;
    assert !u.ended ==> s.routed + Pending(u) == (s.routed + Pending(s)) + [w.log[n]];
  }

  lemma RouteLiveKeeps(w: World, s: State)
    requires WorldOk(w) && Inv(w, s) && CanStep(w, s, RouteLive)
    ensures Inv(w, Next(w, s, RouteLive))
  {
    var u := s.live.value;
    assert s.routed + [u] + [] == s.routed + [u];
    RouteAllConcat(Base(w), s.routed, [u]);
    assert [u][..0] == [] && RouteAll(RouteAll(Base(w), s.routed), [u]) == Route(RouteAll(Base(w), s.routed), u);
  }

  lemma ReleaseKeeps(w: World, s: State)
    requires WorldOk(w) && Inv(w, s) && CanStep(w, s, Release)
    ensures Inv(w, Next(w, s, Release))
  {
    RouteAllConcat(Base(w), s.routed, s.buf);
    assert s.routed + s.buf + [] == s.routed + s.buf;
  }

  lemma StepKeepsInv(w: World, s: State, t: Step)
    requires WorldOk(w) && Inv(w, s) && CanStep(w, s, t)
    ensures Inv(w, Next(w, s, t))
  {
    match t
    case Snapshot =>
    case Receive => ReceiveKeeps(w, s);
    case RouteLive => RouteLiveKeeps(w, s);
    case Release => ReleaseKeeps(w, s);
    case End =>
  }

  /** The state after the first `i` steps. */
  ghost predicate Run(w: World, ts: seq<Step>, states: seq<State>) {
    && WorldOk(w) && |states| == |ts| + 1
    && states[0] == State(0, [], false, false, None, false, w.client, [])
    && forall i :: 0 <= i < |ts| ==> CanStep(w, states[i], ts[i]) && states[i + 1] == Next(w, states[i], ts[i])
  }

  lemma {:induction false} RunKeepsInv(w: World, ts: seq<Step>, states: seq<State>, i: nat)
    requires Run(w, ts, states) && i <= |ts|
    ensures WorldOk(w) && Inv(w, states[i])
  {
    if i > 0 {
      RunKeepsInv(w, ts, states, i - 1);
      StepKeepsInv(w, states[i - 1], ts[i - 1]);
    }
  }

  /** Nothing is routed before Release; what has been routed is an in-order, exactly-once
      prefix of the arrivals; the buffer never exceeds its bound; and past the snapshot point
      the store is what a snapshot taken there would give. */
  ghost predicate Converging(w: World, s: State)
    requires WorldOk(w)
  {
    && (!s.released ==> s.routed == [])
    && w.sub + |s.routed| <= |w.log| && s.routed == w.log[w.sub..w.sub + |s.routed|]
    && |s.routed| <= s.arrived <= |s.routed| + (if s.live.Some? then 1 else |s.buf|)
    && |s.buf| <= w.max
    && (s.released && w.sub + |s.routed| >= w.snap ==>
          s.store == Sync(w.client, RouteAll(w.sv, w.log[..w.sub + |s.routed|])))
  }

  lemma InvConverges(w: World, s: State)
    requires WorldOk(w) && Inv(w, s)
    ensures Converging(w, s)
  {
    RoutedIsPrefix(w, s);
    StoreIsSnapshot(w, s);
  }

  /** So it is in every reachable state, for any timing of Release and of the stream's end or
      overflow. */
  lemma HeldConverges(w: World, ts: seq<Step>, states: seq<State>, i: nat)
    requires Run(w, ts, states) && i <= |ts|
    ensures WorldOk(w) && Converging(w, states[i])
  {
    RunKeepsInv(w, ts, states, i);
    InvConverges(w, states[i]);
  }

  /** Past the snapshot point the store is the one a snapshot taken there would give. */
  lemma StoreIsSnapshot(w: World, s: State)
    requires WorldOk(w) && Inv(w, s)
    ensures s.released && w.snap <= w.sub + |s.routed| <= |w.log| ==>
              s.store == Sync(w.client, RouteAll(w.sv, w.log[..w.sub + |s.routed|]))
  {
    RoutedIsPrefix(w, s);
    if s.released && w.sub + |s.routed| >= w.snap {
      ReplayConverges(w.client, w.sv, w.log, w.sub, w.snap, w.sub + |s.routed|);
    }
  }

  lemma RoutedIsPrefix(w: World, s: State)
    requires WorldOk(w) && Inv(w, s)
    ensures w.sub + |s.routed| <= |w.log| && s.routed == w.log[w.sub..w.sub + |s.routed|]
    ensures |s.routed| + |Pending(s)| == s.arrived
  {
    assert s.routed == (s.routed + Pending(s))[..|s.routed|];
  }
}
