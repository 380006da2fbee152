/** The store of keybinds: each action has a list of triggers, each trigger has one action. */
module KeybindStore {
  import opened Wrappers
  import opened TriggerText
  import Order

  type Binds = map<string, seq<Trigger>>
  type Raw = map<string, seq<string>>

  datatype Store = Store(binds: Binds, unknown: Raw)

  const STATIC := [
    "global.ptt", "global.push_to_mute", "global.mute_toggle", "global.emergency_broadcast", "global.compact_overlay",
    "channel.intercom", "channel.role", "channel.ship", "channel.fleet",
    "status.available", "status.combat", "status.discipline", "status.afk"
  ]

  predicate HasSuffix(s: string, p: string) { |p| <= |s| && s[|s| - |p|..] == p }

  predicate Listed(x: string, ids: seq<string>) { ids != [] && (ids[0] == x || Listed(x, ids[1..])) }

  predicate Recognised(id: string) {
    Listed(id, STATIC) ||
    (|id| >= |"radio.0.ptt"| && HasPrefix(id, "radio.") && (HasSuffix(id, ".ptt") || HasSuffix(id, ".select")))
  }

  /** Radio actions are recognised by their ends, every other action by name. */
  lemma RadioIsRecognised(radio: string)
    ensures radio != "" ==> Recognised("radio." + radio + ".ptt") && Recognised("radio." + radio + ".select")
  {
    var p, s := "radio." + radio + ".ptt", "radio." + radio + ".select";
    assert p[..6] == "radio." && s[..6] == "radio.";
    assert p[|p| - 4..] == ".ptt" && s[|s| - 7..] == ".select";
  }

  lemma NamedIsRecognised(k: nat)
    requires k < |STATIC|
    ensures Recognised(STATIC[k])
  {
    ListedAt(STATIC, k);
  }

  lemma {:induction false} ListedAt(ids: seq<string>, k: nat)
    requires k < |ids|
    ensures Listed(ids[k], ids)
  {
    if k > 0 { ListedAt(ids[1..], k - 1); }
  }

  /** What is recognised otherwise starts like a radio action and ends like one. */
  lemma OthersAreForeign(id: string)
    requires id !in STATIC && Recognised(id)
    ensures |id| >= 11 && id[..6] == "radio." && (id[|id| - 4..] == ".ptt" || id[|id| - 7..] == ".select")
  {
    OnlyListed(STATIC, id);
  }

  lemma {:induction false} OnlyListed(ids: seq<string>, x: string)
    ensures Listed(x, ids) ==> x in ids
  {
    if ids != [] {
      OnlyListed(ids[1..], x);
      assert ids == [ids[0]] + ids[1..];
    }
  }

  // ---- invariants -----------------------------------------------------------------------------

  predicate NoChord(list: seq<Trigger>) { forall t <- list :: !t.Key? }

  /** No trigger twice, and at most one keyboard chord. */
  predicate Clean(list: seq<Trigger>) {
    list == [] || (list[0] !in list[1..] && (list[0].Key? ==> NoChord(list[1..])) && Clean(list[1..]))
  }

  predicate Holds(b: Binds, id: string, t: Trigger) { id in b && t in b[id] }

  ghost predicate HeldBySome(b: Binds, t: Trigger) { exists id :: Holds(b, id, t) }

  /** No list is empty, every list is clean, and a trigger has at most one action. */
  ghost predicate Owned(b: Binds) {
    && (forall id <- b :: b[id] != [] && Clean(b[id]))
    && (forall t, id, other :: Holds(b, id, t) && Holds(b, other, t) ==> id == other)
  }

  /** Every trigger has a text to be saved under. */
  ghost predicate Printable(b: Binds) { forall id <- b :: ListPrintable(b[id]) }

  predicate ListPrintable(list: seq<Trigger>) { forall t <- list :: Valid(t) }

  /** Recognised actions and foreign entries are kept apart. */
  ghost predicate Apart(s: Store) {
    (forall id <- s.binds :: Recognised(id)) && (forall id <- s.unknown :: !Recognised(id))
  }

  // ---- what the operations do -----------------------------------------------------------------

  function ListOf(b: Binds, id: string): seq<Trigger> { if id in b then b[id] else [] }

  function WithList(b: Binds, id: string, list: seq<Trigger>): Binds {
    if list == [] then b - {id} else b[id := list]
  }

  function Without(list: seq<Trigger>, t: Trigger): seq<Trigger> {
    if list == [] then [] else if list[0] == t then list[1..] else [list[0]] + Without(list[1..], t)
  }

  function NoChords(list: seq<Trigger>): seq<Trigger> {
    if list == [] then [] else (if list[0].Key? then [] else [list[0]]) + NoChords(list[1..])
  }

  /** The store after `t` moved to `id`, taken from `victim` if some action held it. */
  function Moved(b: Binds, id: string, t: Trigger, victim: Option<string>): Binds {
    var kept := if t.Key? then NoChords(ListOf(b, id)) else ListOf(b, id);
    var left := if victim.Some? then WithList(b, victim.value, Without(ListOf(b, victim.value), t)) else b;
    left[id := kept + [t]]
  }

  function RemovedAt(b: Binds, id: string, i: nat): Binds
    requires i < |ListOf(b, id)|
  {
    WithList(b, id, b[id][..i] + b[id][i + 1..])
  }

  /** The triggers of a list that survive a load: readable, not claimed yet, one chord. */
  function Surviving(list: seq<string>, claimed: set<Trigger>, hasKey: bool): seq<Trigger> {
    if list == [] then []
    else
      match Parsed(list[0])
      case Err(_) => Surviving(list[1..], claimed, hasKey)
      case Ok(t) =>
        if t in claimed || (t.Key? && hasKey) then Surviving(list[1..], claimed, hasKey)
        else [t] + Surviving(list[1..], claimed + {t}, hasKey || t.Key?)
  }

  function Triggers(list: seq<Trigger>): set<Trigger> { set t <- list }

  datatype Loading = Loading(store: Store, claimed: set<Trigger>)

  /** One action of a load. */
  function LoadedOne(l: Loading, id: string, list: seq<string>): Loading {
    if !Recognised(id) then l.(store := l.store.(unknown := l.store.unknown[id := list]))
    else
      var out := Surviving(list, l.claimed, false);
      Loading(l.store.(binds := if out == [] then l.store.binds else l.store.binds[id := out]),
              l.claimed + Triggers(out))
  }

  function LoadedUpTo(ids: seq<string>, raw: Raw, k: nat): Loading
    requires k <= |ids| && forall id <- ids :: id in raw
  {
    if k == 0 then Loading(Store(map[], map[]), {})
    else LoadedOne(LoadedUpTo(ids, raw, k - 1), ids[k - 1], raw[ids[k - 1]])
  }

  function Texts(list: seq<Trigger>): seq<string> {
    if list == [] then [] else [Text(list[0])] + Texts(list[1..])
  }

  ghost function Snapshotted(s: Store): Raw {
    (map id <- s.binds :: Texts(s.binds[id])) + s.unknown
  }

  // ---- what the operations keep ---------------------------------------------------------------

  lemma {:induction false} CleanSnoc(list: seq<Trigger>, t: Trigger)
    requires Clean(list) && t !in list && (t.Key? ==> NoChord(list))
    ensures Clean(list + [t])
  {
    if list != [] {
      CleanSnoc(list[1..], t);
      assert (list + [t])[1..] == list[1..] + [t];
    }
  }

  lemma {:induction false} WithoutOnce(list: seq<Trigger>, t: Trigger)
    requires Clean(list) && t in list
    ensures Clean(Without(list, t)) && forall u :: u in Without(list, t) <==> u in list && u != t
  {
    if list[0] != t {
      WithoutOnce(list[1..], t);
      assert Without(list, t)[1..] == Without(list[1..], t);
    }
  }

  lemma {:induction false} NoChordsClean(list: seq<Trigger>)
    requires Clean(list)
    ensures Clean(NoChords(list)) && forall u :: u in NoChords(list) <==> u in list && !u.Key?
  {
    if list != [] {
      NoChordsClean(list[1..]);
      assert NoChords(list) == (if list[0].Key? then NoChords(list[1..]) else [list[0]] + NoChords(list[1..]));
    }
  }

  lemma {:induction false} RemoveClean(list: seq<Trigger>, i: nat)
    requires Clean(list) && i < |list|
    ensures var rest := list[..i] + list[i + 1..];
      Clean(rest) && forall u :: u in rest <==> u in list && u != list[i]
  {
    var rest := list[..i] + list[i + 1..];
    if i == 0 {
      assert rest == list[1..];
    } else {
      RemoveClean(list[1..], i - 1);
      assert list[1..][i - 1] == list[i] && list == [list[0]] + list[1..];
      assert rest == [list[0]] + rest[1..];
      assert rest[1..] == list[1..][..i - 1] + list[1..][i..];
    }
  }

  /** `victim` is the other action that holds `t`, if there is one. */
  ghost predicate IsVictim(b: Binds, id: string, t: Trigger, victim: Option<string>) {
    match victim
    case Some(v) => v != id && Holds(b, v, t)
    case None => forall other :: other != id ==> !Holds(b, other, t)
  }

  /** A steal takes one trigger from one action, a chord replaces the taker's chord, and
      nothing else changes hands. */
  lemma AddMovesOnly(b: Binds, id: string, t: Trigger, victim: Option<string>, other: string, u: Trigger)
    requires Owned(b) && !Holds(b, id, t) && IsVictim(b, id, t, victim)
    ensures Holds(Moved(b, id, t, victim), other, u) <==>
              if other == id then u == t || (Holds(b, id, u) && !(t.Key? && u.Key?))
              else Holds(b, other, u) && u != t
  {
    if other == id {
      NoChordsClean(ListOf(b, id));
    } else {
      LeftOnly(b, id, t, victim, other, u);
    }
  }

  lemma LeftOnly(b: Binds, id: string, t: Trigger, victim: Option<string>, other: string, u: Trigger)
    requires Owned(b) && IsVictim(b, id, t, victim) && other != id
    ensures Holds(Moved(b, id, t, victim), other, u) <==> Holds(b, other, u) && u != t
  {
    if victim == Some(other) {
      WithoutOnce(b[other], t);
    } else {
      if victim.Some? { assert Holds(b, victim.value, t); }
      assert !Holds(b, other, t);
      assert Holds(Moved(b, id, t, victim), other, u) <==> Holds(b, other, u);
    }
  }

  lemma AddKeeps(b: Binds, id: string, t: Trigger, victim: Option<string>)
    requires Owned(b) && !Holds(b, id, t) && IsVictim(b, id, t, victim)
    ensures Owned(Moved(b, id, t, victim))
  {
    var after := Moved(b, id, t, victim);
    NoChordsClean(ListOf(b, id));
    CleanSnoc(if t.Key? then NoChords(ListOf(b, id)) else ListOf(b, id), t);
    if victim.Some? {
      WithoutOnce(b[victim.value], t);
    }
    forall u, x, y | Holds(after, x, u) && Holds(after, y, u) ensures x == y {
      AddMovesOnly(b, id, t, victim, x, u);
      AddMovesOnly(b, id, t, victim, y, u);
    }
  }

  lemma RemoveMovesOnly(b: Binds, id: string, i: nat, other: string, u: Trigger)
    requires Owned(b) && i < |ListOf(b, id)|
    ensures Holds(RemovedAt(b, id, i), other, u) <==> Holds(b, other, u) && !(other == id && u == b[id][i])
  {
    RemoveClean(b[id], i);
  }

  lemma RemoveKeeps(b: Binds, id: string, i: nat)
    requires Owned(b) && i < |ListOf(b, id)|
    ensures Owned(RemovedAt(b, id, i))
  {
    var after := RemovedAt(b, id, i);
    RemoveClean(b[id], i);
    forall u, x, y | Holds(after, x, u) && Holds(after, y, u) ensures x == y {
      RemoveMovesOnly(b, id, i, x, u);
      RemoveMovesOnly(b, id, i, y, u);
    }
  }

  /** What survives is clean and unclaimed, and can be saved again. */
  lemma {:induction false} SurvivingClean(list: seq<string>, claimed: set<Trigger>, hasKey: bool)
    ensures var out := Surviving(list, claimed, hasKey);
      Clean(out) && ListPrintable(out) && (forall t <- out :: t !in claimed) && (hasKey ==> NoChord(out))
  {
    if list != [] {
      ParsedIsValid(list[0]);
      var rest := list[1..];
      if Parsed(list[0]).Err? {
        SurvivingClean(rest, claimed, hasKey);
      } else {
        var t := Parsed(list[0]).value;
        if t in claimed || (t.Key? && hasKey) {
          SurvivingClean(rest, claimed, hasKey);
        } else {
          SurvivingClean(rest, claimed + {t}, hasKey || t.Key?);
          assert Surviving(list, claimed, hasKey)[1..] == Surviving(rest, claimed + {t}, hasKey || t.Key?);
        }
      }
    }
  }

  /** Entry `i` spells `t`. */
  predicate Spelled(list: seq<string>, i: nat, t: Trigger) { i < |list| && Parsed(list[i]) == Ok(t) }

  /** Every unclaimed joystick trigger that some entry spells survives a load: unreadable and
      claimed entries cost nothing. */
  lemma {:induction false} JoySurvivesIff(list: seq<string>, claimed: set<Trigger>, hasKey: bool, t: Trigger)
    requires !t.Key?
    ensures t in Surviving(list, claimed, hasKey) <==> t !in claimed && exists i: nat :: Spelled(list, i, t)
  {
    if list != [] {
      var rest, p := list[1..], Parsed(list[0]);
      if i: nat :| Spelled(list, i, t) { assert i > 0 ==> Spelled(rest, i - 1, t); }
      if i: nat :| Spelled(rest, i, t) { assert Spelled(list, i + 1, t); }
      assert p == Ok(t) ==> Spelled(list, 0, t);
      if p.Err? || p.value in claimed || (p.value.Key? && hasKey) {
        JoySurvivesIff(rest, claimed, hasKey, t);
      } else {
        JoySurvivesIff(rest, claimed + {p.value}, hasKey || p.value.Key?, t);
      }
    }
  }

  /** Entry `i` spells a chord that nobody has claimed. */
  predicate FreeChord(list: seq<string>, claimed: set<Trigger>, i: nat) {
    i < |list| && Parsed(list[i]).Ok? && Parsed(list[i]).value.Key? && Parsed(list[i]).value !in claimed
  }

  /** Entry `i` is the first of them. */
  ghost predicate FirstChord(list: seq<string>, claimed: set<Trigger>, i: nat) {
    FreeChord(list, claimed, i) && forall j: nat :: j < i ==> !FreeChord(list, claimed, j)
  }

  lemma FirstChordNext(list: seq<string>, claimed: set<Trigger>, i: nat)
    requires list != []
    ensures FreeChord(list[1..], claimed, i) <==> FreeChord(list, claimed, i + 1)
    ensures FirstChord(list, claimed, i + 1) <==> FirstChord(list[1..], claimed, i) && !FreeChord(list, claimed, 0)
  {
    forall j: nat ensures FreeChord(list[1..], claimed, j) <==> FreeChord(list, claimed, j + 1) {}
    if FirstChord(list[1..], claimed, i) && !FreeChord(list, claimed, 0) {
      forall j: nat | j < i + 1 ensures !FreeChord(list, claimed, j) {
        if j > 0 { assert !FreeChord(list[1..], claimed, j - 1); }
      }
    }
    if FirstChord(list, claimed, i + 1) {
      forall j: nat | j < i ensures !FreeChord(list[1..], claimed, j) { assert !FreeChord(list, claimed, j + 1); }
    }
  }

  /** The first unclaimed chord of the list is `t`. */
  ghost predicate FirstChordIs(list: seq<string>, claimed: set<Trigger>, t: Trigger) {
    exists i: nat :: FirstChord(list, claimed, i) && Spelled(list, i, t)
  }

  lemma FirstChordBehind(list: seq<string>, claimed: set<Trigger>, t: Trigger)
    requires list != [] && !FreeChord(list, claimed, 0)
    ensures FirstChordIs(list, claimed, t) <==> FirstChordIs(list[1..], claimed, t)
  {
    if i: nat :| FirstChord(list, claimed, i) && Spelled(list, i, t) {
      FirstChordNext(list, claimed, i - 1);
      assert Spelled(list[1..], i - 1, t);
    }
    if i: nat :| FirstChord(list[1..], claimed, i) && Spelled(list[1..], i, t) {
      FirstChordNext(list, claimed, i);
      assert Spelled(list, i + 1, t);
    }
  }

  /** Claiming a joystick trigger does not matter to chords. */
  lemma FirstChordClaim(list: seq<string>, claimed: set<Trigger>, u: Trigger, t: Trigger)
    requires !u.Key?
    ensures FirstChordIs(list, claimed + {u}, t) <==> FirstChordIs(list, claimed, t)
  {
    forall i: nat ensures FreeChord(list, claimed + {u}, i) <==> FreeChord(list, claimed, i) {}
    forall i: nat ensures FirstChord(list, claimed + {u}, i) <==> FirstChord(list, claimed, i) {}
  }

  /** Of the chords, exactly the first unclaimed one survives. */
  lemma {:induction false} ChordSurvivesIff(list: seq<string>, claimed: set<Trigger>, hasKey: bool, t: Trigger)
    requires t.Key?
    ensures t in Surviving(list, claimed, hasKey) <==> !hasKey && FirstChordIs(list, claimed, t)
  {
    if list != [] {
      var rest, p := list[1..], Parsed(list[0]);
      if FreeChord(list, claimed, 0) && !hasKey {
        ChordSurvivesIff(rest, claimed + {p.value}, true, t);
        assert FirstChord(list, claimed, 0);
        assert p == Ok(t) ==> Spelled(list, 0, t);
      } else {
        if p.Err? || p.value in claimed || p.value.Key? {
          ChordSurvivesIff(rest, claimed, hasKey, t);
        } else {
          ChordSurvivesIff(rest, claimed + {p.value}, hasKey, t);
          FirstChordClaim(rest, claimed, p.value, t);
        }
        if !hasKey { FirstChordBehind(list, claimed, t); }
      }
    }
  }

  ghost predicate Claims(l: Loading) {
    forall t :: t in l.claimed <==> HeldBySome(l.store.binds, t)
  }

  ghost predicate LoadInv(l: Loading) {
    Owned(l.store.binds) && Printable(l.store.binds) && Claims(l)
  }

  lemma LoadOneKeeps(l: Loading, id: string, list: seq<string>)
    requires LoadInv(l) && id !in l.store.binds
    ensures LoadInv(LoadedOne(l, id, list))
  {
    var out := Surviving(list, l.claimed, false);
    SurvivingClean(list, l.claimed, false);
    if Recognised(id) && out != [] {
      OwnNew(l.store.binds, id, out, l.claimed);
    } else {
      assert Triggers([]) == {};
    }
  }

  /** Unclaimed triggers go to a new action. */
  lemma OwnNew(b: Binds, id: string, out: seq<Trigger>, claimed: set<Trigger>)
    requires Owned(b) && Printable(b) && id !in b && out != [] && Clean(out) && ListPrintable(out)
    requires forall t :: t in claimed <==> HeldBySome(b, t)
    requires forall t <- out :: t !in claimed
    ensures Owned(b[id := out]) && Printable(b[id := out])
    ensures forall t :: t in claimed + Triggers(out) <==> HeldBySome(b[id := out], t)
  {
    var after := b[id := out];
    forall x, t ensures Holds(after, x, t) <==> Holds(b, x, t) || (x == id && t in out) {}
    forall t ensures t in claimed + Triggers(out) <==> HeldBySome(after, t) {
      if t in claimed {
        var x :| Holds(b, x, t);
        assert Holds(after, x, t);
      }
      if t in out { assert Holds(after, id, t); }
    }
  }

  lemma {:induction false} LoadKeys(ids: seq<string>, raw: Raw, k: nat)
    requires k <= |ids| && forall id <- ids :: id in raw
    ensures LoadedUpTo(ids, raw, k).store.binds.Keys <= set id <- ids[..k]
    ensures Apart(LoadedUpTo(ids, raw, k).store)
  {
    if k > 0 {
      LoadKeys(ids, raw, k - 1);
      assert ids[..k] == ids[..k - 1] + [ids[k - 1]];
    }
  }

  lemma SortedDistinct(ids: seq<string>, s: set<string>)
    requires Order.SortedList(ids, s)
    ensures forall i, j :: 0 <= i < j < |ids| ==> ids[i] != ids[j]
  {
    forall i, j | 0 <= i < j < |ids| ensures ids[i] != ids[j] { Order.LessTotal(ids[i], ids[j]); }
  }

  lemma NotLoadedYet(ids: seq<string>, raw: Raw, k: nat)
    requires k < |ids| && Order.SortedList(ids, raw.Keys)
    ensures ids[k] in raw && ids[k] !in LoadedUpTo(ids, raw, k).store.binds
  {
    LoadKeys(ids, raw, k);
    SortedDistinct(ids, raw.Keys);
    assert ids[k] in ids && ids[k] !in ids[..k];
  }

  lemma LoadNextKeeps(ids: seq<string>, raw: Raw, k: nat)
    requires k < |ids| && Order.SortedList(ids, raw.Keys) && LoadInv(LoadedUpTo(ids, raw, k))
    ensures LoadInv(LoadedUpTo(ids, raw, k + 1))
  {
    NotLoadedYet(ids, raw, k);
    LoadOneKeeps(LoadedUpTo(ids, raw, k), ids[k], raw[ids[k]]);
  }

  /** Whatever the file says, every trigger that is loaded has one owner. */
  lemma {:induction false} LoadEstablishes(ids: seq<string>, raw: Raw, k: nat)
    requires k <= |ids| && Order.SortedList(ids, raw.Keys)
    ensures LoadInv(LoadedUpTo(ids, raw, k)) && Apart(LoadedUpTo(ids, raw, k).store)
  {
    LoadKeys(ids, raw, k);
    if k > 0 {
      LoadEstablishes(ids, raw, k - 1);
      LoadNextKeeps(ids, raw, k - 1);
    }
  }

  lemma {:induction false} WithoutAt(list: seq<Trigger>, t: Trigger, i: nat)
    requires i < |list| && list[i] == t && t !in list[..i]
    ensures Without(list, t) == list[..i] + list[i + 1..]
  {
    if i > 0 {
      assert list[0] in list[..i];
      assert list[1..][..i - 1] == list[..i][1..];
      WithoutAt(list[1..], t, i - 1);
      assert list[..i] == [list[0]] + list[1..][..i - 1];
    }
  }

  /** Changing the taker's own list does not change who else holds the trigger. */
  lemma SameVictim(b: Binds, c: Binds, id: string, t: Trigger, victim: Option<string>)
    requires b - {id} == c - {id}
    ensures IsVictim(b, id, t, victim) <==> IsVictim(c, id, t, victim)
  {
    forall other | other != id ensures Holds(b, other, t) <==> Holds(c, other, t) {
      assert other in b <==> other in b - {id};
      assert other in c <==> other in c - {id};
      assert other in b ==> b[other] == (b - {id})[other] == (c - {id})[other] == c[other];
    }
  }

  /** Taking from the victim and giving to the taker, one after the other. */
  lemma MovedInSteps(b: Binds, id: string, t: Trigger, victim: Option<string>, mid: Binds)
    requires mid == (if t.Key? then b[id := NoChords(ListOf(b, id))] else b) && (victim.Some? ==> victim.value != id)
    ensures var left := if victim.Some? then WithList(mid, victim.value, Without(ListOf(mid, victim.value), t))
                    else mid;
      left[id := ListOf(left, id) + [t]] == Moved(b, id, t, victim)
  {
  }

  lemma AddPrintable(b: Binds, id: string, t: Trigger, victim: Option<string>)
    requires Owned(b) && Printable(b) && Valid(t) && !Holds(b, id, t) && IsVictim(b, id, t, victim)
    ensures Printable(Moved(b, id, t, victim))
  {
    NoChordsClean(ListOf(b, id));
    if victim.Some? {
      WithoutOnce(b[victim.value], t);
    }
  }

  lemma ClearKeeps(b: Binds, id: string)
    requires Owned(b) && Printable(b)
    ensures Owned(b - {id}) && Printable(b - {id})
  {
    forall t, x, y | Holds(b - {id}, x, t) && Holds(b - {id}, y, t) ensures x == y {
      assert Holds(b, x, t) && Holds(b, y, t);
    }
  }

  // ---- round trip -----------------------------------------------------------------------------

  /** A readable trigger that is not claimed and no second chord survives. */
  lemma FirstSurvives(t: Trigger, rest: seq<string>, claimed: set<Trigger>, hasKey: bool)
    requires Valid(t) && t !in claimed && !(t.Key? && hasKey)
    ensures Surviving([Text(t)] + rest, claimed, hasKey) == [t] + Surviving(rest, claimed + {t}, hasKey || t.Key?)
  {
    RoundTrip(t);
    assert ([Text(t)] + rest)[1..] == rest;
  }

  lemma {:induction false} SurvivingTexts(list: seq<Trigger>, claimed: set<Trigger>, hasKey: bool)
    requires Clean(list) && ListPrintable(list) && (forall t <- list :: t !in claimed) && (hasKey ==> NoChord(list))
    ensures Surviving(Texts(list), claimed, hasKey) == list
  {
    if list != [] {
      FirstSurvives(list[0], Texts(list[1..]), claimed, hasKey);
      assert list[0] in list && forall t <- list[1..] :: t in list;
      SurvivingTexts(list[1..], claimed + {list[0]}, hasKey || list[0].Key?);
    }
  }

  /** The first `k` ids. */
  function Done(ids: seq<string>, k: nat): set<string>
    requires k <= |ids|
  {
    if k == 0 then {} else Done(ids, k - 1) + {ids[k - 1]}
  }

  lemma {:induction false} DoneHas(ids: seq<string>, k: nat, id: string)
    requires k <= |ids|
    ensures id in Done(ids, k) <==> exists i :: 0 <= i < k && ids[i] == id
  {
    if k > 0 { DoneHas(ids, k - 1, id); }
  }

  /** A load of the snapshot, after some ids, is the store cut down to those ids. */
  ghost predicate CutTo(l: Store, s: Store, ids: set<string>)
  {
    && (forall id :: id in l.binds <==> id in s.binds && id in ids)
    && (forall id :: id in l.unknown <==> id in s.unknown && id in ids)
    && (forall id <- l.binds :: l.binds[id] == s.binds[id])
    && (forall id <- l.unknown :: l.unknown[id] == s.unknown[id])
  }

  /** The list of an action that is not loaded yet survives whole. */
  lemma ReloadList(l: Loading, s: Store, ids: set<string>, id: string)
    requires Owned(s.binds) && Printable(s.binds) && id in s.binds
    requires CutTo(l.store, s, ids) && Claims(l) && id !in ids
    ensures Surviving(Texts(s.binds[id]), l.claimed, false) == s.binds[id]
  {
    forall t | t in s.binds[id] ensures t !in l.claimed {
      if x :| Holds(l.store.binds, x, t) {
        assert Holds(s.binds, x, t) && Holds(s.binds, id, t);
      }
    }
    SurvivingTexts(s.binds[id], l.claimed, false);
  }

  lemma ReloadStep(l: Loading, s: Store, raw: Raw, ids: set<string>, id: string)
    requires Owned(s.binds) && Printable(s.binds) && Apart(s)
    requires raw == Snapshotted(s) && id in raw && id !in ids
    requires CutTo(l.store, s, ids) && Claims(l)
    ensures CutTo(LoadedOne(l, id, raw[id]).store, s, ids + {id})
  {
    if id in s.binds {
      assert id !in s.unknown;
      assert raw[id] == Texts(s.binds[id]);
      ReloadList(l, s, ids, id);
    } else {
      assert raw[id] == s.unknown[id];
    }
  }

  lemma NextIsNew(ids: seq<string>, raw: Raw, k: nat)
    requires Order.SortedList(ids, raw.Keys) && k < |ids|
    ensures Claims(LoadedUpTo(ids, raw, k)) && ids[k] !in Done(ids, k) && ids[k] in raw
  {
    LoadEstablishes(ids, raw, k);
    SortedDistinct(ids, raw.Keys);
    DoneHas(ids, k, ids[k]);
    assert ids[k] in ids;
  }

  ghost predicate CutAt(s: Store, raw: Raw, ids: seq<string>, k: nat) {
    k <= |ids| && (forall id <- ids :: id in raw) && CutTo(LoadedUpTo(ids, raw, k).store, s, Done(ids, k))
  }

  ghost predicate Advances(s: Store, raw: Raw, ids: seq<string>, k: nat) {
    k < |ids| && CutAt(s, raw, ids, k) ==> CutAt(s, raw, ids, k + 1)
  }

  lemma ReloadNext(s: Store, raw: Raw, ids: seq<string>, k: nat)
    requires Owned(s.binds) && Printable(s.binds) && Apart(s)
    requires raw == Snapshotted(s) && Order.SortedList(ids, raw.Keys)
    ensures Advances(s, raw, ids, k)
  {
    if k < |ids| && CutAt(s, raw, ids, k) {
      NextIsNew(ids, raw, k);
      ReloadStep(LoadedUpTo(ids, raw, k), s, raw, Done(ids, k), ids[k]);
    }
  }

  lemma {:induction false} ReloadUpTo(s: Store, raw: Raw, ids: seq<string>, k: nat)
    requires (forall j: nat :: Advances(s, raw, ids, j)) && k <= |ids| && forall id <- ids :: id in raw
    ensures CutAt(s, raw, ids, k)
  {
    if k > 0 {
      ReloadUpTo(s, raw, ids, k - 1);
      assert Advances(s, raw, ids, k - 1);
    }
  }

  ghost function Loaded(raw: Raw, ids: seq<string>): Store
    requires Order.SortedList(ids, raw.Keys)
  {
    LoadedUpTo(ids, raw, |ids|).store
  }

  /** Saving and loading again gives the same store exactly if every bound action is one the
      loader recognises; another one's triggers would come back as a foreign entry. */
  lemma ReloadIffRecognised(s: Store, ids: seq<string>)
    requires Owned(s.binds) && Printable(s.binds) && (forall id <- s.unknown :: !Recognised(id))
    requires Order.SortedList(ids, Snapshotted(s).Keys)
    ensures Loaded(Snapshotted(s), ids) == s <==> forall id <- s.binds :: Recognised(id)
  {
    LoadKeys(ids, Snapshotted(s), |ids|);
    if forall id <- s.binds :: Recognised(id) { ReloadIsIdentity(s, Snapshotted(s), ids); }
  }

  lemma ReloadIsIdentity(s: Store, raw: Raw, ids: seq<string>)
    requires Owned(s.binds) && Printable(s.binds) && Apart(s)
    requires raw == Snapshotted(s) && Order.SortedList(ids, raw.Keys)
    ensures Loaded(raw, ids) == s
  {
    forall j: nat ensures Advances(s, raw, ids, j) { ReloadNext(s, raw, ids, j); }
    ReloadUpTo(s, raw, ids, |ids|);
    forall id ensures id in Done(ids, |ids|) <==> id in ids { DoneHas(ids, |ids|, id); }
    CutToAll(Loaded(raw, ids), s, Done(ids, |ids|));
  }

  lemma CutToAll(l: Store, s: Store, ids: set<string>)
    requires CutTo(l, s, ids) && forall id :: id in ids <==> id in s.binds.Keys + s.unknown.Keys
    ensures l == s
  {
    assert l.binds == s.binds;
    assert l.unknown == s.unknown;
  }

  // ---- the store ------------------------------------------------------------------------------

  class KeybindStore {
    var binds: Binds
    var unknown: Raw

    ghost predicate Valid()
      reads this
    {
      Owned(binds) && Printable(binds) && forall id <- unknown :: !Recognised(id)
    }

    ghost function View(): Store
      reads this
    {
      Store(binds, unknown)
    }

    constructor ()
      ensures Valid() && View() == Store(map[], map[])
    {
      binds, unknown := map[], map[];
    }

    /** The triggers of one list that nobody has claimed, with one chord at most. */
    method Keep(list: seq<string>, claimed: set<Trigger>) returns (out: seq<Trigger>)
      ensures out == Surviving(list, claimed, false)
    {
      out := [];
      var taken := claimed;
      var hasKey := false;
      assert list[0..] == list;
      for i := 0 to |list|
        invariant Surviving(list, claimed, false) == out + Surviving(list[i..], taken, hasKey)
      {
        assert list[i..][1..] == list[i + 1..];
        var parsed := Parsed(list[i]);
        if parsed.Err? {
          continue;
        }
        var t := parsed.value;
        if t in taken {
          continue;
        }
        if t.Key? {
          if hasKey {
            continue;
          }
          hasKey := true;
        }
        taken := taken + {t};
        out := out + [t];
      }
    }

    /** Actions are visited in sorted order, so the result does not depend on map order. */
    method Load(raw: Raw) returns (ghost ids: seq<string>)
      modifies this
      ensures Order.SortedList(ids, raw.Keys) && View() == Loaded(raw, ids)
      ensures Valid() && Apart(View())
    {
      var ord := Order.Sorted(raw.Keys);
      binds, unknown := map[], map[];
      var claimed: set<Trigger> := {};
      for k := 0 to |ord|
        invariant Loading(View(), claimed) == LoadedUpTo(ord, raw, k)
      {
        var id := ord[k];
        assert id in ord && id in raw;
        if !Recognised(id) {
          unknown := unknown[id := raw[id]];
        } else {
          var out := Keep(raw[id], claimed);
          claimed := claimed + Triggers(out);
          if |out| > 0 {
            binds := binds[id := out];
          }
        }
      }
      ids := ord;
      LoadEstablishes(ord, raw, |ord|);
    }

    ghost function Saved(): Raw
      reads this
      requires Valid()
    {
      Snapshotted(View())
    }

    method Snapshot() returns (raw: Raw)
      requires Valid()
      ensures raw == Saved()
    {
      raw := map[];
      var todo := binds.Keys;
      while todo != {}
        invariant todo <= binds.Keys
        invariant raw == map id <- binds | id !in todo :: Texts(binds[id])
        decreases todo
      {
        var id :| id in todo;
        todo := todo - {id};
        raw := raw[id := Texts(binds[id])];
      }
      raw := raw + unknown;
    }

    /** The other action that holds the trigger, and where in its list. */
    method Owner(id: string, t: Trigger) returns (owner: Option<string>, at: nat)
      ensures IsVictim(binds, id, t, owner)
      ensures owner.Some? ==> var list := binds[owner.value]; at < |list| && list[at] == t && t !in list[..at]
    {
      owner, at := None, 0;
      var todo := binds.Keys - {id};
      while todo != {}
        invariant todo <= binds.Keys - {id}
        invariant forall other <- binds :: other != id && other !in todo ==> t !in binds[other]
        decreases todo
      {
        var other :| other in todo;
        todo := todo - {other};
        var list := binds[other];
        for i := 0 to |list|
          invariant t !in list[..i]
        {
          if list[i] == t {
            return Some(other), i;
          }
          assert list[..i + 1] == list[..i] + [list[i]];
        }
        assert list[..|list|] == list;
      }
    }

    /** The joystick triggers of an action. */
    method Unchorded(id: string) returns (kept: seq<Trigger>)
      ensures kept == NoChords(ListOf(binds, id))
    {
      kept := [];
      var list := ListOf(binds, id);
      assert list[0..] == list;
      for i := 0 to |list|
        invariant NoChords(list) == kept + NoChords(list[i..])
      {
        assert list[i..][1..] == list[i + 1..];
        if !list[i].Key? {
          kept := kept + [list[i]];
        }
      }
    }

    /** Reports the one other action that held the trigger, if there was one. */
    method Add(id: string, t: Trigger) returns (stolen: Option<string>)
      requires Valid() && TriggerText.Valid(t)
      modifies this`binds
      ensures Valid()
      ensures old(Holds(binds, id, t)) ==> binds == old(binds) && stolen == None
      ensures !old(Holds(binds, id, t)) ==>
                IsVictim(old(binds), id, t, stolen) && binds == Moved(old(binds), id, t, stolen)
    {
      ghost var before := binds;
      if id in binds && t in binds[id] {
        return None;
      }
      if t.Key? {
        var kept := Unchorded(id);
        binds := binds[id := kept];
      }
      var at;
      stolen, at := Owner(id, t);
      SameVictim(before, binds, id, t, stolen);
      MovedInSteps(before, id, t, stolen, binds);
      if stolen.Some? {
        var list := binds[stolen.value];
        WithoutAt(list, t, at);
        binds := WithList(binds, stolen.value, list[..at] + list[at + 1..]);
      }
      binds := binds[id := ListOf(binds, id) + [t]];
      assert binds == Moved(before, id, t, stolen);
      AddKeeps(before, id, t, stolen);
      AddPrintable(before, id, t, stolen);
    }

    method RemoveAt(id: string, i: int) returns (ok: bool)
      requires Valid()
      modifies this`binds
      ensures Valid() && ok == (0 <= i < |old(ListOf(binds, id))|)
      ensures binds == if ok then RemovedAt(old(binds), id, i) else old(binds)
    {
      var list := ListOf(binds, id);
      if i < 0 || i >= |list| {
        return false;
      }
      RemoveKeeps(binds, id, i);
      binds := WithList(binds, id, list[..i] + list[i + 1..]);
      ok := true;
    }

    method Clear(id: string)
      requires Valid()
      modifies this`binds
      ensures Valid() && binds == old(binds) - {id}
    {
      ClearKeeps(binds, id);
      binds := binds - {id};
    }

    /** A bind that cannot be persisted is rolled back, the steal included; the store is as it
        was exactly if the loader recognises every action that was bound. */
    method AddPersisted(id: string, t: Trigger, persistOk: bool) returns (stolen: Option<string>)
      requires Valid() && TriggerText.Valid(t)
      modifies this
      ensures Valid()
      ensures !persistOk ==> stolen == None
      ensures !persistOk ==> (View() == old(View()) <==> forall id <- old(binds) :: Recognised(id))
      ensures persistOk && !old(Holds(binds, id, t)) ==>
                IsVictim(old(binds), id, t, stolen) && View() == old(View()).(binds := Moved(old(binds), id, t, stolen))
      ensures persistOk && old(Holds(binds, id, t)) ==> View() == old(View()) && stolen == None
    {
      ghost var start := View();
      var before := Snapshot();
      stolen := Add(id, t);
      assert Valid();
      if !persistOk {
        ghost var ids := Load(before);
        ReloadIffRecognised(start, ids);
        stolen := None;
        assert Valid();
      }
    }
  }
}
