/** Press and release edges of bindable actions, and what it means for a sequence of
    them to be well formed. Shared by every module of the push-to-talk chain. */
module Edges {

  /** A bindable action. The identifier fixes the kind: the push-to-talk actions and
      push-to-mute are hold actions, every other action fires on the press alone. */
  datatype Action =
    | GlobalPTT
    | PushToMute
    | RadioPTT(radio: nat)
    | RadioSelect(radio: nat)
    | Other(name: string)

  predicate Hold(a: Action) {
    a.GlobalPTT? || a.PushToMute? || a.RadioPTT?
  }

  /** Exactly the transmit actions and push-to-mute are held; all others fire on the press. */
  lemma HoldKinds(radio: nat, name: string)
    ensures Hold(GlobalPTT) && Hold(PushToMute) && Hold(RadioPTT(radio))
    ensures !Hold(RadioSelect(radio)) && !Hold(Other(name))
  {
  }

  datatype Edge = Pressed(id: Action) | Released(id: Action)

  /** `ord` lists every element of `s` once, in some order: how Go ranges over a map. */
  ghost predicate Enumerates(ord: seq<Action>, s: set<Action>) {
    && (forall i, j :: 0 <= i < j < |ord| ==> ord[i] != ord[j])
    && (forall x :: x in ord <==> x in s)
  }

  lemma HasElement(ord: seq<Action>)
    requires ord != []
    ensures exists x :: x in ord
  {
    assert ord[0] in ord;
  }

  /** The hold actions down after `es`, when exactly `start` were down before it. */
  ghost function After(start: set<Action>, es: seq<Edge>): set<Action> {
    if |es| == 0 then start
    else Step(After(start, es[..|es| - 1]), es[|es| - 1])
  }

  ghost function Step(down: set<Action>, e: Edge): set<Action> {
    match e
    case Pressed(id) => if Hold(id) then down + {id} else down
    case Released(id) => down - {id}
  }

  /** One edge may follow when `down` are down: a hold action is pressed only from up
      and released only from down; any other action is only ever pressed. */
  ghost predicate Fits(down: set<Action>, e: Edge) {
    match e
    case Pressed(id) => Hold(id) ==> id !in down
    case Released(id) => Hold(id) && id in down
  }

  /** Every edge of `es` fits where it stands. */
  ghost predicate Legal(start: set<Action>, es: seq<Edge>) {
    |es| == 0 ||
    (Legal(start, es[..|es| - 1]) && Fits(After(start, es[..|es| - 1]), es[|es| - 1]))
  }

  ghost predicate Covered(es: seq<Edge>, holds: set<Action>) {
    forall e :: e in es && Hold(e.id) ==> e.id in holds
  }

  lemma {:induction false} AfterConcat(start: set<Action>, a: seq<Edge>, b: seq<Edge>)
    ensures After(start, a + b) == After(After(start, a), b)
    ensures Legal(start, a + b) <==> Legal(start, a) && Legal(After(start, a), b)
  {
    if b == [] {
      assert a + b == a;
    } else {
      var n := |b| - 1;
      assert (a + b)[..|a + b| - 1] == a + b[..n];
      AfterConcat(start, a, b[..n]);
    }
  }

  lemma {:induction false} AfterSnoc(start: set<Action>, es: seq<Edge>, e: Edge)
    ensures After(start, es + [e]) == Step(After(start, es), e)
    ensures Legal(start, es + [e]) <==> Legal(start, es) && Fits(After(start, es), e)
  {
    assert (es + [e])[..|es + [e]| - 1] == es;
  }

  /** Position of the previous edge of `id` before `i`, or -1. */
  ghost function Previous(es: seq<Edge>, i: nat, id: Action): (p: int)
    requires i <= |es|
    ensures -1 <= p < i
    ensures p >= 0 ==> es[p].id == id
    ensures forall k :: p < k < i ==> es[k].id != id
  {
    if i == 0 then -1
    else if es[i - 1].id == id then i - 1
    else Previous(es, i - 1, id)
  }

  lemma {:induction false} DownMeansLastPressed(es: seq<Edge>, id: Action)
    requires Legal({}, es)
    ensures id in After({}, es) <==>
              Hold(id) && var p := Previous(es, |es|, id); p >= 0 && es[p].Pressed?
  {
    if es != [] {
      var n := |es| - 1;
      DownMeansLastPressed(es[..n], id);
      PreviousPrefix(es, n, n, id);
    }
  }

  lemma {:induction false} LegalPrefix(es: seq<Edge>, i: nat)
    requires Legal({}, es) && i < |es|
    ensures Legal({}, es[..i]) && Fits(After({}, es[..i]), es[i])
  {
    if i < |es| - 1 {
      LegalPrefix(es[..|es| - 1], i);
      assert es[..|es| - 1][..i] == es[..i];
    }
  }

  /** What a legal log means for a reader who never saw `After`: the edges of a hold
      action strictly alternate and start with a press, the other actions never get a
      release, and what is down at the end is what was pressed last. */
  lemma {:induction false} LegalAlternates(es: seq<Edge>)
    requires Legal({}, es)
    ensures forall i :: 0 <= i < |es| && !Hold(es[i].id) ==> es[i].Pressed?
    ensures forall i :: 0 <= i < |es| && Hold(es[i].id) ==>
              var p := Previous(es, i, es[i].id);
              es[i].Pressed? <==> (p < 0 || es[p].Released?)
    ensures forall id :: id in After({}, es) <==>
              Hold(id) && var p := Previous(es, |es|, id); p >= 0 && es[p].Pressed?
  {
    forall i | 0 <= i < |es|
      ensures !Hold(es[i].id) ==> es[i].Pressed?
      ensures Hold(es[i].id) ==>
                var p := Previous(es, i, es[i].id);
                es[i].Pressed? <==> (p < 0 || es[p].Released?)
    {
      LegalPrefix(es, i);
      DownMeansLastPressed(es[..i], es[i].id);
      PreviousPrefix(es, i, i, es[i].id);
    }
    forall id ensures id in After({}, es) <==>
                        Hold(id) && var p := Previous(es, |es|, id); p >= 0 && es[p].Pressed?
    {
      DownMeansLastPressed(es, id);
    }
  }

  lemma {:induction false} PreviousPrefix(es: seq<Edge>, n: nat, i: nat, id: Action)
    requires i <= n <= |es|
    ensures Previous(es, i, id) == Previous(es[..n], i, id)
  {
    if i > 0 && es[i - 1].id != id {
      PreviousPrefix(es, n, i - 1, id);
    }
  }
}
