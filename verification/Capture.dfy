/** Binding capture: the inputs pressed after arming, in order, completed when all of
    them are released again. */
module Capture {
  import opened Wrappers
  import opened Resolve
  import opened Order

  // ---- hat directions ----------------------------------------------------------------

  const HAT_BASE := 128
  const HAT_DIRS := 8

  predicate IsHat(b: Input) { b.button >= HAT_BASE }

  function HatIndex(b: Input): nat
    requires IsHat(b)
  {
    (b.button - HAT_BASE) / HAT_DIRS
  }

  function HatDir(b: Input): nat
    requires IsHat(b)
  {
    (b.button - HAT_BASE) % HAT_DIRS
  }

  function HatButton(hat: nat, dir: nat): nat {
    HAT_BASE + hat * HAT_DIRS + dir
  }

  /** The two cardinals either side of the diagonal `d`; a cardinal claims nothing. */
  function Adjacent(d: Input): set<Input> {
    if !IsHat(d) || HatDir(d) % 2 == 0 then {}
    else {
      Input(d.device, HatButton(HatIndex(d), (HatDir(d) + 7) % 8)),
      Input(d.device, HatButton(HatIndex(d), (HatDir(d) + 1) % 8))
    }
  }

  /** A diagonal held in the same sample covers `b`. */
  ghost predicate Covered(b: Input, held: set<Input>) {
    exists d :: d in held && b in Adjacent(d)
  }

  /** A diagonal covers cardinals of its own hat only, and never itself or a diagonal. */
  lemma AdjacentAreCardinals(d: Input, b: Input)
    requires b in Adjacent(d)
    ensures IsHat(b) && b.device == d.device && HatIndex(b) == HatIndex(d) && HatDir(b) % 2 == 0 && Adjacent(b) == {}
  {
  }

  /** Directions are numbered clockwise from up, eight a hat. A diagonal covers the cardinal on
      either side of it; a cardinal and a plain button cover nothing. */
  lemma DiagonalCovers(device: string, hat: nat, dir: nat, plain: nat)
    requires dir < 8 && plain < 128
    ensures var at := 128 + 8 * hat;
      Adjacent(Input(device, at + dir)) ==
        match dir
        case 1 => {Input(device, at), Input(device, at + 2)}
        case 3 => {Input(device, at + 2), Input(device, at + 4)}
        case 5 => {Input(device, at + 4), Input(device, at + 6)}
        case 7 => {Input(device, at + 6), Input(device, at)}
        case _ => {}
    ensures Adjacent(Input(device, plain)) == {}
  {
    assert (8 * hat + dir) / 8 == hat && (8 * hat + dir) % 8 == dir;
  }

  // ---- one sample --------------------------------------------------------------------

  predicate Before(a: Input, b: Input) {
    Less(a.device, b.device) || (a.device == b.device && a.button < b.button)
  }

  datatype State = State(baseline: Option<set<Input>>, order: seq<Input>)

  const ARMED := State(None, [])

  datatype Captured = Captured(main: Input, modifier: Option<Input>)

  ghost function Fresh(s: State, held: set<Input>): set<Input>
    requires s.baseline.Some?
  {
    set b | b in held && b !in s.baseline.value && b !in s.order && !Covered(b, held)
  }

  ghost predicate SortedInputs(ord: seq<Input>, s: set<Input>) {
    && (forall i, j :: 0 <= i < j < |ord| ==> Before(ord[i], ord[j]))
    && (forall x :: x in ord <==> x in s)
  }

  ghost predicate Enabled(s: State, held: set<Input>, added: seq<Input>) {
    if s.baseline.None? then added == []
    else SortedInputs(added, Fresh(s.(baseline := Some(s.baseline.value * held)), held))
  }

  ghost function Next(s: State, held: set<Input>, added: seq<Input>): State {
    if s.baseline.None? then s.(baseline := Some(held))
    else State(Some(s.baseline.value * held), s.order + added)
  }

  ghost predicate Complete(s: State, held: set<Input>) {
    s.order != [] && forall b :: b in s.order ==> b !in held
  }

  function Result(order: seq<Input>): Captured
    requires order != []
  {
    Captured(order[|order| - 1], if |order| > 1 then Some(order[0]) else None)
  }

  class CaptureState {
    var baseline: Option<set<Input>>
    var order: seq<Input>
    var seen: set<Input>

    ghost function View(): State
      reads this
    {
      State(baseline, order)
    }

    ghost predicate Valid()
      reads this
    {
      seen == set b | b in order
    }

    constructor ()
      ensures Valid() && View() == ARMED
    {
      baseline, order, seen := None, [], {};
    }

    method Feed(held: set<Input>) returns (done: Option<Captured>, ghost added: seq<Input>)
      requires Valid()
      modifies this
      ensures Valid()
      ensures Enabled(old(View()), held, added) && View() == Next(old(View()), held, added)
      ensures done == if old(baseline).Some? && Complete(View(), held) then Some(Result(order)) else None
    {
      if baseline.None? {
        baseline := Some(held);
        return None, [];
      }
      baseline := Some(baseline.value * held);
      var candidates := set b | b in held && b !in baseline.value && b !in seen;
      candidates := Suppress(candidates, held);
      assert candidates == Fresh(View(), held);
      var sorted := SortInputs(candidates);
      added := sorted;
      order := order + sorted;
      seen := seen + candidates;
      if order == [] {
        return None, added;
      }
      for i := 0 to |order|
        invariant forall j :: 0 <= j < i ==> order[j] !in held
      {
        if order[i] in held {
          return None, added;
        }
      }
      done := Some(Result(order));
    }
  }

  method Suppress(added: set<Input>, held: set<Input>) returns (out: set<Input>)
    ensures out == set b | b in added && !Covered(b, held)
  {
    var drop: set<Input> := {};
    var todo := held;
    while todo != {}
      invariant todo <= held
      invariant forall b :: b in drop <==> exists d :: d in held - todo && b in Adjacent(d)
      decreases |todo|
    {
      var d :| d in todo;
      todo := todo - {d};
      drop := drop + Adjacent(d);
    }
    assert held - todo == held;
    out := added - drop;
  }

  lemma BeforeOrder(a: Input, b: Input, c: Input)
    ensures a == b || Before(a, b) || Before(b, a)
    ensures Before(a, b) && Before(b, c) ==> Before(a, c)
    ensures a == b ==> !Before(a, b)
  {
    LessTotal(a.device, b.device);
    if Less(a.device, b.device) && Less(b.device, c.device) {
      LessTransitive(a.device, b.device, c.device);
    }
  }

  method SortInputs(s: set<Input>) returns (ord: seq<Input>)
    ensures SortedInputs(ord, s)
  {
    ord := [];
    var todo := s;
    while todo != {}
      invariant todo <= s && SortedInputs(ord, s - todo)
      invariant forall i, x :: 0 <= i < |ord| && x in todo ==> Before(ord[i], x)
      decreases |todo|
    {
      var m := LeastInput(todo);
      todo := todo - {m};
      ghost var before := ord;
      ord := ord + [m];
      forall i, x | 0 <= i < |ord| && x in todo ensures Before(ord[i], x) {
        if i < |before| { assert ord[i] == before[i]; }
      }
    }
  }

  method LeastInput(s: set<Input>) returns (m: Input)
    requires s != {}
    ensures m in s && forall x :: x in s && x != m ==> Before(m, x)
  {
    m :| m in s;
    var todo := s - {m};
    while todo != {}
      invariant todo <= s && m in s && m !in todo
      invariant forall x :: x in s - todo && x != m ==> Before(m, x)
      decreases |todo|
    {
      var y :| y in todo;
      todo := todo - {y};
      BeforeOrder(m, y, y);
      if Before(y, m) {
        forall x | x in s - todo && x != y ensures Before(y, x) {
          BeforeOrder(y, m, x);
        }
        m := y;
      }
    }
  }

  // ---- every capture -----------------------------------------------------------------

  /** `b` counts as pressed at sample `j`: it is down, it was up at an earlier sample since
      arming, and no diagonal held with it covers it. */
  ghost predicate PressedAt(samples: seq<set<Input>>, j: nat, b: Input)
    requires j < |samples|
  {
    b in samples[j] && !Covered(b, samples[j]) && exists i :: 0 <= i < j && b !in samples[i]
  }

  ghost predicate PressedBy(samples: seq<set<Input>>, b: Input) {
    exists j :: 0 <= j < |samples| && PressedAt(samples, j, b)
  }

  /** Whenever `b` counts as pressed, `a` already does or did. */
  ghost predicate NoLater(samples: seq<set<Input>>, a: Input, b: Input) {
    forall j :: 0 <= j < |samples| && PressedAt(samples, j, b) ==>
      exists i :: 0 <= i <= j && PressedAt(samples, i, a)
  }

  /** A sequence of samples fed since arming, with the order the manager built. */
  ghost predicate Run(samples: seq<set<Input>>, s: State) {
    if |samples| == 0 then s == ARMED
    else
      var n := |samples| - 1;
      exists t, added :: Run(samples[..n], t) && Enabled(t, samples[n], added) && s == Next(t, samples[n], added)
  }

  ghost predicate Inv(samples: seq<set<Input>>, s: State) {
    && (samples == [] ==> s == ARMED)
    && (samples != [] ==> s.baseline.Some?)
    && (s.baseline.Some? ==>
          forall b :: b in s.baseline.value <==> (forall i :: 0 <= i < |samples| ==> b in samples[i]))
    && (forall b :: b in s.order <==> PressedBy(samples, b))
    && (forall i, j :: 0 <= i < j < |s.order| ==> s.order[i] != s.order[j])
    && (forall p, q :: 0 <= p < q < |s.order| ==> NoLater(samples, s.order[p], s.order[q]))
  }

  lemma PressedPrefix(samples: seq<set<Input>>, held: set<Input>, b: Input)
    ensures var longer := samples + [held];
      && (forall j :: 0 <= j < |samples| ==> (PressedAt(longer, j, b) <==> PressedAt(samples, j, b)))
      && (PressedBy(longer, b) <==> PressedBy(samples, b) || PressedAt(longer, |samples|, b))
  {
    var longer := samples + [held];
    forall j | 0 <= j < |samples| ensures PressedAt(longer, j, b) <==> PressedAt(samples, j, b) {
      if PressedAt(samples, j, b) {
        var i :| 0 <= i < j && b !in samples[i];
        assert b !in longer[i];
      }
      if PressedAt(longer, j, b) {
        var i :| 0 <= i < j && b !in longer[i];
        assert b !in samples[i];
      }
    }
    if PressedBy(samples, b) {
      var j :| 0 <= j < |samples| && PressedAt(samples, j, b);
      assert PressedAt(longer, j, b);
    }
    if PressedBy(longer, b) && !PressedAt(longer, |samples|, b) {
      var j :| 0 <= j < |longer| && PressedAt(longer, j, b);
      assert PressedAt(samples, j, b);
    }
  }

  /** An input is fresh exactly when this sample is its first press since arming. */
  lemma FreshIsFirstPress(samples: seq<set<Input>>, s: State, held: set<Input>, b: Input)
    requires Inv(samples, s) && samples != []
    ensures b in Fresh(s.(baseline := Some(s.baseline.value * held)), held) <==>
              PressedAt(samples + [held], |samples|, b) && !PressedBy(samples, b)
  {
    var longer := samples + [held];
    if PressedAt(longer, |samples|, b) {
      var i :| 0 <= i < |samples| && b !in longer[i];
      assert b !in samples[i];
    }
    if b in held && b !in s.baseline.value {
      var i :| 0 <= i < |samples| && b !in samples[i];
      assert b !in longer[i];
    }
  }

  lemma StepKeepsOrder(samples: seq<set<Input>>, s: State, held: set<Input>, added: seq<Input>)
    requires Inv(samples, s) && samples != [] && Enabled(s, held, added)
    ensures forall b :: b in s.order + added <==> PressedBy(samples + [held], b)
    ensures forall i, j :: 0 <= i < j < |s.order + added| ==> (s.order + added)[i] != (s.order + added)[j]
  {
    forall b ensures b in s.order + added <==> PressedBy(samples + [held], b) {
      FreshIsFirstPress(samples, s, held, b);
      PressedPrefix(samples, held, b);
    }
    var order := s.order + added;
    forall i, j | 0 <= i < j < |order| ensures order[i] != order[j] {
      if |s.order| <= i {
        assert order[i] == added[i - |s.order|] && order[j] == added[j - |s.order|];
        BeforeOrder(order[i], order[j], order[j]);
      } else if |s.order| <= j {
        assert order[j] in added && order[i] in s.order;
      }
    }
  }

  lemma StepKeepsInv(samples: seq<set<Input>>, s: State, held: set<Input>, added: seq<Input>)
    requires Inv(samples, s) && Enabled(s, held, added)
    ensures Inv(samples + [held], Next(s, held, added))
  {
    var longer := samples + [held];
    var t := Next(s, held, added);
    if samples == [] {
      assert longer[0] == held;
      forall b ensures !PressedBy(longer, b) {}
    } else {
      StepKeepsOrder(samples, s, held, added);
      forall b ensures b in t.baseline.value <==> (forall i :: 0 <= i < |longer| ==> b in longer[i]) {
        if forall i :: 0 <= i < |longer| ==> b in longer[i] {
          assert b in longer[|samples|];
          forall i | 0 <= i < |samples| ensures b in samples[i] { assert b in longer[i]; }
        }
      }
      forall p, q | 0 <= p < q < |t.order| ensures NoLater(longer, t.order[p], t.order[q]) {
        forall j | 0 <= j < |longer| && PressedAt(longer, j, t.order[q])
          ensures exists i :: 0 <= i <= j && PressedAt(longer, i, t.order[p])
        {
          EarlierPressedFirst(samples, s, held, added, p, q, j);
        }
      }
    }
  }

  lemma EarlierPressedFirst(samples: seq<set<Input>>, s: State, held: set<Input>, added: seq<Input>,
                            p: nat, q: nat, j: nat)
    requires Inv(samples, s) && samples != [] && Enabled(s, held, added)
    requires p < q < |s.order + added| && j <= |samples|
    requires PressedAt(samples + [held], j, (s.order + added)[q])
    ensures exists i :: 0 <= i <= j && PressedAt(samples + [held], i, (s.order + added)[p])
  {
    var order := s.order + added;
    var longer := samples + [held];
    PressedPrefix(samples, held, order[p]);
    PressedPrefix(samples, held, order[q]);
    if q < |s.order| {
      if j < |samples| {
        assert NoLater(samples, s.order[p], s.order[q]);
        var i :| 0 <= i <= j && PressedAt(samples, i, s.order[p]);
        assert PressedAt(longer, i, order[p]);
      } else {
        assert order[p] in s.order;
        var i :| 0 <= i < |samples| && PressedAt(samples, i, order[p]);
        assert PressedAt(longer, i, order[p]);
      }
    } else {
      assert order[q] in added;
      FreshIsFirstPress(samples, s, held, order[q]);
      assert j == |samples|;
      StepKeepsOrder(samples, s, held, added);
      assert order[p] in order;
    }
  }

  lemma {:induction false} RunKeepsInv(samples: seq<set<Input>>, s: State)
    requires Run(samples, s)
    ensures Inv(samples, s)
  {
    if |samples| > 0 {
      var n := |samples| - 1;
      var t, added :| Run(samples[..n], t) && Enabled(t, samples[n], added) && s == Next(t, samples[n], added);
      RunKeepsInv(samples[..n], t);
      StepKeepsInv(samples[..n], t, samples[n], added);
      assert samples == samples[..n] + [samples[n]];
    }
  }

  /** The first and last inputs of the order bound all others in time. */
  lemma OrderBounds(samples: seq<set<Input>>, s: State)
    requires Inv(samples, s) && s.order != []
    ensures forall b :: PressedBy(samples, b) ==> NoLater(samples, b, s.order[|s.order| - 1])
    ensures forall b :: PressedBy(samples, b) ==> NoLater(samples, s.order[0], b)
  {
    forall b | PressedBy(samples, b)
      ensures NoLater(samples, b, s.order[|s.order| - 1]) && NoLater(samples, s.order[0], b)
    {
      BetweenFirstAndLast(samples, s, b);
    }
  }

  lemma NeverPressedIsNoLater(samples: seq<set<Input>>, a: Input, b: Input)
    requires !PressedBy(samples, b)
    ensures NoLater(samples, a, b)
  {
  }

  /** A completed capture: every input was seen up and then down since arming, all of them
      are up again, the modifier was down no later than any of them, the main input first
      went down no earlier, the two differ, and there is no modifier exactly when a single
      input was pressed. */
  lemma CaptureMeansPressed(samples: seq<set<Input>>, s: State)
    requires samples != [] && Run(samples, s) && Complete(s, samples[|samples| - 1])
    ensures var r := Result(s.order);
      && PressedBy(samples, r.main)
      && (forall b :: PressedBy(samples, b) ==> b !in samples[|samples| - 1])
      && (r.modifier.None? <==> forall b :: PressedBy(samples, b) ==> b == r.main)
      && (forall b :: PressedBy(samples, b) ==> NoLater(samples, b, r.main))
      && (r.modifier.Some? ==>
            && r.modifier.value != r.main && PressedBy(samples, r.modifier.value)
            && forall b :: NoLater(samples, r.modifier.value, b))
  {
    RunKeepsInv(samples, s);
    OrderBounds(samples, s);
    var pressed := iset b | PressedBy(samples, b);
    assert forall b :: b in s.order <==> b in pressed;
    EndsOfOrder(s.order, pressed);
    forall b ensures NoLater(samples, s.order[0], b) {
      if !PressedBy(samples, b) { NeverPressedIsNoLater(samples, s.order[0], b); }
    }
    assert forall b :: b in pressed <==> PressedBy(samples, b);
  }

  /** A capture completes exactly when something was pressed since arming and all of it is up. */
  lemma CompletesIff(samples: seq<set<Input>>, s: State)
    requires samples != [] && Run(samples, s)
    ensures Complete(s, samples[|samples| - 1]) <==>
      && (exists b :: PressedBy(samples, b))
      && (forall b :: PressedBy(samples, b) ==> b !in samples[|samples| - 1])
  {
    RunKeepsInv(samples, s);
    if s.order != [] {
      assert s.order[0] in s.order;
      assert PressedBy(samples, s.order[0]);
    }
  }

  /** Main and modifier are the two ends of the order; they coincide for a single input. */
  lemma EndsOfOrder(order: seq<Input>, pressed: iset<Input>)
    requires order != [] && (forall b :: b in order <==> b in pressed)
    requires forall i, j :: 0 <= i < j < |order| ==> order[i] != order[j]
    ensures var r := Result(order);
      && r.main in pressed && (r.modifier.Some? ==> r.modifier.value in pressed && r.modifier.value != r.main)
      && (r.modifier.None? <==> forall b :: b in pressed ==> b == r.main)
  {
    assert order[0] in order && order[|order| - 1] in order;
  }

  lemma BetweenFirstAndLast(samples: seq<set<Input>>, s: State, b: Input)
    requires Inv(samples, s) && PressedBy(samples, b)
    ensures s.order != [] && NoLater(samples, s.order[0], b) && NoLater(samples, b, s.order[|s.order| - 1])
  {
    assert b in s.order;
    var n := |s.order|;
    var q :| 0 <= q < n && s.order[q] == b;
    if q > 0 { assert NoLater(samples, s.order[0], s.order[q]); }
    if q < n - 1 { assert NoLater(samples, s.order[q], s.order[n - 1]); }
  }
}
