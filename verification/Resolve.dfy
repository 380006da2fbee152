/** Which actions a joystick sample holds, given the bindings: a modifier combination
    that is fully held takes its buttons away from bare bindings. */
module Resolve {
  import opened Wrappers
  import opened Edges

  /** One physical button or hat direction of one device. */
  datatype Input = Input(device: string, button: nat)

  datatype Binding = Binding(main: Input, modifier: Option<Input>, hold: bool)

  type Bindings = map<Action, seq<Binding>>

  predicate Satisfied(b: Binding, held: set<Input>) {
    b.main in held && (b.modifier.Some? ==> b.modifier.value in held)
  }

  /** `x` belongs to a fully held modifier combination. */
  ghost predicate Claimed(binds: Bindings, held: set<Input>, x: Input) {
    exists id, b :: id in binds && b in binds[id] && Satisfied(b, held) && b.modifier.Some?
                    && (x == b.main || x == b.modifier.value)
  }

  ghost predicate Effective(binds: Bindings, held: set<Input>, b: Binding) {
    Satisfied(b, held) && (b.modifier.None? ==> !Claimed(binds, held, b.main))
  }

  ghost function Active(binds: Bindings, held: set<Input>): set<Action> {
    set id | id in binds && exists b :: b in binds[id] && Effective(binds, held, b)
  }

  /** The three passes over the binding table, whatever order the map is visited in. */
  method ComputeActive(binds: Bindings, held: set<Input>) returns (out: set<Action>)
    ensures out == Active(binds, held)
  {
    // Pass 1: everything whose buttons are all held.
    var satisfied: seq<(Action, Binding)> := [];
    var todo := binds.Keys;
    while todo != {}
      invariant todo <= binds.Keys
      invariant forall p :: p in satisfied <==>
                  p.0 in binds.Keys - todo && p.1 in binds[p.0] && Satisfied(p.1, held)
      decreases |todo|
    {
      var id :| id in todo;
      todo := todo - {id};
      ghost var before := satisfied;
      for i := 0 to |binds[id]|
        invariant forall p :: p in satisfied <==>
                    p in before || (p.0 == id && p.1 in binds[id][..i] && Satisfied(p.1, held))
      {
        if Satisfied(binds[id][i], held) {
          satisfied := satisfied + [(id, binds[id][i])];
        }
        assert binds[id][..i + 1] == binds[id][..i] + [binds[id][i]];
      }
      assert binds[id][..|binds[id]|] == binds[id];
    }
    // Pass 2: the buttons claimed by a satisfied modifier combination.
    var claimed: set<Input> := {};
    for i := 0 to |satisfied|
      invariant forall x :: x in claimed <==>
                  exists j :: 0 <= j < i && satisfied[j].1.modifier.Some?
                              && (x == satisfied[j].1.main || x == satisfied[j].1.modifier.value)
    {
      var b := satisfied[i].1;
      if b.modifier.Some? {
        claimed := claimed + {b.main, b.modifier.value};
      }
    }
    forall x ensures x in claimed <==> Claimed(binds, held, x) {
      if x in claimed {
        var j :| 0 <= j < |satisfied| && satisfied[j].1.modifier.Some?
                 && (x == satisfied[j].1.main || x == satisfied[j].1.modifier.value);
        assert satisfied[j] in satisfied;
      }
      if Claimed(binds, held, x) {
        var id, b :| id in binds && b in binds[id] && Satisfied(b, held) && b.modifier.Some?
                     && (x == b.main || x == b.modifier.value);
        assert (id, b) in satisfied;
      }
    }
    // Pass 3: drop suppressed bare bindings, fold the rest to actions.
    out := {};
    for i := 0 to |satisfied|
      invariant forall id :: id in out <==>
                  exists j :: 0 <= j < i && satisfied[j].0 == id && Effective(binds, held, satisfied[j].1)
    {
      var (id, b) := satisfied[i];
      assert satisfied[i] in satisfied;
      if b.modifier.Some? || b.main !in claimed {
        out := out + {id};
      }
    }
    forall id ensures id in out <==> id in Active(binds, held) {
      if id in out {
        var j :| 0 <= j < |satisfied| && satisfied[j].0 == id && Effective(binds, held, satisfied[j].1);
        assert satisfied[j] in satisfied;
      }
      if id in Active(binds, held) {
        var b :| b in binds[id] && Effective(binds, held, b);
        assert (id, b) in satisfied;
      }
    }
  }

  /** A modifier combination that is fully held. */
  ghost predicate Combination(binds: Bindings, held: set<Input>, c: Binding) {
    && c.modifier.Some? && c.main in held && c.modifier.value in held
    && exists id :: id in binds && c in binds[id]
  }

  /** Exactly which actions are active: those with a held combination of their own, and those
      with a held bare button that is part of no held combination, anyone's. */
  lemma ActiveIff(binds: Bindings, held: set<Input>, id: Action)
    ensures id in Active(binds, held) <==>
      id in binds &&
      exists b :: b in binds[id] && b.main in held &&
                  (if b.modifier.Some? then b.modifier.value in held
                   else forall c :: Combination(binds, held, c) ==> b.main != c.main && b.main != c.modifier.value)
  {
    if id in binds {
      forall b | b in binds[id]
        ensures Effective(binds, held, b) <==>
          b.main in held &&
          (if b.modifier.Some? then b.modifier.value in held
           else forall c :: Combination(binds, held, c) ==> b.main != c.main && b.main != c.modifier.value)
      {
        ClaimedIsPart(binds, held, b.main);
      }
    }
  }

  lemma ClaimedIsPart(binds: Bindings, held: set<Input>, x: Input)
    ensures Claimed(binds, held, x) <==>
      exists c :: Combination(binds, held, c) && (x == c.main || x == c.modifier.value)
  {
    if Claimed(binds, held, x) {
      var id, b :| id in binds && b in binds[id] && Satisfied(b, held) && b.modifier.Some?
                   && (x == b.main || x == b.modifier.value);
      assert Combination(binds, held, b);
    }
    if c :| Combination(binds, held, c) && (x == c.main || x == c.modifier.value) {
      var id :| id in binds && c in binds[id];
      assert Satisfied(c, held);
    }
  }

  /** Suppression is local: a held bare button outside every held combination fires. */
  lemma BareOutsideFires(binds: Bindings, held: set<Input>, id: Action, b: Binding)
    requires id in binds && b in binds[id] && b.modifier.None? && b.main in held
    requires forall c :: Combination(binds, held, c) ==> b.main !in {c.main, c.modifier.value}
    ensures id in Active(binds, held)
  {
    ActiveIff(binds, held, id);
  }

  /** Suppression never silences everything: if any trigger is satisfied, some action is active. */
  lemma SomethingFires(binds: Bindings, held: set<Input>, id: Action, b: Binding)
    requires id in binds && b in binds[id] && Satisfied(b, held)
    ensures Active(binds, held) != {}
  {
    if Effective(binds, held, b) {
      assert id in Active(binds, held);
    } else {
      var id2, c :| id2 in binds && c in binds[id2] && Satisfied(c, held) && c.modifier.Some?
                    && (b.main == c.main || b.main == c.modifier.value);
      assert Effective(binds, held, c);
      assert id2 in Active(binds, held);
    }
  }

  /** The more specific binding wins, and only it: an action all of whose triggers are
      bare buttons of one held combination stays silent while the combination fires. */
  lemma CombinationWins(binds: Bindings, held: set<Input>, winner: Action, c: Binding, loser: Action)
    requires winner in binds && c in binds[winner] && c.modifier.Some? && Satisfied(c, held)
    requires loser in binds
    requires forall b :: b in binds[loser] ==> b.modifier.None? && b.main in {c.main, c.modifier.value}
    ensures winner in Active(binds, held) && loser !in Active(binds, held)
  {
    assert Effective(binds, held, c);
    forall b | b in binds[loser] ensures !Effective(binds, held, b) {
      assert Claimed(binds, held, b.main);
    }
  }

  /** Without a satisfied modifier combination nothing is suppressed: an action is
      active exactly when one of its triggers is satisfied. */
  lemma NoModifierNoSuppression(binds: Bindings, held: set<Input>, id: Action)
    requires id in binds
    requires forall a, b :: a in binds && b in binds[a] && b.modifier.Some? ==> !Satisfied(b, held)
    ensures id in Active(binds, held) <==> exists b :: b in binds[id] && Satisfied(b, held)
  {
    forall x ensures !Claimed(binds, held, x) {}
    if b :| b in binds[id] && Satisfied(b, held) {
      assert Effective(binds, held, b);
    }
  }
}
