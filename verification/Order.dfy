/** Lexicographic order on strings, as Go's `<` orders them. */
module Order {

  predicate Less(a: string, b: string) {
    b != "" && (a == "" || a[0] < b[0] || (a[0] == b[0] && Less(a[1..], b[1..])))
  }

  /** `a` and `b` agree before `i`, and there `a` ends first or has the smaller character. */
  ghost predicate SmallerAt(a: string, b: string, i: nat) {
    i <= |a| && i < |b| && (forall k :: 0 <= k < i ==> a[k] == b[k]) && (i == |a| || a[i] < b[i])
  }

  lemma {:induction false} LessIff(a: string, b: string)
    ensures Less(a, b) <==> exists i: nat :: SmallerAt(a, b, i)
  {
    if a != "" && b != "" && a[0] == b[0] {
      LessIff(a[1..], b[1..]);
      forall i: nat ensures SmallerAt(a[1..], b[1..], i) <==> SmallerAt(a, b, i + 1) { SmallerNext(a, b, i); }
      if i: nat :| SmallerAt(a, b, i) { assert i > 0 && SmallerAt(a[1..], b[1..], i - 1); }
    } else {
      assert SmallerAt(a, b, 0) <==> Less(a, b);
    }
  }

  lemma SmallerNext(a: string, b: string, i: nat)
    requires a != "" && b != "" && a[0] == b[0]
    ensures SmallerAt(a[1..], b[1..], i) <==> SmallerAt(a, b, i + 1)
  {
    if SmallerAt(a[1..], b[1..], i) {
      forall k | 0 <= k < i + 1 ensures a[k] == b[k] {
        if k > 0 { assert a[1..][k - 1] == b[1..][k - 1]; }
      }
    }
  }

  lemma {:induction false} LessTotal(a: string, b: string)
    ensures a == b || Less(a, b) || Less(b, a)
    ensures !(Less(a, b) && Less(b, a)) && (a == b ==> !Less(a, b))
  {
    if a != "" && b != "" {
      LessTotal(a[1..], b[1..]);
      assert a == [a[0]] + a[1..] && b == [b[0]] + b[1..];
    }
  }

  lemma {:induction false} LessTransitive(a: string, b: string, c: string)
    requires Less(a, b) && Less(b, c)
    ensures Less(a, c)
  {
    if a != "" && a[0] == b[0] && b[0] == c[0] {
      LessTransitive(a[1..], b[1..], c[1..]);
    }
  }

  /** `ord` lists `s` once each, in order. */
  ghost predicate SortedList(ord: seq<string>, s: set<string>) {
    && (forall i, j :: 0 <= i < j < |ord| ==> Less(ord[i], ord[j]))
    && (forall x :: x in ord <==> x in s)
  }

  /** A set has one sorted listing, so what is computed from it does not depend on map order. */
  lemma {:induction false} SortedListUnique(a: seq<string>, b: seq<string>, s: set<string>)
    requires SortedList(a, s) && SortedList(b, s)
    ensures a == b
  {
    EmptyIff(a, s);
    EmptyIff(b, s);
    if a != [] {
      FirstIsLeast(a, s, b[0]);
      FirstIsLeast(b, s, a[0]);
      LessTotal(a[0], b[0]);
      TailSorted(a, s);
      TailSorted(b, s);
      SortedListUnique(a[1..], b[1..], s - {a[0]});
    }
  }

  lemma EmptyIff(a: seq<string>, s: set<string>)
    requires SortedList(a, s)
    ensures a == [] <==> s == {}
  {
    if a != [] { assert a[0] in s; }
  }

  lemma FirstIsLeast(a: seq<string>, s: set<string>, x: string)
    requires a != [] && SortedList(a, s) && x in s
    ensures a[0] == x || Less(a[0], x)
  {
    var i :| 0 <= i < |a| && a[i] == x;
  }

  lemma TailSorted(a: seq<string>, s: set<string>)
    requires a != [] && SortedList(a, s)
    ensures SortedList(a[1..], s - {a[0]})
  {
    forall x | x in a[1..] ensures x in s && x != a[0] {
      var i :| 0 <= i < |a[1..]| && a[1..][i] == x;
      assert a[i + 1] == x;
      LessTotal(a[0], a[i + 1]);
    }
  }

  method Least(s: set<string>) returns (m: string)
    requires s != {}
    ensures m in s && forall x :: x in s && x != m ==> Less(m, x)
  {
    m :| m in s;
    var todo := s - {m};
    while todo != {}
      invariant todo <= s && m in s && m !in todo
      invariant forall x :: x in s - todo && x != m ==> Less(m, x)
      decreases |todo|
    {
      var y :| y in todo;
      todo := todo - {y};
      LessTotal(m, y);
      if Less(y, m) {
        forall x | x in s - todo && x != y ensures Less(y, x) {
          if x != m { LessTransitive(y, m, x); }
        }
        m := y;
      }
    }
  }

  method Sorted(s: set<string>) returns (ord: seq<string>)
    ensures SortedList(ord, s)
  {
    ord := [];
    var todo := s;
    while todo != {}
      invariant todo <= s && SortedList(ord, s - todo)
      invariant forall i, x :: 0 <= i < |ord| && x in todo ==> Less(ord[i], x)
      decreases |todo|
    {
      var m := Least(todo);
      todo := todo - {m};
      ghost var before := ord;
      ord := ord + [m];
      forall i, x | 0 <= i < |ord| && x in todo ensures Less(ord[i], x) {
        if i < |before| { assert ord[i] == before[i]; }
      }
    }
  }
}
