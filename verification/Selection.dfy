/**
 Session affinity (`internal/proxy/affinity.go`): rendezvous order of the providers of a route.
 */
module Selection {
  import opened Text
  import opened Dispatch

  // ---------------------------------------------------------------------------------------
  // Rendezvous order
  // ---------------------------------------------------------------------------------------

  /** Higher score first, ties by name. The score of a session key and a name is any function. */
  predicate Before(score: Str -> nat, p: RouteProvider, q: RouteProvider) {
    score(p.name) > score(q.name) || (score(p.name) == score(q.name) && Less(p.name, q.name))
  }

  predicate Sorted(score: Str -> nat, s: seq<RouteProvider>) {
    forall i, j :: 0 <= i < j < |s| ==> !Before(score, s[j], s[i])
  }

  lemma BeforeOrders(score: Str -> nat, p: RouteProvider, q: RouteProvider)
    ensures !(Before(score, p, q) && Before(score, q, p))
    ensures p.name != q.name ==> Before(score, p, q) || Before(score, q, p)
    ensures p.name == q.name ==> !Before(score, p, q)
  {
    LessTotal(p.name, q.name);
  }

  /** Not-before is transitive: the comparison is a weak order. */
  lemma NotBeforeTransitive(score: Str -> nat, p: RouteProvider, q: RouteProvider, r: RouteProvider)
    requires !Before(score, q, p) && !Before(score, r, q)
    ensures !Before(score, r, p)
  {
    if Before(score, r, p) {
      LessTotal(p.name, q.name);
      LessTotal(q.name, r.name);
      LessTotal(p.name, r.name);
      if Less(p.name, q.name) && Less(q.name, r.name) {
        LessTransitive(p.name, q.name, r.name);
      }
    }
  }

  function Insert(score: Str -> nat, p: RouteProvider, s: seq<RouteProvider>): seq<RouteProvider> {
    if s == [] || !Before(score, s[0], p) then [p] + s else [s[0]] + Insert(score, p, s[1..])
  }

  /** `sort.SliceStable` with that comparison. */
  function StableSort(score: Str -> nat, s: seq<RouteProvider>): seq<RouteProvider> {
    if s == [] then [] else Insert(score, s[0], StableSort(score, s[1..]))
  }

  lemma {:induction false} InsertSorts(score: Str -> nat, p: RouteProvider, s: seq<RouteProvider>)
    requires Sorted(score, s)
    ensures Sorted(score, Insert(score, p, s)) && multiset(Insert(score, p, s)) == multiset(s) + multiset{p}
  {
    hide Before;
    if s == [] {
    } else if !Before(score, s[0], p) {
      forall j | 0 <= j < |s| ensures !Before(score, s[j], p) {
        if j > 0 {
          NotBeforeTransitive(score, p, s[0], s[j]);
        }
      }
    } else {
      assert s == [s[0]] + s[1..];
      InsertSorts(score, p, s[1..]);
      var rest := Insert(score, p, s[1..]);
      BeforeOrders(score, s[0], p);
      forall j | 0 <= j < |rest| ensures !Before(score, rest[j], s[0]) {
        assert rest[j] in multiset(rest);
      }
    }
  }

  lemma {:induction false} SortSorts(score: Str -> nat, s: seq<RouteProvider>)
    ensures Sorted(score, StableSort(score, s)) && multiset(StableSort(score, s)) == multiset(s)
  {
    hide Insert, Before;
    if s != [] {
      assert s == [s[0]] + s[1..];
      SortSorts(score, s[1..]);
      InsertSorts(score, s[0], StableSort(score, s[1..]));
    }
  }

  /** `hrwOrder`: the providers by descending score, equal scores by name, equal names as configured. */
  method HrwOrder(score: Str -> nat, ps: seq<RouteProvider>) returns (out: seq<RouteProvider>)
    ensures out == StableSort(score, ps)
    ensures Sorted(score, out) && multiset(out) == multiset(ps)
    ensures forall name :: Named(out, name) == Named(ps, name)
    ensures forall i, j :: 0 <= i < j < |out| ==>
              || score(out[i].name) > score(out[j].name)
              || (score(out[i].name) == score(out[j].name) && !Less(out[j].name, out[i].name))
  {
    hide StableSort, Sorted, Less, Named;
    out := SortInPlace(score, ps);
    SortSorts(score, ps);
    forall name ensures Named(out, name) == Named(ps, name) {
      SortIsStable(score, ps, name);
    }
    HighestFirst(score, out);
  }

  /** Copies the providers and sorts the copy. A provider's score is a function of its name, so it is not
      stored beside it. */
  method SortInPlace(score: Str -> nat, ps: seq<RouteProvider>) returns (out: seq<RouteProvider>)
    ensures out == StableSort(score, ps)
  {
    hide Before, Insert;
    var arr := new RouteProvider[|ps|](i requires 0 <= i < |ps| => ps[i]);
    var i := arr.Length;
    assert arr[..] == ps[..i] + StableSort(score, ps[i..]);
    while i > 0
      invariant 0 <= i <= arr.Length == |ps|
      invariant arr[..] == ps[..i] + StableSort(score, ps[i..])
    {
      i := i - 1;
      SortStep(score, ps, i);
      InsertAt(score, arr, i);
    }
    out := arr[..];
    assert ps[0..] == ps;
  }

  lemma HighestFirst(score: Str -> nat, s: seq<RouteProvider>)
    requires Sorted(score, s)
    ensures forall i, j :: 0 <= i < j < |s| ==>
              || score(s[i].name) > score(s[j].name)
              || (score(s[i].name) == score(s[j].name) && !Less(s[j].name, s[i].name))
  {
    hide Less;
    forall i, j | 0 <= i < j < |s|
      ensures || score(s[i].name) > score(s[j].name)
              || (score(s[i].name) == score(s[j].name) && !Less(s[j].name, s[i].name))
    {
      assert !Before(score, s[j], s[i]);
    }
  }

  lemma SortStep(score: Str -> nat, ps: seq<RouteProvider>, i: nat)
    requires i < |ps|
    ensures var s := ps[..i + 1] + StableSort(score, ps[i + 1..]);
            s[..i] == ps[..i] && s[i] == ps[i] && s[i + 1..] == StableSort(score, ps[i + 1..])
            && Insert(score, ps[i], s[i + 1..]) == StableSort(score, ps[i..])
  {
    hide Insert;
    assert ps[i..][1..] == ps[i + 1..];
  }

  /** `p` standing after `m` elements of the rest. */
  function Placed(pre: seq<RouteProvider>, p: RouteProvider, rest: seq<RouteProvider>, m: nat): seq<RouteProvider>
    requires m <= |rest|
  {
    pre + rest[..m] + [p] + rest[m..]
  }

  lemma PlacedStep(pre: seq<RouteProvider>, p: RouteProvider, rest: seq<RouteProvider>, m: nat)
    requires m < |rest|
    ensures var s, j := Placed(pre, p, rest, m), |pre| + m;
            s[j] == p && s[j + 1] == rest[m] && s[j := rest[m]][j + 1 := p] == Placed(pre, p, rest, m + 1)
  {
  }

  /** Moves the element at `i` by swaps to its place in the sorted rest of the array. */
  method InsertAt(score: Str -> nat, arr: array<RouteProvider>, i: nat)
    requires i < arr.Length
    modifies arr
    ensures arr[..] == old(arr[..i]) + Insert(score, old(arr[i]), old(arr[i + 1..]))
  {
    hide Before, Insert, Placed;
    var p, m := arr[i], 0;
    ghost var pre, rest := arr[..i], arr[i + 1..];
    assert arr[..] == Placed(pre, p, rest, 0) by { PlacedFirst(arr[..], i); }
    while i + m + 1 < arr.Length && Before(score, arr[i + m + 1], p)
      invariant i + m < arr.Length == |pre| + 1 + |rest| && |pre| == i
      invariant arr[..] == Placed(pre, p, rest, m)
      invariant Insert(score, p, rest) == rest[..m] + Insert(score, p, rest[m..])
    {
      PlacedStep(pre, p, rest, m);
      assert arr[i + m + 1] == arr[..][i + m + 1] == rest[m];
      InsertMoves(score, p, rest, m);
      arr[i + m] := arr[i + m + 1];
      arr[i + m + 1] := p;
      m := m + 1;
    }
    if i + m + 1 < arr.Length {
      PlacedStep(pre, p, rest, m);
      assert arr[i + m + 1] == arr[..][i + m + 1] == rest[m];
    }
    InsertStops(score, p, rest[m..]);
    PlacedIs(pre, p, rest, m);
  }

  lemma PlacedFirst(s: seq<RouteProvider>, i: nat)
    requires i < |s|
    ensures s == Placed(s[..i], s[i], s[i + 1..], 0)
  {
  }

  lemma PlacedIs(pre: seq<RouteProvider>, p: RouteProvider, rest: seq<RouteProvider>, m: nat)
    requires m <= |rest|
    ensures Placed(pre, p, rest, m) == pre + (rest[..m] + ([p] + rest[m..]))
  {
  }

  lemma InsertMoves(score: Str -> nat, p: RouteProvider, s: seq<RouteProvider>, m: nat)
    requires m < |s| && Before(score, s[m], p)
    requires Insert(score, p, s) == s[..m] + Insert(score, p, s[m..])
    ensures Insert(score, p, s) == s[..m + 1] + Insert(score, p, s[m + 1..])
  {
    hide Before;
    assert s[m..][1..] == s[m + 1..] && s[..m] + [s[m]] == s[..m + 1];
  }

  lemma InsertStops(score: Str -> nat, p: RouteProvider, s: seq<RouteProvider>)
    requires s == [] || !Before(score, s[0], p)
    ensures Insert(score, p, s) == [p] + s
  {
  }

  predicate DistinctProviders(s: seq<RouteProvider>) {
    forall i, j :: 0 <= i < j < |s| ==> s[i].name != s[j].name
  }

  lemma SameHead(score: Str -> nat, a: seq<RouteProvider>, b: seq<RouteProvider>)
    requires Sorted(score, a) && Sorted(score, b) && multiset(a) == multiset(b) && DistinctProviders(b) && a != []
    ensures b != [] && a[0] == b[0]
  {
    hide Before, DistinctProviders;
    assert a[0] in multiset(b);
    assert b[0] in multiset(a);
    BeforeOrders(score, a[0], b[0]);
    SameName(b, a[0], b[0]);
  }

  /** The providers of one name, in order. */
  function Named(s: seq<RouteProvider>, name: Str): seq<RouteProvider> {
    if s == [] then [] else (if s[0].name == name then [s[0]] else []) + Named(s[1..], name)
  }

  lemma NamedMore(p: RouteProvider, s: seq<RouteProvider>, name: Str)
    ensures Named([p] + s, name) == (if p.name == name then [p] else []) + Named(s, name)
  {
    assert ([p] + s)[1..] == s;
  }

  lemma {:induction false} InsertKeepsNamed(score: Str -> nat, p: RouteProvider, s: seq<RouteProvider>, name: Str)
    ensures Named(Insert(score, p, s), name) == (if p.name == name then [p] else []) + Named(s, name)
  {
    hide Before, Named;
    NamedMore(p, s, name);
    if s != [] && Before(score, s[0], p) {
      InsertKeepsNamed(score, p, s[1..], name);
      BeforeOrders(score, s[0], p);
      NamedMore(s[0], Insert(score, p, s[1..]), name);
      NamedMore(s[0], s[1..], name);
      assert s == [s[0]] + s[1..];
    }
  }

  /** The sort is stable: providers that the comparison cannot tell apart, those of one name, keep their
      configuration order. */
  lemma {:induction false} SortIsStable(score: Str -> nat, s: seq<RouteProvider>, name: Str)
    ensures Named(StableSort(score, s), name) == Named(s, name)
  {
    hide Insert;
    if s != [] {
      SortIsStable(score, s[1..], name);
      InsertKeepsNamed(score, s[0], StableSort(score, s[1..]), name);
    }
  }

  /** Two sorted lists of the same distinctly named providers are equal. */
  lemma {:induction false} SortedIsUnique(score: Str -> nat, a: seq<RouteProvider>, b: seq<RouteProvider>)
    requires Sorted(score, a) && Sorted(score, b) && multiset(a) == multiset(b) && DistinctProviders(b)
    ensures a == b
  {
    if a == [] {
      assert |multiset(b)| == |multiset(a)| == 0;
    } else {
      SameHead(score, a, b);
      hide Sorted, DistinctProviders;
      SortedTail(score, a);
      SortedTail(score, b);
      MultisetTail(a);
      MultisetTail(b);
      SortedIsUnique(score, a[1..], b[1..]);
      assert a == [a[0]] + a[1..] && b == [b[0]] + b[1..];
    }
  }

  lemma SortedTail(score: Str -> nat, s: seq<RouteProvider>)
    requires s != []
    ensures Sorted(score, s) ==> Sorted(score, s[1..])
    ensures DistinctProviders(s) ==> DistinctProviders(s[1..])
  {
    hide Before;
  }

  lemma MultisetTail(s: seq<RouteProvider>)
    requires s != []
    ensures multiset(s[1..]) == multiset(s) - multiset{s[0]}
  {
    assert s == [s[0]] + s[1..];
  }

  lemma SameName(s: seq<RouteProvider>, p: RouteProvider, q: RouteProvider)
    requires DistinctProviders(s) && p in multiset(s) && q in multiset(s)
    ensures p.name == q.name ==> p == q
  {
    var x :| 0 <= x < |s| && s[x] == p;
    var y :| 0 <= y < |s| && s[y] == q;
  }

  lemma SamePermutationDistinct(a: seq<RouteProvider>, b: seq<RouteProvider>)
    requires multiset(a) == multiset(b) && DistinctProviders(a)
    ensures DistinctProviders(b)
  {
    forall i, j | 0 <= i < j < |b| ensures b[i].name != b[j].name {
      hide DistinctProviders;
      DistinctOnce(a, b[i]);
      assert b[i] in multiset(b) && b[j] in multiset(b);
      SameName(a, b[i], b[j]);
      if b[i].name == b[j].name {
        RepeatedTwice(b, i, j);
      }
    }
  }

  lemma RepeatedTwice(s: seq<RouteProvider>, i: nat, j: nat)
    requires i < j < |s| && s[i] == s[j]
    ensures multiset(s)[s[i]] >= 2
  {
    assert s == s[..j] + s[j..];
    assert s[j..][0] in multiset(s[j..]) && s[..j][i] in multiset(s[..j]);
  }

  lemma {:induction false} DistinctOnce(s: seq<RouteProvider>, p: RouteProvider)
    requires DistinctProviders(s)
    ensures multiset(s)[p] <= 1
  {
    if s != [] {
      DistinctOnce(s[1..], p);
      MultisetTail(s);
      if p == s[0] {
        assert forall k :: 0 <= k < |s[1..]| ==> s[1..][k] != p;
        assert p !in multiset(s[1..]);
      }
    }
  }

  /** The order does not depend on how the configuration lists the providers. */
  lemma HrwIgnoresConfigOrder(score: Str -> nat, ps: seq<RouteProvider>, qs: seq<RouteProvider>)
    requires DistinctProviders(ps) && multiset(ps) == multiset(qs)
    ensures StableSort(score, ps) == StableSort(score, qs)
  {
    hide StableSort, Sorted, DistinctProviders;
    SortSorts(score, ps);
    SortSorts(score, qs);
    SamePermutationDistinct(ps, StableSort(score, qs));
    SortedIsUnique(score, StableSort(score, ps), StableSort(score, qs));
  }

  function Without(s: seq<RouteProvider>, name: Str): seq<RouteProvider> {
    if s == [] then []
    else if s[0].name == name then Without(s[1..], name)
    else [s[0]] + Without(s[1..], name)
  }

  lemma {:induction false} WithoutCounts(s: seq<RouteProvider>, name: Str)
    ensures forall p :: multiset(Without(s, name))[p] == if p.name == name then 0 else multiset(s)[p]
  {
    if s != [] {
      WithoutCounts(s[1..], name);
      assert s == [s[0]] + s[1..];
    }
  }

  lemma {:induction false} WithoutSorted(score: Str -> nat, s: seq<RouteProvider>, name: Str)
    requires Sorted(score, s)
    ensures Sorted(score, Without(s, name))
  {
    hide Before;
    if s != [] {
      SortedTail(score, s);
      WithoutSorted(score, s[1..], name);
      var rest := Without(s[1..], name);
      forall j | 0 <= j < |rest| ensures !Before(score, rest[j], s[0]) {
        WithoutAmong(s[1..], name, rest[j]);
      }
    }
  }

  lemma WithoutAmong(s: seq<RouteProvider>, name: Str, p: RouteProvider)
    requires p in Without(s, name)
    ensures p in s
  {
    hide Without;
    WithoutCounts(s, name);
    assert p in multiset(Without(s, name));
    assert p in multiset(s);
  }

  /** Removing a provider deletes it from every session's order and moves nothing else. */
  lemma HrwRemoval(score: Str -> nat, ps: seq<RouteProvider>, name: Str)
    requires DistinctProviders(ps)
    ensures StableSort(score, Without(ps, name)) == Without(StableSort(score, ps), name)
  {
    hide StableSort, Sorted, DistinctProviders, Without;
    var s, rest := StableSort(score, ps), Without(ps, name);
    SortSorts(score, ps);
    SortSorts(score, rest);
    SamePermutationDistinct(ps, s);
    WithoutCounts(ps, name);
    WithoutCounts(s, name);
    WithoutSorted(score, s, name);
    WithoutDistinct(s, name);
    assert multiset(rest) == multiset(Without(s, name));
    SortedIsUnique(score, StableSort(score, rest), Without(s, name));
  }

  lemma {:induction false} WithoutDistinct(s: seq<RouteProvider>, name: Str)
    requires DistinctProviders(s)
    ensures DistinctProviders(Without(s, name))
  {
    if s != [] {
      WithoutDistinct(s[1..], name);
      var rest := Without(s[1..], name);
      forall j | 0 <= j < |rest| ensures rest[j].name != s[0].name {
        WithoutAmong(s[1..], name, rest[j]);
      }
    }
  }
}
