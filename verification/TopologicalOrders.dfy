// Publish order (packages/tools/src/registry.ts): packages of one group, each after the ones of the
// group it depends on.
module TopologicalOrders {
  import opened Wrappers

  datatype Manifest = Manifest(name: string, dependencies: set<string>)

  /** Each package's dependencies inside the group. */
  type Graph = map<string, set<string>>

  function Names(manifests: seq<Manifest>): set<string> {
    set i | 0 <= i < |manifests| :: manifests[i].name
  }

  /** `remaining` as it starts: a name listed twice has the later manifest's dependencies. */
  function GroupIn(manifests: seq<Manifest>, names: set<string>): Graph
    decreases |manifests|
  {
    if manifests == [] then map[]
    else
      var n := |manifests| - 1;
      GroupIn(manifests[..n], names)[manifests[n].name := manifests[n].dependencies * names]
  }

  function Group(manifests: seq<Manifest>): Graph { GroupIn(manifests, Names(manifests)) }

  predicate Closed(g: Graph) { forall n | n in g :: g[n] <= g.Keys }

  lemma {:induction false} GroupIsClosed(manifests: seq<Manifest>, names: set<string>)
    ensures GroupIn(manifests, names).Keys == Names(manifests)
    ensures forall n | n in GroupIn(manifests, names) :: GroupIn(manifests, names)[n] <= names
    decreases |manifests|
  {
    if manifests != [] {
      var n := |manifests| - 1;
      GroupIsClosed(manifests[..n], names);
      forall x ensures x in Names(manifests) <==> x in Names(manifests[..n]) || x == manifests[n].name {
        if x in Names(manifests) {
          var i :| 0 <= i < |manifests| && manifests[i].name == x;
          assert i < n ==> manifests[..n][i].name == x;
        }
        if x in Names(manifests[..n]) {
          var i :| 0 <= i < n && manifests[..n][i].name == x;
          assert manifests[i].name == x;
        }
      }
    }
  }

  /** The last manifest of this name has `d` for a dependency, and `d` is in the group. */
  ghost predicate DependsOn(manifests: seq<Manifest>, n: string, d: string) {
    (exists m :: 0 <= m < |manifests| && manifests[m].name == n && d in manifests[m].dependencies &&
       forall l | m < l < |manifests| :: manifests[l].name != n) &&
    exists i :: 0 <= i < |manifests| && manifests[i].name == d
  }

  lemma {:induction false} LastManifestCounts(manifests: seq<Manifest>, names: set<string>, m: nat)
    requires m < |manifests| && forall l | m < l < |manifests| :: manifests[l].name != manifests[m].name
    ensures var g := GroupIn(manifests, names); manifests[m].name in g && g[manifests[m].name] == manifests[m].dependencies * names
    decreases |manifests|
  {
    var n := |manifests| - 1;
    if m < n {
      assert forall l | m < l < n :: manifests[..n][l].name != manifests[..n][m].name;
      LastManifestCounts(manifests[..n], names, m);
    }
  }

  lemma {:induction false} LastOfName(manifests: seq<Manifest>, i: nat) returns (m: nat)
    requires i < |manifests|
    ensures i <= m < |manifests| && manifests[m].name == manifests[i].name
    ensures forall l | m < l < |manifests| :: manifests[l].name != manifests[i].name
    decreases |manifests| - i
  {
    if l :| i < l < |manifests| && manifests[l].name == manifests[i].name { m := LastOfName(manifests, l); } else { m := i; }
  }

  /** The group's graph is the manifests' own dependencies, inside the group. */
  lemma GroupByManifest(manifests: seq<Manifest>)
    ensures forall n {:trigger n in Group(manifests)} :: n in Group(manifests) <==> exists i :: 0 <= i < |manifests| && manifests[i].name == n
    ensures forall n, d {:trigger DependsOn(manifests, n, d)} ::
              DependsOn(manifests, n, d) <==> n in Group(manifests) && d in Group(manifests)[n]
  {
    var g := Group(manifests);
    GroupIsClosed(manifests, Names(manifests));
    forall n, d ensures DependsOn(manifests, n, d) <==> n in g && d in g[n] {
      if n in Names(manifests) {
        var i :| 0 <= i < |manifests| && manifests[i].name == n;
        var m := LastOfName(manifests, i);
        LastManifestCounts(manifests, Names(manifests), m);
      }
    }
  }

  // ----- names in order -----

  predicate Precedes(a: string, b: string) {
    b != [] && (a == [] || a[0] < b[0] || (a[0] == b[0] && Precedes(a[1..], b[1..])))
  }

  lemma {:induction false} PrecedesIsTotal(a: string, b: string)
    ensures a == b || Precedes(a, b) || Precedes(b, a)
    ensures !(Precedes(a, b) && Precedes(b, a)) && !(a == b && Precedes(a, b))
    decreases |a|
  {
    if a != [] && b != [] && a[0] == b[0] {
      PrecedesIsTotal(a[1..], b[1..]);
      assert a == [a[0]] + a[1..] && b == [b[0]] + b[1..];
    }
  }

  lemma {:induction false} PrecedesIsTransitive(a: string, b: string, c: string)
    requires Precedes(a, b) && Precedes(b, c)
    ensures Precedes(a, c)
    decreases |a|
  {
    if a != [] && a[0] == b[0] && b[0] == c[0] { PrecedesIsTransitive(a[1..], b[1..], c[1..]); }
  }

  predicate IsLeast(names: set<string>, least: string) {
    least in names && forall n | n in names :: n == least || Precedes(least, n)
  }

  lemma {:induction false} LeastExists(names: set<string>)
    requires names != {}
    ensures exists least :: IsLeast(names, least)
    decreases names
  {
    var n :| n in names;
    if names == {n} {
      assert IsLeast(names, n);
    } else {
      assert names - {n} != {} by { assert exists m :: m in names && m != n; }
      LeastExists(names - {n});
      var other :| IsLeast(names - {n}, other);
      PrecedesIsTotal(n, other);
      var least := if Precedes(n, other) then n else other;
      forall m | m in names && m != least ensures Precedes(least, m) {
        if m != other && m != n && least == n { PrecedesIsTransitive(n, other, m); }
      }
      assert IsLeast(names, least);
    }
  }

  lemma LeastIsUnique(names: set<string>, a: string, b: string)
    requires IsLeast(names, a) && IsLeast(names, b)
    ensures a == b
  {
    PrecedesIsTotal(a, b);
  }

  /** `.sort()` of distinct names. */
  ghost function Sorted(names: set<string>): (sorted: seq<string>)
    ensures forall n {:trigger n in sorted} :: n in sorted <==> n in names
    decreases names
  {
    if names == {} then []
    else
      [LeastOf(names)] + Sorted(names - {LeastOf(names)})
  }

  ghost function LeastOf(names: set<string>): (least: string)
    requires names != {}
    ensures IsLeast(names, least)
  {
    LeastExists(names);
    var least :| IsLeast(names, least);
    least
  }

  // ----- the order -----

  function Ready(g: Graph, done: set<string>): set<string> {
    set n | n in g && n !in done && g[n] <= done
  }

  /** Pass by pass, every package whose dependencies are all out goes out; `None` when none is. */
  ghost function OrderFrom(g: Graph, done: set<string>): Option<seq<string>>
    decreases g.Keys - done
  {
    if g.Keys <= done then Some([])
    else if Ready(g, done) == {} then None
    else
      assert g.Keys - (done + Ready(g, done)) < g.Keys - done by {
        var n :| n in Ready(g, done);
        assert n in g.Keys - done;
      }
      var rest := OrderFrom(g, done + Ready(g, done));
      if rest.None? then None else Some(Sorted(Ready(g, done)) + rest.value)
  }

  function Elements(names: seq<string>): set<string> { set n | n in names }

  predicate NoRepeats(names: seq<string>) { forall i, j | 0 <= i < j < |names| :: names[i] != names[j] }

  /** A permutation of the group in which every package comes after its dependencies. */
  predicate Topological(g: Graph, order: seq<string>) {
    Elements(order) == g.Keys && NoRepeats(order) &&
    forall i | 0 <= i < |order| :: order[i] in g && g[order[i]] <= Elements(order[..i])
  }

  lemma {:induction false} SortedRepeatsNothing(names: set<string>)
    ensures NoRepeats(Sorted(names))
    decreases names
  {
    if names != {} {
      var least := LeastOf(names);
      SortedRepeatsNothing(names - {least});
      var tail := Sorted(names - {least});
      forall j | 0 <= j < |tail| ensures tail[j] != least { assert tail[j] in tail; }
    }
  }

  lemma {:induction false} OrderIsTopologicalFrom(g: Graph, done: set<string>)
    requires done <= g.Keys && OrderFrom(g, done).Some?
    ensures var order := OrderFrom(g, done).value;
            Elements(order) == g.Keys - done && NoRepeats(order) &&
            forall i | 0 <= i < |order| :: order[i] in g && g[order[i]] <= done + Elements(order[..i])
    decreases g.Keys - done
  {
    if !(g.Keys <= done) {
      var ready := Ready(g, done);
      var n :| n in ready;
      assert n in g.Keys - done;
      OrderIsTopologicalFrom(g, done + ready);
      SortedRepeatsNothing(ready);
      var first, rest := Sorted(ready), OrderFrom(g, done + ready).value;
      JoinsUp(g, done, ready, first, rest);
    }
  }

  /** One pass and the passes after it. */
  lemma JoinsUp(g: Graph, done: set<string>, ready: set<string>, first: seq<string>, rest: seq<string>)
    requires ready == Ready(g, done) && done <= g.Keys && Elements(first) == ready && NoRepeats(first) && NoRepeats(rest)
    requires Elements(rest) == g.Keys - (done + ready)
    requires forall i | 0 <= i < |rest| :: rest[i] in g && g[rest[i]] <= done + ready + Elements(rest[..i])
    ensures var order := first + rest;
            Elements(order) == g.Keys - done && NoRepeats(order) &&
            forall i | 0 <= i < |order| :: order[i] in g && g[order[i]] <= done + Elements(order[..i])
  {
    var order := first + rest;
    forall n ensures n in Elements(order) <==> n in g.Keys - done {
      assert n in order <==> n in first || n in rest;
      assert (n in first <==> n in Elements(first)) && (n in rest <==> n in Elements(rest));
    }
    forall i, j | 0 <= i < j < |order| ensures order[i] != order[j] {
      if i < |first| <= j {
        assert first[i] in Elements(first) && rest[j - |first|] in Elements(rest);
      } else if |first| <= i {
        assert order[i] == rest[i - |first|] && order[j] == rest[j - |first|];
      }
    }
    forall i | 0 <= i < |order| ensures order[i] in g && g[order[i]] <= done + Elements(order[..i]) {
      if i < |first| {
        assert first[i] in Elements(first);
      } else {
        var k := i - |first|;
        assert order[..i] == first + rest[..k];
        forall n | n in ready || n in Elements(rest[..k]) ensures n in Elements(order[..i]) {
          assert n in Elements(first) || n in Elements(rest[..k]);
        }
      }
    }
  }

  lemma OrderIsTopological(g: Graph)
    requires OrderFrom(g, {}).Some?
    ensures Topological(g, OrderFrom(g, {}).value)
  {
    OrderIsTopologicalFrom(g, {});
  }

  // ----- cycles -----

  /** Each name depends on the next. */
  predicate Walk(g: Graph, path: seq<string>) {
    (forall i | 0 <= i < |path| :: path[i] in g) &&
    forall i {:trigger path[i]} | 0 <= i < |path| - 1 :: path[i + 1] in g[path[i]]
  }

  predicate Cycle(g: Graph, path: seq<string>) {
    |path| >= 2 && path[0] == path[|path| - 1] && Walk(g, path)
  }

  ghost predicate Cyclic(g: Graph) { exists path :: Cycle(g, path) }

  /** Along a walk the order only goes back. */
  lemma {:induction false} WalksGoBack(g: Graph, order: seq<string>, path: seq<string>, i: nat) returns (j: nat)
    requires Topological(g, order) && Walk(g, path) && |path| >= 2 && i < |order| && order[i] == path[0]
    ensures j < i && order[j] == path[|path| - 1]
    decreases |path|
  {
    assert path[0 + 1] in g[path[0]];
    assert path[1] in Elements(order[..i]);
    var k :| 0 <= k < i && order[..i][k] == path[1];
    if |path| == 2 {
      j := k;
    } else {
      var rest := path[1..];
      forall m | 0 <= m < |rest| - 1 ensures rest[m + 1] in g[rest[m]] { assert path[m + 1 + 1] in g[path[m + 1]]; }
      j := WalksGoBack(g, order, rest, k);
    }
  }

  lemma OrderedHasNoCycle(g: Graph, order: seq<string>)
    requires Topological(g, order)
    ensures !Cyclic(g)
  {
    if path :| Cycle(g, path) {
      assert path[0] in g && path[0] in Elements(order);
      var i :| 0 <= i < |order| && order[i] == path[0];
      var j := WalksGoBack(g, order, path, i);
      assert false;
    }
  }

  /** A dependency of the name is among those left. */
  ghost predicate Leads(g: Graph, left: set<string>, n: string)
    requires n in g
  {
    g[n] * left != {}
  }

  /** A walk with one step more. */
  lemma WalkOn(g: Graph, path: seq<string>, d: string)
    requires path != [] && Walk(g, path) && d in g && d in g[path[|path| - 1]]
    ensures Walk(g, path + [d])
  {
    var longer := path + [d];
    forall i | 0 <= i < |longer| - 1 ensures longer[i + 1] in g[longer[i]] {
      if i < |path| - 1 { assert path[i + 1] in g[path[i]]; }
    }
  }

  /** A walk that returns to a name it passed has gone round. */
  lemma RoundIsCycle(g: Graph, path: seq<string>, d: string)
    requires Walk(g, path + [d]) && d in path
    ensures Cyclic(g)
  {
    var longer := path + [d];
    var k :| 0 <= k < |path| && path[k] == d;
    var loop := longer[k..];
    forall i | 0 <= i < |loop| - 1 ensures loop[i + 1] in g[loop[i]] { assert longer[k + i + 1] in g[longer[k + i]]; }
    assert Cycle(g, loop);
  }

  /** Where every name left depends on a name left, following dependencies comes round. */
  lemma {:induction false} StuckHasCycle(g: Graph, left: set<string>, path: seq<string>)
    requires left <= g.Keys && forall n {:trigger Leads(g, left, n)} | n in left :: Leads(g, left, n)
    requires path != [] && Walk(g, path) && NoRepeats(path) && Elements(path) <= left
    ensures Cyclic(g)
    decreases left - Elements(path)
  {
    var last := path[|path| - 1];
    assert last in Elements(path);
    assert Leads(g, left, last);
    var d :| d in g[last] * left;
    WalkOn(g, path, d);
    if d in path {
      RoundIsCycle(g, path, d);
    } else {
      assert Elements(path + [d]) == Elements(path) + {d};
      StuckHasCycle(g, left, path + [d]);
    }
  }

  lemma Outside(a: set<string>, b: set<string>) returns (x: string)
    requires !(a <= b)
    ensures x in a && x !in b
  {
    x :| x in a && x !in b;
  }

  lemma {:induction false} NoOrderHasCycle(g: Graph, done: set<string>)
    requires Closed(g) && OrderFrom(g, done).None?
    ensures Cyclic(g)
    decreases g.Keys - done
  {
    var ready := Ready(g, done);
    if ready == {} {
      var left := g.Keys - done;
      forall n | n in left ensures Leads(g, left, n) {
        assert n !in ready;
        var d := Outside(g[n], done);
        assert d in g[n] * left;
      }
      var n := Outside(g.Keys, done);
      assert Elements([n]) == {n};
      StuckHasCycle(g, left, [n]);
    } else {
      var n :| n in ready;
      assert n in g.Keys - done;
      NoOrderHasCycle(g, done + ready);
    }
  }

  /** There is no order exactly when the dependencies inside the group have a cycle. */
  lemma NoOrderExactly(manifests: seq<Manifest>)
    ensures OrderFrom(Group(manifests), {}).None? <==> Cyclic(Group(manifests))
  {
    var g := Group(manifests);
    GroupIsClosed(manifests, Names(manifests));
    if OrderFrom(g, {}).None? {
      NoOrderHasCycle(g, {});
    } else {
      OrderIsTopological(g);
      OrderedHasNoCycle(g, OrderFrom(g, {}).value);
    }
  }

  // ----- the loop -----

  /** The least name of a set. */
  method FirstName(names: set<string>) returns (least: string)
    requires names != {}
    ensures IsLeast(names, least)
  {
    least :| least in names;
    var rest := names - {least};
    while rest != {}
      invariant rest <= names && least in names
      invariant forall n | n in names && n !in rest :: n == least || Precedes(least, n)
      decreases rest
    {
      var n :| n in rest;
      PrecedesIsTotal(n, least);
      if Precedes(n, least) {
        forall m | m in names && m !in rest && m != n ensures Precedes(n, m) {
          if m != least { PrecedesIsTransitive(n, least, m); }
        }
        least := n;
      }
      rest := rest - {n};
    }
  }

  /** The map `remaining` starts as. */
  method Dependencies(manifests: seq<Manifest>) returns (remaining: Graph)
    ensures remaining == Group(manifests)
  {
    var names := set i | 0 <= i < |manifests| :: manifests[i].name;
    remaining := map[];
    for i := 0 to |manifests|
      invariant remaining == GroupIn(manifests[..i], names)
    {
      assert manifests[..i + 1][..i] == manifests[..i];
      remaining := remaining[manifests[i].name := manifests[i].dependencies * names];
    }
    assert manifests[..|manifests|] == manifests;
  }

  lemma SortedGoesOn(ordered: seq<string>, ready: set<string>)
    requires ready != {}
    ensures ordered + Sorted(ready) == ordered + [LeastOf(ready)] + Sorted(ready - {LeastOf(ready)})
  {
  }

  /** One pass: the ready names go out in order. */
  method Release(names: set<string>, left: Graph, before: seq<string>) returns (remaining: Graph, ordered: seq<string>)
    ensures remaining == left - names && ordered == before + Sorted(names)
  {
    var ready := names;
    ghost var released: set<string> := {};
    remaining, ordered := left, before;
    while ready != {}
      invariant released + ready == names && released !! ready
      invariant before + Sorted(names) == ordered + Sorted(ready)
      invariant remaining == left - released
      decreases ready
    {
      var name := FirstName(ready);
      LeastIsUnique(ready, name, LeastOf(ready));
      SortedGoesOn(ordered, ready);
      ordered := ordered + [name];
      remaining := remaining - {name};
      ready, released := ready - {name}, released + {name};
    }
    assert released == names;
  }

  /** Pass after pass. */
  method Passes(manifests: seq<Manifest>) returns (order: Option<seq<string>>)
    ensures order == OrderFrom(Group(manifests), {})
  {
    ghost var g := Group(manifests);
    var remaining := Dependencies(manifests);
    var ordered: seq<string> := [];
    ghost var done: set<string> := {};
    NothingDone(g);
    while remaining != map[]
      invariant done <= g.Keys && Elements(ordered) == done && remaining == g - done
      invariant OrderFrom(g, {}) == Continued(ordered, OrderFrom(g, done))
      decreases g.Keys - done
    {
      var ready := set n | n in remaining && forall d | d in remaining[n] :: d in ordered;
      assert ready == Ready(g, done);
      assert remaining.Keys == g.Keys - done;
      if ready == {} { return None; }
      OnePass(g, done, ordered);
      PassElements(ordered, ready);
      remaining, ordered := Release(ready, remaining, ordered);
      done := done + ready;
    }
    NothingLeft(g, done, ordered);
    return Some(ordered);
  }

  /** `topologicalOrder`; `None` is the thrown cycle. */
  method TopologicalOrder(manifests: seq<Manifest>) returns (order: Option<seq<string>>)
    ensures order == OrderFrom(Group(manifests), {})
    ensures order.None? <==> Cyclic(Group(manifests))
    ensures order.Some? ==> Topological(Group(manifests), order.value)
    ensures order.Some? ==>
              (forall n :: n in order.value <==> exists i :: 0 <= i < |manifests| && manifests[i].name == n) &&
              (forall i, j | 0 <= i < j < |order.value| :: order.value[i] != order.value[j]) &&
              forall j, d | 0 <= j < |order.value| && DependsOn(manifests, order.value[j], d) :: d in order.value[..j]
    ensures order.None? <==>
              exists path :: Round(manifests, path)
  {
    OrderOrCycle(manifests);
    OrderByManifest(manifests);
    order := Passes(manifests);
  }

  /** What a run that got this far ends with. */
  function Continued(ordered: seq<string>, rest: Option<seq<string>>): Option<seq<string>> {
    if rest.Some? then Some(ordered + rest.value) else None
  }

  lemma NothingDone(g: Graph)
    ensures g - {} == g && Continued([], OrderFrom(g, {})) == OrderFrom(g, {})
  {
    var rest := OrderFrom(g, {});
    if rest.Some? { assert [] + rest.value == rest.value; }
  }

  lemma NothingLeft(g: Graph, done: set<string>, ordered: seq<string>)
    requires g - done == map[]
    ensures Continued(ordered, OrderFrom(g, done)) == Some(ordered)
  {
    forall n | n in g ensures n in done { assert n in g - done || n in done; }
    assert ordered + [] == ordered;
  }

  /** The result is an order of the group, or its dependencies go round. */
  lemma OrderOrCycle(manifests: seq<Manifest>)
    ensures var g := Group(manifests); var order := OrderFrom(g, {});
            (order.None? <==> Cyclic(g)) && (order.Some? ==> Topological(g, order.value))
  {
    NoOrderExactly(manifests);
    if OrderFrom(Group(manifests), {}).Some? { OrderIsTopological(Group(manifests)); }
  }

  /** The same, by the manifests themselves. */
  lemma OrderByManifest(manifests: seq<Manifest>)
    ensures var order := OrderFrom(Group(manifests), {});
            order.Some? ==>
              (forall n :: n in order.value <==> exists i :: 0 <= i < |manifests| && manifests[i].name == n) &&
              (forall i, j | 0 <= i < j < |order.value| :: order.value[i] != order.value[j]) &&
              forall j, d | 0 <= j < |order.value| && DependsOn(manifests, order.value[j], d) :: d in order.value[..j]
    ensures OrderFrom(Group(manifests), {}).None? <==>
              exists path :: Round(manifests, path)
  {
    var g := Group(manifests);
    OrderOrCycle(manifests);
    GroupByManifest(manifests);
    var order := OrderFrom(g, {});
    if order.Some? {
      forall n ensures n in order.value <==> n in g { assert n in Elements(order.value) <==> n in order.value; }
      forall j, d | 0 <= j < |order.value| && DependsOn(manifests, order.value[j], d) ensures d in order.value[..j] {
        assert d in Elements(order.value[..j]);
      }
    }
    forall path: seq<string> ensures Cycle(g, path) <==> Round(manifests, path) { CycleByManifest(manifests, path); }
  }

  /** Dependencies that come back to where they started. */
  ghost predicate Round(manifests: seq<Manifest>, path: seq<string>) {
    |path| >= 2 && path[0] == path[|path| - 1] && forall i | 0 <= i < |path| - 1 :: DependsOn(manifests, path[i], path[i + 1])
  }

  lemma CycleByManifest(manifests: seq<Manifest>, path: seq<string>)
    ensures Cycle(Group(manifests), path) <==> Round(manifests, path)
  {
    var g := Group(manifests);
    GroupByManifest(manifests);
    if Round(manifests, path) {
      forall i | 0 <= i < |path| ensures path[i] in g {
        if i == |path| - 1 { assert DependsOn(manifests, path[0], path[0 + 1]); } else { assert DependsOn(manifests, path[i], path[i + 1]); }
      }
      forall i | 0 <= i < |path| - 1 ensures path[i + 1] in g[path[i]] { assert DependsOn(manifests, path[i], path[i + 1]); }
    }
    if Cycle(g, path) {
      forall i | 0 <= i < |path| - 1 ensures DependsOn(manifests, path[i], path[i + 1]) { assert path[i + 1] in g[path[i]]; }
    }
  }

  lemma PassElements(ordered: seq<string>, ready: set<string>)
    ensures Elements(ordered + Sorted(ready)) == Elements(ordered) + ready
  {
    forall x ensures x in Elements(ordered + Sorted(ready)) <==> x in Elements(ordered) + ready {
      assert x in ordered + Sorted(ready) <==> x in ordered || x in Sorted(ready);
    }
  }

  lemma OnePass(g: Graph, done: set<string>, ordered: seq<string>)
    requires Ready(g, done) != {}
    ensures var ready := Ready(g, done);
            Continued(ordered, OrderFrom(g, done)) == Continued(ordered + Sorted(ready), OrderFrom(g, done + ready)) &&
            g.Keys - (done + ready) < g.Keys - done
  {
    var ready := Ready(g, done);
    var n :| n in ready;
    assert n in g.Keys - done;
    var rest := OrderFrom(g, done + ready);
    if rest.Some? { assert ordered + (Sorted(ready) + rest.value) == ordered + Sorted(ready) + rest.value; }
  }
}
