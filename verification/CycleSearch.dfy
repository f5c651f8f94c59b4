// The search for circular dependencies: a depth-first traversal with an explicit stack.
module CycleSearch {

  // the dependencies of each service there is a record for, by name
  type Dependencies = map<string, seq<string>>

  // a service on the stack, and the dependency being looked at
  datatype Step = Step(name: string, index: nat)

  // each service in p depends on the next
  ghost predicate Walk(g: Dependencies, p: seq<string>) {
    p != [] && forall i :: 0 <= i < |p| ==> p[i] in g && (i + 1 < |p| ==> p[i + 1] in g[p[i]])
  }

  // a walk from r comes back to where it has been
  ghost predicate ReachesCycle(g: Dependencies, r: string) {
    exists p, i :: Walk(g, p) && p[0] == r && 0 <= i < |p| - 1 && p[i] == p[|p| - 1]
  }

  // each step leads to the next by the dependency it is at
  ghost predicate Linked(g: Dependencies, c: seq<Step>) {
    forall i {:trigger c[i]} :: 0 <= i < |c| ==>
      c[i].name in g && (i + 1 < |c| ==> c[i].index < |g[c[i].name]| && g[c[i].name][c[i].index] == c[i + 1].name)
  }

  // ... and the last one back to the first
  ghost predicate Closed(g: Dependencies, c: seq<Step>) {
    && c != [] && Linked(g, c)
    && var last := c[|c| - 1]; last.index < |g[last.name]| && g[last.name][last.index] == c[0].name
  }

  function Names(c: seq<Step>): (r: seq<string>)
    ensures |r| == |c|
  {
    seq(|c|, i requires 0 <= i < |c| => c[i].name)
  }

  lemma LinkedIsWalk(g: Dependencies, c: seq<Step>)
    requires Linked(g, c) && c != []
    ensures Walk(g, Names(c))
  {
  }

  // A closed chain that ends a walk from r is a cycle r reaches
  lemma ClosedIsCycle(g: Dependencies, c: seq<Step>, i: nat)
    requires Linked(g, c) && i < |c| && Closed(g, c[i..])
    ensures ReachesCycle(g, c[0].name)
  {
    LinkedIsWalk(g, c);
    assert c[i..][|c| - i - 1] == c[|c| - 1];
    var p := Names(c) + [c[i].name];
    assert Walk(g, p) && p[i] == p[|p| - 1];
  }

  // ---- services known not to reach a cycle, each heavier than all its dependencies together ----

  ghost function Cost(free: set<string>, weight: map<string, nat>, ds: seq<string>): nat
    requires free <= weight.Keys
  {
    if ds == [] then 0 else 1 + (if ds[0] in free then weight[ds[0]] else 0) + Cost(free, weight, ds[1..])
  }

  ghost predicate Settled(g: Dependencies, free: set<string>, weight: map<string, nat>) {
    && free <= g.Keys && free <= weight.Keys
    && forall n :: n in free ==> AllFree(g, free, g[n]) && weight[n] >= 2 + Cost(free, weight, g[n])
  }

  // every one of the services there is a record for
  ghost predicate AllFree(g: Dependencies, free: set<string>, ds: seq<string>) {
    forall i :: 0 <= i < |ds| && ds[i] in g ==> ds[i] in free
  }

  lemma {:induction false} CostAt(free: set<string>, weight: map<string, nat>, ds: seq<string>, i: nat)
    requires free <= weight.Keys && i < |ds| && ds[i] in free
    ensures weight[ds[i]] < Cost(free, weight, ds)
    decreases |ds|
  {
    if i > 0 {
      CostAt(free, weight, ds[1..], i - 1);
    }
  }

  // no walk among settled services comes back
  lemma {:induction false} WalkDown(g: Dependencies, free: set<string>, weight: map<string, nat>, p: seq<string>, i: nat, j: nat)
    requires Settled(g, free, weight) && Walk(g, p) && i <= j < |p| && p[i] in free
    ensures p[j] in free && (i < j ==> weight[p[j]] < weight[p[i]])
    decreases j - i
  {
    if i < j {
      WalkDown(g, free, weight, p, i, j - 1);
      var k :| 0 <= k < |g[p[j - 1]]| && g[p[j - 1]][k] == p[j];
      CostAt(free, weight, g[p[j - 1]], k);
    }
  }

  lemma SettledReachesNone(g: Dependencies, free: set<string>, weight: map<string, nat>, r: string)
    requires Settled(g, free, weight) && r in free
    ensures !ReachesCycle(g, r)
  {
    if p, i :| Walk(g, p) && p[0] == r && 0 <= i < |p| - 1 && p[i] == p[|p| - 1] {
      WalkDown(g, free, weight, p, 0, i);
      WalkDown(g, free, weight, p, i, |p| - 1);
    }
  }

  lemma {:induction false} CostSame(free: set<string>, weight: map<string, nat>, ds: seq<string>, n: string, w: nat)
    requires free <= weight.Keys && n !in ds
    ensures Cost(free + {n}, weight[n := w], ds) == Cost(free, weight, ds)
  {
    if ds != [] {
      CostSame(free, weight, ds[1..], n, w);
    }
  }

  // A service whose dependencies are all settled is settled
  lemma Settle(g: Dependencies, free: set<string>, weight: map<string, nat>, n: string)
    requires Settled(g, free, weight) && n in g && n !in free && AllFree(g, free, g[n])
    ensures Settled(g, free + {n}, weight[n := 2 + Cost(free, weight, g[n])])
  {
    var w := 2 + Cost(free, weight, g[n]);
    forall m | m in free + {n} ensures AllFree(g, free + {n}, g[m]) && weight[n := w][m] >= 2 + Cost(free + {n}, weight[n := w], g[m]) {
      assert forall i :: 0 <= i < |g[m]| ==> g[m][i] != n;
      CostSame(free, weight, g[m], n, w);
    }
  }

  // ---- what is left to do for the services on the stack ----

  ghost predicate Waiting(g: Dependencies, c: seq<Step>) {
    forall i :: 0 <= i < |c| ==> c[i].name in g && c[i].index < |g[c[i].name]|
  }

  // for services that wait for the dependency they are at
  ghost function Pending(g: Dependencies, free: set<string>, weight: map<string, nat>, c: seq<Step>): nat
    requires free <= weight.Keys && Waiting(g, c)
  {
    if c == [] then 0
    else
      var last := c[|c| - 1];
      Pending(g, free, weight, c[..|c| - 1]) + 1 + Cost(free, weight, g[last.name][last.index + 1..])
  }

  ghost function Work(g: Dependencies, free: set<string>, weight: map<string, nat>, c: seq<Step>): nat
    requires free <= weight.Keys && InProgress(g, c)
  {
    if c == [] then 0
    else
      var last := c[|c| - 1];
      WaitingBelow(g, c);
      Pending(g, free, weight, c[..|c| - 1]) + 1 + Cost(free, weight, g[last.name][last.index..])
  }

  // all but the last of the services on the stack wait
  lemma WaitingBelow(g: Dependencies, c: seq<Step>)
    requires Linked(g, c) && c != []
    ensures Waiting(g, c[..|c| - 1])
  {
    forall i | 0 <= i < |c| - 1 ensures c[i].name in g && c[i].index < |g[c[i].name]| {
      assert i + 1 < |c|;
    }
  }

  ghost predicate InProgress(g: Dependencies, c: seq<Step>) {
    Linked(g, c) && forall i :: 0 <= i < |c| ==> c[i].index <= |g[c[i].name]|
  }

  // dependencies passed over are settled, and visited services that are not settled are on the stack
  ghost predicate Searching(g: Dependencies, visited: set<string>, free: set<string>, weight: map<string, nat>, c: seq<Step>) {
    && Settled(g, free, weight) && InProgress(g, c) && visited <= g.Keys
    && (forall i :: 0 <= i < |c| ==> AllFree(g, free, g[c[i].name][..c[i].index]))
    && (forall v :: v in visited ==> v in free || v in Names(c))
  }

  // all dependencies of the last service have been dealt with: the one before it goes on
  function Back(c: seq<Step>): seq<Step>
    requires c != []
  {
    if |c| == 1 then [] else c[..|c| - 1][|c| - 2 := Step(c[|c| - 2].name, c[|c| - 2].index + 1)]
  }

  lemma BackAt(c: seq<Step>)
    requires c != []
    ensures var n := |c| - 1;
      if n == 0 then Back(c) == c[..n] == [] else
        Back(c) == c[..n][n - 1 := Step(c[..n][n - 1].name, c[..n][n - 1].index + 1)] && Back(c)[0].name == c[0].name
  {
  }

  // the stack after going back, when the last service is settled
  lemma GoBack(g: Dependencies, visited: set<string>, free: set<string>, weight: map<string, nat>, c: seq<Step>, free2: set<string>, weight2: map<string, nat>)
    requires Searching(g, visited, free, weight, c) && c != []
    requires free2 == free + {c[|c| - 1].name} && Settled(g, free2, weight2)
    ensures Searching(g, visited, free2, weight2, Back(c))
  {
    var b := Back(c);
    if b != [] {
      var k := |b| - 1;
      assert g[b[k].name][..b[k].index] == g[c[k].name][..c[k].index] + [g[c[k].name][c[k].index]];
      assert g[c[k].name][c[k].index] == c[|c| - 1].name;
    }
    forall v | v in visited ensures v in free2 || v in Names(b) {
      if v !in free2 {
        var i :| 0 <= i < |c| && Names(c)[i] == v;
        assert Names(b)[i] == v;
      }
    }
    forall i | 0 <= i < |b| ensures AllFree(g, free2, g[b[i].name][..b[i].index]) {
      assert AllFree(g, free, g[c[i].name][..c[i].index]);
    }
  }

  lemma LessWorkBack(g: Dependencies, free: set<string>, weight: map<string, nat>, c: seq<Step>)
    requires free <= weight.Keys && InProgress(g, c) && c != [] && c[|c| - 1].index == |g[c[|c| - 1].name]| && InProgress(g, Back(c))
    ensures Work(g, free, weight, Back(c)) < Work(g, free, weight, c)
  {
    var b := Back(c);
    if b != [] {
      WaitingBelow(g, c);
      WaitingBelow(g, b);
      assert b[..|b| - 1] == c[..|c| - 1][..|b| - 1];
    }
  }

  // the stack after passing over a dependency there is no record for
  lemma GoOn(g: Dependencies, visited: set<string>, free: set<string>, weight: map<string, nat>, c: seq<Step>)
    requires Searching(g, visited, free, weight, c) && c != []
    requires var last := c[|c| - 1]; last.index < |g[last.name]| && g[last.name][last.index] !in g
    ensures var last := c[|c| - 1]; var b := c[|c| - 1 := Step(last.name, last.index + 1)];
      && Searching(g, visited, free, weight, b)
      && Work(g, free, weight, b) < Work(g, free, weight, c)
  {
    var last := c[|c| - 1];
    var b := c[|c| - 1 := Step(last.name, last.index + 1)];
    assert Names(b) == Names(c);
    assert g[last.name][..last.index + 1] == g[last.name][..last.index] + [g[last.name][last.index]];
    forall i | 0 <= i < |b| ensures AllFree(g, free, g[b[i].name][..b[i].index]) {
      assert AllFree(g, free, g[c[i].name][..c[i].index]);
    }
    assert b[..|c| - 1] == c[..|c| - 1];
    assert g[last.name][last.index..][1..] == g[last.name][last.index + 1..];
  }

  // the stack after going down to the next service
  lemma GoDown(g: Dependencies, visited: set<string>, free: set<string>, weight: map<string, nat>, c: seq<Step>, next: string)
    requires Searching(g, visited, free, weight, c) && c != []
    requires var last := c[|c| - 1]; last.index < |g[last.name]| && g[last.name][last.index] == next && next in g
    ensures Searching(g, visited + {next}, free, weight, c + [Step(next, 0)])
    ensures next in free ==> Work(g, free, weight, c + [Step(next, 0)]) < Work(g, free, weight, c)
  {
    var d := c + [Step(next, 0)];
    var last := c[|c| - 1];
    assert Names(d) == Names(c) + [next];
    assert d[..|d| - 1] == c;
    forall i | 0 <= i < |d| ensures AllFree(g, free, g[d[i].name][..d[i].index]) {
      if i < |c| {
        assert AllFree(g, free, g[c[i].name][..c[i].index]);
      }
    }
    WaitingBelow(g, d);
    WaitingBelow(g, c);
    assert g[next][0..] == g[next];
    assert g[last.name][last.index..][1..] == g[last.name][last.index + 1..];
  }

  lemma NothingLeft(g: Dependencies, free: set<string>, ds: seq<string>, n: nat)
    requires n == |ds| && AllFree(g, free, ds[..n])
    ensures AllFree(g, free, ds)
  {
    assert ds[..n] == ds;
  }

  ghost function Left(all: set<string>, some: set<string>): nat {
    |all - some|
  }

  lemma Fewer(all: set<string>, some: set<string>, x: string)
    requires some <= all && x in all && x !in some
    ensures Left(all, some + {x}) < Left(all, some)
  {
    assert all - some == (all - (some + {x})) + {x};
  }

  class DependencyCheck {
    const dependencies: Dependencies
    var visited: set<string>
    var cycleFree: set<string>
    var serviceChain: seq<Step>
    ghost var weight: map<string, nat>

    ghost predicate Valid()
      reads this
    {
      Searching(dependencies, visited, cycleFree, weight, serviceChain)
    }

    constructor (dependencies: Dependencies)
      ensures this.dependencies == dependencies && Valid() && serviceChain == [] && visited == {} && cycleFree == {}
    {
      this.dependencies := dependencies;
      visited, cycleFree, serviceChain := {}, {}, [];
      weight := map[];
    }

    // walk down from one service
    method Explore(root: string)
      requires Valid() && serviceChain == [] && root in dependencies
      modifies this
      ensures old(cycleFree) <= cycleFree
      ensures serviceChain == [] ==> Valid() && root in cycleFree
      ensures serviceChain != [] ==> Closed(dependencies, serviceChain) && ReachesCycle(dependencies, root)
    {
      hide Searching, Settled, Closed, Linked, Work, InProgress, AllFree, Left;
      Begin(dependencies, visited, cycleFree, weight, root);
      serviceChain := [Step(root, 0)];
      while true
        invariant Valid() && old(cycleFree) <= cycleFree && serviceChain != [] && serviceChain[0].name == root
        invariant cycleFree <= weight.Keys && InProgress(dependencies, serviceChain)
        decreases Left(dependencies.Keys, visited), Left(dependencies.Keys, cycleFree), Work(dependencies, cycleFree, weight, serviceChain)
      {
        AtTop(dependencies, visited, cycleFree, weight, serviceChain);
        var n := |serviceChain| - 1;
        var last := serviceChain[n];
        var deps := dependencies[last.name];
        if last.index >= |deps| {
          GoUp();
          if n == 0 {
            break;
          }
          continue;
        }
        var next := deps[last.index];
        if next !in dependencies {
          GoOn(dependencies, visited, cycleFree, weight, serviceChain);
          serviceChain := serviceChain[n := Step(last.name, last.index + 1)];
          AtTop(dependencies, visited, cycleFree, weight, serviceChain);
          continue;
        }
        if next in visited {
          if next !in cycleFree {
            var first := FirstOf(next);
            FoundCycle(dependencies, visited, cycleFree, weight, serviceChain, first);
            serviceChain := serviceChain[first..];
            break;
          }
        }
        Visit(next);
      }
    }

    // go down to the next service
    method Visit(next: string)
      requires Valid() && serviceChain != [] && next in dependencies && (next in visited ==> next in cycleFree)
      requires var last := serviceChain[|serviceChain| - 1];
        last.name in dependencies && last.index < |dependencies[last.name]| && dependencies[last.name][last.index] == next
      modifies this`visited, this`serviceChain
      ensures Valid() && serviceChain != [] && serviceChain[0] == old(serviceChain)[0] && visited == old(visited) + {next}
      ensures cycleFree <= weight.Keys && InProgress(dependencies, serviceChain) && InProgress(dependencies, old(serviceChain))
      ensures next !in old(visited) ==> Left(dependencies.Keys, visited) < old(Left(dependencies.Keys, visited))
      ensures next in old(visited) ==>
                visited == old(visited) && Work(dependencies, cycleFree, weight, serviceChain) < Work(dependencies, cycleFree, weight, old(serviceChain))
    {
      hide Searching, Settled, Linked, Work, InProgress, AllFree, Left;
      AtTop(dependencies, visited, cycleFree, weight, serviceChain);
      GoDown(dependencies, visited, cycleFree, weight, serviceChain, next);
      if next !in visited {
        Fewer(dependencies.Keys, visited, next);
      } else {
        assert visited + {next} == visited;
      }
      visited := visited + {next};
      serviceChain := serviceChain + [Step(next, 0)];
      AtTop(dependencies, visited, cycleFree, weight, serviceChain);
    }

    // go back up from a service whose dependencies have all been processed
    method GoUp()
      requires Valid() && serviceChain != []
      requires var last := serviceChain[|serviceChain| - 1]; last.name in dependencies && last.index >= |dependencies[last.name]|
      modifies this`cycleFree, this`serviceChain, this`weight
      ensures Valid() && (serviceChain == [] <==> |old(serviceChain)| == 1)
      ensures serviceChain != [] ==> serviceChain[0].name == old(serviceChain)[0].name
      ensures cycleFree == old(cycleFree) + {old(serviceChain[|serviceChain| - 1]).name}
      ensures cycleFree <= weight.Keys && InProgress(dependencies, serviceChain)
      ensures old(cycleFree) <= old(weight).Keys && InProgress(dependencies, old(serviceChain))
      ensures Left(dependencies.Keys, cycleFree) < old(Left(dependencies.Keys, cycleFree))
        || (cycleFree == old(cycleFree)
            && Work(dependencies, cycleFree, weight, serviceChain) < Work(dependencies, old(cycleFree), old(weight), old(serviceChain)))
    {
      hide Searching, Settled, Linked, Work, InProgress, AllFree, Cost, Left, Back;
      AtTop(dependencies, visited, cycleFree, weight, serviceChain);
      var n := |serviceChain| - 1;
      var last := serviceChain[n];
      NothingLeft(dependencies, cycleFree, dependencies[last.name], last.index);
      ghost var free0, weight0 := cycleFree, weight;
      if last.name !in cycleFree {
        Settle(dependencies, cycleFree, weight, last.name);
        Fewer(dependencies.Keys, cycleFree, last.name);
        weight := weight[last.name := 2 + Cost(cycleFree, weight, dependencies[last.name])];
      }
      cycleFree := cycleFree + {last.name};
      assert free0 == cycleFree || last.name !in free0;
      GoBack(dependencies, visited, free0, weight0, serviceChain, cycleFree, weight);
      AtTop(dependencies, visited, cycleFree, weight, Back(serviceChain));
      if free0 == cycleFree {
        LessWorkBack(dependencies, cycleFree, weight, serviceChain);
      }
      ghost var chain := serviceChain;
      BackAt(chain);
      serviceChain := serviceChain[..n];
      if n > 0 {
        serviceChain := serviceChain[n - 1 := Step(serviceChain[n - 1].name, serviceChain[n - 1].index + 1)];
      }
    }

    // where a service is first on the stack
    method FirstOf(name: string) returns (i: nat)
      requires name in Names(serviceChain)
      ensures i < |serviceChain| && serviceChain[i].name == name && name !in Names(serviceChain[..i])
    {
      i := 0;
      while serviceChain[i].name != name
        invariant i < |serviceChain| && forall k :: 0 <= k <= i && k < i ==> serviceChain[k].name != name
        decreases |serviceChain| - i
      {
        var k :| 0 <= k < |serviceChain| && Names(serviceChain)[k] == name;
        i := i + 1;
      }
    }

    // search from each requested service there is a record for, until there is a cycle
    method Search(requested: seq<string>)
      requires Valid() && serviceChain == [] && visited == {} && cycleFree == {}
      modifies this
      ensures serviceChain != [] ==> Closed(dependencies, serviceChain)
      ensures serviceChain != [] <==> exists r :: r in requested && r in dependencies && ReachesCycle(dependencies, r)
    {
      hide Searching, Settled, Closed, ReachesCycle;
      for i := 0 to |requested|
        invariant Valid() && serviceChain == []
        invariant forall k :: 0 <= k < i && requested[k] in dependencies ==> requested[k] in cycleFree
      {
        var root := requested[i];
        if root !in dependencies {
          continue;
        }
        if root in visited {
          VisitedSettled(dependencies, visited, cycleFree, weight, root);
          continue;
        }
        Explore(root);
        if serviceChain != [] {
          return;
        }
      }
      forall r | r in requested && r in dependencies ensures !ReachesCycle(dependencies, r) {
        SearchedNone(dependencies, visited, cycleFree, weight, serviceChain, r);
      }
    }
  }

  lemma Begin(g: Dependencies, visited: set<string>, free: set<string>, weight: map<string, nat>, root: string)
    requires Searching(g, visited, free, weight, []) && root in g
    ensures Searching(g, visited, free, weight, [Step(root, 0)])
    ensures free <= weight.Keys && InProgress(g, [Step(root, 0)])
  {
    assert Names([]) == [];
  }

  lemma AtTop(g: Dependencies, visited: set<string>, free: set<string>, weight: map<string, nat>, c: seq<Step>)
    requires Searching(g, visited, free, weight, c)
    ensures Settled(g, free, weight) && free <= weight.Keys && free <= g.Keys && visited <= g.Keys && InProgress(g, c)
    ensures c != [] ==>
              && var last := c[|c| - 1];
              && last.name in g && last.index <= |g[last.name]| && AllFree(g, free, g[last.name][..last.index])
              && forall next :: next in visited && next !in free ==> next in Names(c)
  {
  }

  // the search stops where it has come back to
  lemma FoundCycle(g: Dependencies, visited: set<string>, free: set<string>, weight: map<string, nat>, c: seq<Step>, first: nat)
    requires Searching(g, visited, free, weight, c) && first < |c|
    requires var last := c[|c| - 1]; last.index < |g[last.name]| && g[last.name][last.index] == c[first].name
    ensures Closed(g, c[first..]) && ReachesCycle(g, c[0].name)
  {
    assert c[first..][|c| - first - 1] == c[|c| - 1];
    ClosedIsCycle(g, c, first);
  }

  lemma VisitedSettled(g: Dependencies, visited: set<string>, free: set<string>, weight: map<string, nat>, r: string)
    requires Searching(g, visited, free, weight, []) && r in visited
    ensures r in free
  {
    assert Names([]) == [];
  }

  lemma SearchedNone(g: Dependencies, visited: set<string>, free: set<string>, weight: map<string, nat>, c: seq<Step>, r: string)
    requires Searching(g, visited, free, weight, c) && r in free
    ensures !ReachesCycle(g, r)
  {
    SettledReachesNone(g, free, weight, r);
  }
}
