// Checks against circular dependencies, as dependencies are loaded and as they are added on request.
module DependencyCycles {
  import opened Wrappers
  import opened UnorderedSets
  import opened LinkedSets

  // for each service, the services it depends on
  type Graph = seq<seq<nat>>

  ghost predicate IsGraph(g: Graph) {
    forall s, i :: 0 <= s < |g| && 0 <= i < |g[s]| ==> g[s][i] < |g|
  }

  // each service in p depends on the next
  ghost predicate Path(g: Graph, p: seq<nat>)
    decreases |p|
  {
    && p != []
    && (if |p| == 1 then p[0] < |g| else Path(g, p[..|p| - 1]) && p[|p| - 2] < |g| && p[|p| - 1] in g[p[|p| - 2]])
  }

  ghost predicate Leads(g: Graph, p: seq<nat>, a: nat, b: nat) {
    Path(g, p) && p[0] == a && p[|p| - 1] == b
  }

  ghost predicate Reaches(g: Graph, a: nat, b: nat) {
    exists p :: Leads(g, p, a, b)
  }

  ghost predicate Acyclic(g: Graph) {
    forall s, t {:trigger Reaches(g, t, s)} :: 0 <= s < |g| && t in g[s] ==> !Reaches(g, t, s)
  }

  lemma ReachesSelf(g: Graph, a: nat)
    requires a < |g|
    ensures Reaches(g, a, a)
  {
    assert Leads(g, [a], a, a);
  }

  lemma LeadsOn(g: Graph, p: seq<nat>, a: nat, b: nat, c: nat)
    requires Leads(g, p, a, b) && b < |g| && c in g[b]
    ensures Leads(g, p + [c], a, c)
  {
    var q := p + [c];
    assert q[..|q| - 1] == p;
  }

  lemma ReachesStep(g: Graph, a: nat, b: nat, c: nat)
    requires Reaches(g, a, b) && b < |g| && c in g[b]
    ensures Reaches(g, a, c)
  {
    var p :| Leads(g, p, a, b);
    LeadsOn(g, p, a, b, c);
  }

  // all but the last service of a path that has more than one
  lemma Shorter(g: Graph, p: seq<nat>, a: nat, b: nat)
    requires Leads(g, p, a, b) && |p| > 1
    ensures var q, x := p[..|p| - 1], p[|p| - 2]; Leads(g, q, a, x) && x < |g| && b in g[x]
  {
  }

  // One path continues another
  lemma {:induction false} LeadsTrans(g: Graph, a: nat, b: nat, q: seq<nat>, c: nat)
    requires Reaches(g, a, b) && Leads(g, q, b, c)
    ensures Reaches(g, a, c)
    decreases |q|
  {
    if |q| > 1 {
      Shorter(g, q, b, c);
      LeadsTrans(g, a, b, q[..|q| - 1], q[|q| - 2]);
      ReachesStep(g, a, q[|q| - 2], c);
    }
  }

  lemma ReachesTrans(g: Graph, a: nat, b: nat, c: nat)
    requires Reaches(g, a, b) && Reaches(g, b, c)
    ensures Reaches(g, a, c)
  {
    var q :| Leads(g, q, b, c);
    LeadsTrans(g, a, b, q, c);
  }

  lemma StepReaches(g: Graph, a: nat, b: nat, c: nat)
    requires a < |g| && b in g[a] && Reaches(g, b, c)
    ensures Reaches(g, a, c)
  {
    ReachesSelf(g, a);
    ReachesStep(g, a, a, b);
    ReachesTrans(g, a, b, c);
  }

  // the services in s depend only on one another
  ghost predicate Closed(g: Graph, s: set<nat>) {
    forall a, i {:trigger g[a][i]} :: a in s && a < |g| && 0 <= i < |g[a]| ==> g[a][i] in s
  }

  lemma {:induction false} StaysIn(g: Graph, s: set<nat>, p: seq<nat>, a: nat, b: nat)
    requires Closed(g, s) && Leads(g, p, a, b) && a in s
    ensures b in s
    decreases |p|
  {
    if |p| > 1 {
      Shorter(g, p, a, b);
      var x := p[|p| - 2];
      StaysIn(g, s, p[..|p| - 1], a, x);
      var k :| 0 <= k < |g[x]| && g[x][k] == b;
    }
  }

  lemma ClosedReachesOnly(g: Graph, s: set<nat>, a: nat, b: nat)
    requires Closed(g, s) && a in s && Reaches(g, a, b)
    ensures b in s
  {
    var p :| Leads(g, p, a, b);
    StaysIn(g, s, p, a, b);
  }

  // ---- an acyclic graph has ranks ----

  ghost function Reached(g: Graph, a: nat): set<nat> {
    set t: nat | t < |g| && Reaches(g, a, t)
  }

  // A service ranks above those it depends on
  lemma AcyclicHasRank(g: Graph, a: nat, b: nat)
    requires IsGraph(g) && Acyclic(g) && a < |g| && b in g[a]
    ensures |Reached(g, b)| < |Reached(g, a)|
  {
    ReachesSelf(g, a);
    assert a in Reached(g, a) && a !in Reached(g, b);
    forall t | t in Reached(g, b) ensures t in Reached(g, a) {
      StepReaches(g, a, b, t);
    }
    Smaller(Reached(g, b), Reached(g, a), a);
  }

  lemma Smaller(s: set<nat>, t: set<nat>, x: nat)
    requires s <= t && x in t && x !in s
    ensures |s| < |t|
  {
    assert t == s + (t - s);
    assert x in t - s;
    assert |t| == |s| + |t - s|;
  }

  ghost predicate Ranked(g: Graph, rank: seq<nat>) {
    |rank| == |g| && forall s, i {:trigger g[s][i]} :: 0 <= s < |g| && 0 <= i < |g[s]| ==> g[s][i] < |g| && rank[g[s][i]] < rank[s]
  }

  lemma RankedIsAcyclic(g: Graph, rank: seq<nat>)
    requires Ranked(g, rank)
    ensures Acyclic(g)
  {
    forall s, t: nat | 0 <= s < |g| && t in g[s] ensures !Reaches(g, t, s) {
      var k :| 0 <= k < |g[s]| && g[s][k] == t;
      var below := set u: nat | u < |g| && rank[u] <= rank[t];
      assert t in below && s !in below;
      if Reaches(g, t, s) {
        ClosedReachesOnly(g, below, t, s);
      }
    }
  }

  // Services can be ranked exactly if no dependencies are circular
  lemma AcyclicIsRanked(g: Graph)
    requires IsGraph(g)
    ensures Acyclic(g) <==> exists rank :: Ranked(g, rank)
  {
    if Acyclic(g) {
      var rank: seq<nat> := seq(|g|, s requires 0 <= s < |g| => |Reached(g, s)|);
      forall s, i {:trigger g[s][i]} | 0 <= s < |g| && 0 <= i < |g[s]| ensures g[s][i] < |g| && rank[g[s][i]] < rank[s] {
        AcyclicHasRank(g, s, g[s][i]);
      }
      assert Ranked(g, rank);
    }
    if rank :| Ranked(g, rank) {
      RankedIsAcyclic(g, rank);
    }
  }

  // ---- when dependencies are loaded ----

  // the values are not orig, and are reached from the new dependencies
  ghost predicate FromNew(g: Graph, newDeps: seq<nat>, orig: nat, values: seq<nat>) {
    forall i :: 0 <= i < |values| ==> values[i] != orig && values[i] < |g| && NewReaches(g, newDeps, values[i])
  }

  ghost predicate NewReaches(g: Graph, newDeps: seq<nat>, a: nat) {
    exists k :: 0 <= k < |newDeps| && Reaches(g, newDeps[k], a)
  }

  lemma NewReachesStep(g: Graph, newDeps: seq<nat>, a: nat, b: nat)
    requires NewReaches(g, newDeps, a) && a < |g| && b in g[a]
    ensures NewReaches(g, newDeps, b)
  {
    var k :| 0 <= k < |newDeps| && Reaches(g, newDeps[k], a);
    ReachesStep(g, newDeps[k], a, b);
  }

  // the first n of some dependencies are among the values
  ghost predicate AllIn(ds: seq<nat>, n: nat, values: seq<nat>) {
    n <= |ds| && forall i :: 0 <= i < n ==> ds[i] in values
  }

  lemma AllInMore(ds: seq<nat>, n: nat, values: seq<nat>, more: seq<nat>)
    requires AllIn(ds, n, values) && forall v :: v in values ==> v in more
    ensures AllIn(ds, n, more)
  {
  }

  // values, of which the first n have had their dependencies added
  ghost predicate Expanded(g: Graph, values: seq<nat>, n: nat) {
    n <= |values| && forall i :: 0 <= i < n ==> values[i] < |g| && AllIn(g[values[i]], |g[values[i]]|, values)
  }

  lemma ExpandedMore(g: Graph, values: seq<nat>, n: nat, more: seq<nat>)
    requires Expanded(g, values, n) && values <= more
    ensures Expanded(g, more, n)
  {
    forall i | 0 <= i < n ensures more[i] < |g| && AllIn(g[more[i]], |g[more[i]]|, more) {
      assert more[i] == values[i];
      AllInMore(g[values[i]], |g[values[i]]|, values, more);
    }
  }

  lemma ExpandedAll(g: Graph, newDeps: seq<nat>, orig: nat, values: seq<nat>)
    requires Expanded(g, values, |values|) && AllIn(newDeps, |newDeps|, values) && FromNew(g, newDeps, orig, values)
    ensures !NewReaches(g, newDeps, orig)
  {
    var s := set i | 0 <= i < |values| :: values[i];
    forall a, i {:trigger g[a][i]} | a in s && a < |g| && 0 <= i < |g[a]| ensures g[a][i] in s {
      var k :| 0 <= k < |values| && values[k] == a;
      assert AllIn(g[values[k]], |g[values[k]]|, values);
    }
    if NewReaches(g, newDeps, orig) {
      var k :| 0 <= k < |newDeps| && Reaches(g, newDeps[k], orig);
      assert newDeps[k] in values;
      ClosedReachesOnly(g, s, newDeps[k], orig);
    }
  }

  // no more values than there are services
  lemma {:induction false} FewValues(values: seq<nat>, n: nat)
    requires forall i :: 0 <= i < |values| ==> values[i] < n
    requires forall i, j :: 0 <= i < j < |values| ==> values[i] != values[j]
    ensures |values| <= n
    decreases n
  {
    if values != [] {
      assert values[0] < n;
      if k :| 0 <= k < |values| && values[k] == n - 1 {
        var fewer := values[..k] + values[k + 1..];
        assert forall i :: 0 <= i < |fewer| ==> fewer[i] == values[if i < k then i else i + 1];
        FewValues(fewer, n - 1);
      } else {
        FewValues(values, n - 1);
      }
    }
  }

  // check_cycle(): would the new dependencies of orig lead back to it?
  method CheckCycle(g: Graph, newDeps: seq<nat>, orig: nat, hash: nat -> nat, maxBuckets: nat) returns (cyclic: bool)
    requires 4 <= maxBuckets && IsGraph(g) && orig < |g| && forall i :: 0 <= i < |newDeps| ==> newDeps[i] < |g|
    ensures cyclic <==> exists k :: 0 <= k < |newDeps| && Reaches(g, newDeps[k], orig)
  {
    hide LinkedSet.Valid, LinkedSet.Values, FromNew, AllIn, Expanded, Reaches, IsGraph;
    var pending := new LinkedSet(hash, maxBuckets);
    cyclic := true;
    Nothing(g, newDeps, orig);
    for n := 0 to |newDeps|
      invariant pending.Valid() && fresh(pending.Repr)
      invariant AllIn(newDeps, n, pending.Values()) && FromNew(g, newDeps, orig, pending.Values())
    {
      if newDeps[n] == orig {
        ReachesSelf(g, orig);
        return;
      }
      ghost var before := pending.Values();
      var _ := pending.AddBack(newDeps[n]);
      ReachesSelf(g, newDeps[n]);
      assert NewReaches(g, newDeps, newDeps[n]);
      AddedOne(g, newDeps, orig, before, newDeps, n, pending.Values());
    }
    var i := pending.first;
    ghost var n: nat := 0;
    pending.FirstIs();
    ExpandedNone(g, pending.Values());
    while i != null
      invariant pending.Valid() && fresh(pending.Repr) && n <= |pending.order|
      invariant i == if n < |pending.order| then pending.order[n] else null
      invariant AllIn(newDeps, |newDeps|, pending.Values()) && FromNew(g, newDeps, orig, pending.Values()) && Expanded(g, pending.Values(), n)
      decreases |g| - n
    {
      pending.NextIs(n);
      pending.ValuesOnce();
      ghost var values := pending.Values();
      FromNewAt(g, newDeps, orig, values);
      FewValues(values, |g|);
      var deps := g[i.value];
      AllInNone(deps, values);
      for k := 0 to |deps|
        invariant pending.Valid() && fresh(pending.Repr)
        invariant n < |pending.order| && i == pending.order[n]
        invariant values <= pending.Values() && FromNew(g, newDeps, orig, pending.Values()) && AllIn(deps, k, pending.Values())
      {
        ghost var before := pending.Values();
        NewReachesStep(g, newDeps, i.value, deps[k]);
        if deps[k] == orig {
          return;
        }
        GraphAt(g, i.value, k);
        var _ := pending.AddBack(deps[k]);
        AddedOne(g, newDeps, orig, before, deps, k, pending.Values());
      }
      ExpandedMore(g, values, n, pending.Values());
      AllInMore(newDeps, |newDeps|, values, pending.Values());
      pending.NextIs(n);
      ExpandedNext(g, pending.Values(), n);
      i := i.next;
      n := n + 1;
    }
    ExpandedAll(g, newDeps, orig, pending.Values());
    cyclic := false;
  }

  lemma ExpandedNone(g: Graph, values: seq<nat>)
    ensures Expanded(g, values, 0)
  {
  }

  lemma ExpandedNext(g: Graph, values: seq<nat>, n: nat)
    requires Expanded(g, values, n) && n < |values| && values[n] < |g| && AllIn(g[values[n]], |g[values[n]]|, values)
    ensures Expanded(g, values, n + 1)
  {
  }

  lemma AllInNone(ds: seq<nat>, values: seq<nat>)
    ensures AllIn(ds, 0, values)
  {
  }

  lemma GraphAt(g: Graph, s: nat, k: nat)
    requires IsGraph(g) && s < |g| && k < |g[s]|
    ensures g[s][k] < |g|
  {
  }

  lemma FromNewAt(g: Graph, newDeps: seq<nat>, orig: nat, values: seq<nat>)
    requires FromNew(g, newDeps, orig, values)
    ensures forall i :: 0 <= i < |values| ==> values[i] != orig && values[i] < |g| && NewReaches(g, newDeps, values[i])
  {
  }

  lemma Nothing(g: Graph, newDeps: seq<nat>, orig: nat)
    ensures AllIn(newDeps, 0, []) && FromNew(g, newDeps, orig, []) && Expanded(g, [], 0)
  {
  }

  lemma AddedOne(g: Graph, newDeps: seq<nat>, orig: nat, values: seq<nat>, ds: seq<nat>, n: nat, more: seq<nat>)
    requires AllIn(ds, n, values) && FromNew(g, newDeps, orig, values) && n < |ds|
    requires more == if ds[n] in values then values else values + [ds[n]]
    requires ds[n] != orig && ds[n] < |g| && NewReaches(g, newDeps, ds[n])
    ensures AllIn(ds, n + 1, more) && FromNew(g, newDeps, orig, more) && values <= more
  {
    hide NewReaches;
  }

  // ---- when dependencies are added on request ----

  datatype Dep = Dep(to: nat, kind: nat)

  // the kinds of dependency that can be asked for
  const REGULAR: nat := 0
  const WAITS_FOR: nat := 2
  const MILESTONE: nat := 3

  datatype Reply = Ack | Nak | BadRequest

  function Targets(deps: seq<seq<Dep>>): (g: Graph)
    ensures |g| == |deps| && forall s :: 0 <= s < |g| ==> |g[s]| == |deps[s]|
    ensures forall s, i {:trigger g[s][i]} :: 0 <= s < |g| && 0 <= i < |g[s]| ==> g[s][i] == deps[s][i].to
  {
    seq(|deps|, s requires 0 <= s < |deps| => seq(|deps[s]|, i requires 0 <= i < |deps[s]| => deps[s][i].to))
  }

  // Without a way back, a new dependency closes no cycle
  lemma AddedAcyclic(g: Graph, h: Graph, from: nat, to: nat)
    requires IsGraph(g) && Acyclic(g) && from < |g| && to < |g| && from != to && !Reaches(g, to, from)
    requires h == g[from := g[from] + [to]]
    ensures IsGraph(h) && Acyclic(h)
  {
    forall s, t: nat | 0 <= s < |h| && t in h[s] ensures !Reaches(h, t, s) {
      if Reaches(h, t, s) {
        if s == from && t == to {
          NewPath(g, h, from, to, to, from);
        } else {
          assert t in g[s];
          NewPath(g, h, from, to, t, s);
          if Reaches(g, t, from) && Reaches(g, to, s) {
            ReachesStep(g, to, s, t);
            ReachesTrans(g, to, t, from);
          }
        }
      }
    }
  }

  // A path with the new dependency is one without, or one to it and one from it
  lemma NewPath(g: Graph, h: Graph, from: nat, to: nat, a: nat, b: nat)
    requires from < |g| && to < |g| && h == g[from := g[from] + [to]] && Reaches(h, a, b)
    ensures Reaches(g, a, b) || (Reaches(g, a, from) && Reaches(g, to, b))
  {
    var p :| Leads(h, p, a, b);
    NewPathAlong(g, h, from, to, p, a, b);
  }

  lemma {:induction false} NewPathAlong(g: Graph, h: Graph, from: nat, to: nat, p: seq<nat>, a: nat, b: nat)
    requires from < |g| && to < |g| && h == g[from := g[from] + [to]] && Leads(h, p, a, b)
    ensures Reaches(g, a, b) || (Reaches(g, a, from) && Reaches(g, to, b))
    decreases |p|
  {
    if |p| == 1 {
      ReachesSelf(g, a);
    } else {
      Shorter(h, p, a, b);
      var x := p[|p| - 2];
      NewPathAlong(g, h, from, to, p[..|p| - 1], a, x);
      if b in g[x] {
        if Reaches(g, a, x) {
          ReachesStep(g, a, x, b);
        } else {
          ReachesStep(g, to, x, b);
        }
      } else {
        assert x == from && b == to;
        ReachesSelf(g, to);
      }
    }
  }

  // fewer dependencies, fewer paths
  lemma RemovedAcyclic(g: Graph, h: Graph)
    requires IsGraph(g) && Acyclic(g) && Fewer(h, g)
    ensures IsGraph(h) && Acyclic(h)
  {
    forall s, i | 0 <= s < |h| && 0 <= i < |h[s]| ensures h[s][i] < |h| {
      assert h[s][i] in h[s];
    }
    forall s, t: nat | 0 <= s < |h| && t in h[s] ensures !Reaches(h, t, s) {
      if Reaches(h, t, s) {
        PathRemains(g, h, t, s);
      }
    }
  }

  ghost predicate Fewer(h: Graph, g: Graph) {
    |h| == |g| && forall s, t {:trigger t in h[s]} :: 0 <= s < |h| && t in h[s] ==> t in g[s]
  }

  lemma PathRemains(g: Graph, h: Graph, a: nat, b: nat)
    requires Fewer(h, g) && Reaches(h, a, b)
    ensures Reaches(g, a, b)
  {
    var p :| Leads(h, p, a, b);
    PathRemainsAlong(g, h, p, a, b);
  }

  lemma {:induction false} PathRemainsAlong(g: Graph, h: Graph, p: seq<nat>, a: nat, b: nat)
    requires Fewer(h, g) && Leads(h, p, a, b)
    ensures Reaches(g, a, b)
    decreases |p|
  {
    if |p| == 1 {
      ReachesSelf(g, a);
    } else {
      Shorter(h, p, a, b);
      PathRemainsAlong(g, h, p[..|p| - 1], a, p[|p| - 2]);
      ReachesStep(g, a, p[|p| - 2], b);
    }
  }

  // ---- the walk on behalf of a request ----

  // what has been reached: the services marked and the first; those not in the queue have had their dependencies marked
  ghost predicate Walking(g: Graph, to: nat, from: nat, marks: set<nat>, queue: seq<nat>, busy: set<nat>) {
    && (forall m :: m in marks ==> m < |g| && m != from && Reaches(g, to, m))
    && (forall i :: 0 <= i < |queue| ==> queue[i] in marks + {to})
    && (forall m :: m in marks + {to} && m !in queue && m !in busy ==> AllMarked(g, m, marks))
  }

  ghost predicate AllMarked(g: Graph, m: nat, marks: set<nat>) {
    m < |g| && forall i :: 0 <= i < |g[m]| ==> g[m][i] in marks
  }

  lemma WalkDone(g: Graph, to: nat, from: nat, marks: set<nat>)
    requires Walking(g, to, from, marks, [], {}) && to != from
    ensures !Reaches(g, to, from)
  {
    var s := marks + {to};
    forall a, i {:trigger g[a][i]} | a in s && a < |g| && 0 <= i < |g[a]| ensures g[a][i] in s {
      assert AllMarked(g, a, marks);
    }
    if Reaches(g, to, from) {
      ClosedReachesOnly(g, s, to, from);
    }
  }

  lemma {:induction false} MarksFew(marks: set<nat>, n: nat)
    requires forall m :: m in marks ==> m < n
    ensures |marks| <= n
    decreases n
  {
    if n == 0 {
      assert marks == {};
    } else if n - 1 in marks {
      MarksFew(marks - {n - 1}, n - 1);
      assert marks == (marks - {n - 1}) + {n - 1};
    } else {
      MarksFew(marks, n - 1);
    }
  }

  // the service taken off the queue has its first k dependencies marked
  lemma WalkStep(g: Graph, to: nat, from: nat, marks: set<nat>, queue: seq<nat>, s: nat, d: nat, marks2: set<nat>, queue2: seq<nat>)
    requires Walking(g, to, from, marks, queue, {s}) && s in marks + {to} && to < |g| && s < |g| && d in g[s] && d < |g| && d != from
    requires if d in marks then marks2 == marks && queue2 == queue else marks2 == marks + {d} && queue2 == queue + [d]
    ensures Walking(g, to, from, marks2, queue2, {s})
  {
    ReachesSelf(g, to);
    ReachesStep(g, to, s, d);
    forall m | m in marks2 + {to} && m !in queue2 && m != s ensures AllMarked(g, m, marks2) {
      assert m !in queue;
      assert d !in marks ==> queue2[|queue|] == d;
      assert AllMarked(g, m, marks);
    }
  }

  class DependencySet {
    var deps: seq<seq<Dep>>

    ghost predicate Valid()
      reads this
    {
      IsGraph(Targets(deps)) && Acyclic(Targets(deps))
    }

    constructor (n: nat)
      ensures Valid() && deps == seq(n, _ => [])
    {
      deps := seq(n, _ => []);
    }

    // does a dependency chain lead from to back to from?
    method LeadsBack(to: nat, from: nat) returns (cyclic: bool)
      requires IsGraph(Targets(deps)) && to < |deps| && from < |deps| && from != to
      ensures cyclic <==> Reaches(Targets(deps), to, from)
    {
      hide Reaches, Walking, IsGraph, AllMarked;
      ghost var g := Targets(deps);
      var marks: set<nat>, queue := {}, [to];
      ReachesSelf(g, to);
      WalkBegins(g, to, from);
      MarksBelow(g, to, from, marks, queue, {});
      while queue != []
        invariant Walking(g, to, from, marks, queue, {}) && |marks| <= |g|
        decreases |g| - |marks|, |queue|
      {
        var s := queue[|queue| - 1];
        WalkTop(g, to, from, marks, queue);
        queue := queue[..|queue| - 1];
        ghost var marks0, queue0 := marks, queue;
        for k := 0 to |deps[s]|
          invariant Walking(g, to, from, marks, queue, {s}) && marks0 <= marks && s in marks + {to}
          invariant |marks| <= |g| && |marks0| <= |marks| && (marks == marks0 ==> queue == queue0) && (marks != marks0 ==> |marks| > |marks0|)
          invariant forall i :: 0 <= i < k ==> g[s][i] in marks
        {
          var to2 := deps[s][k].to;
          GraphAt(g, s, k);
          assert g[s][k] == to2 && to2 in g[s];
          if to2 == from {
            WalkFound(g, to, from, marks, queue, s);
            return true;
          }
          WalkStep(g, to, from, marks, queue, s, to2, if to2 in marks then marks else marks + {to2}, if to2 in marks then queue else queue + [to2]);
          if to2 !in marks {
            marks := marks + {to2};
            queue := queue + [to2];
          }
          MarksBelow(g, to, from, marks, queue, {s});
        }
        WalkRest(g, to, from, marks, queue, s);
      }
      WalkDone(g, to, from, marks);
      cyclic := false;
    }

    // the request for a dependency of one service on another; a handle may not stand for a service
    method AddServiceDep(fromHandle: Option<nat>, toHandle: Option<nat>, kind: nat, fromStopped: bool, toStarted: bool)
      returns (replies: seq<Reply>, close: bool)
      requires Valid() && (fromHandle.Some? ==> fromHandle.value < |deps|) && (toHandle.Some? ==> toHandle.value < |deps|)
      modifies this
      ensures Valid() && |deps| == old(|deps|)
      ensures BadHandles(fromHandle, toHandle) ==> replies == [BadRequest] && close && deps == old(deps)
      ensures !BadHandles(fromHandle, toHandle) ==>
                && var from, to := fromHandle.value, toHandle.value;
                && var contradicted := kind == REGULAR && !fromStopped && !toStarted;
                && var refused := contradicted || Reaches(Targets(old(deps)), to, from);
                && close == !Requestable(kind)
                && replies == (if close then [BadRequest] else []) + [if refused then Nak else Ack]
                && deps == if refused || Dep(to, kind) in old(deps[from]) then old(deps) else old(deps)[from := old(deps[from]) + [Dep(to, kind)]]
    {
      hide Reaches, IsGraph, Acyclic;
      replies, close := [], false;
      if fromHandle.None? || toHandle.None? || fromHandle == toHandle {
        return [BadRequest], true;
      }
      var from, to := fromHandle.value, toHandle.value;
      if !Requestable(kind) {
        // the request is answered, and then carried out all the same
        replies, close := [BadRequest], true;
      }
      if kind == REGULAR && !fromStopped && !toStarted {
        replies := replies + [Nak];
        return;
      }
      var cyclic := LeadsBack(to, from);
      if cyclic {
        replies := replies + [Nak];
        return;
      }
      var exists_ := false;
      for i := 0 to |deps[from]|
        invariant exists_ <==> Dep(to, kind) in deps[from][..i]
      {
        assert deps[from][..i + 1] == deps[from][..i] + [deps[from][i]];
        if deps[from][i] == Dep(to, kind) {
          exists_ := true;
        }
      }
      assert deps[from][..|deps[from]|] == deps[from];
      if !exists_ {
        ghost var g := Targets(deps);
        deps := deps[from := deps[from] + [Dep(to, kind)]];
        TargetsAdded(old(deps), from, Dep(to, kind));
        AddedAcyclic(g, Targets(deps), from, to);
      }
      replies := replies + [Ack];
    }

    // the request to remove a dependency
    method RemoveServiceDep(fromHandle: Option<nat>, toHandle: Option<nat>, kind: nat) returns (replies: seq<Reply>, close: bool)
      requires Valid() && (fromHandle.Some? ==> fromHandle.value < |deps|) && (toHandle.Some? ==> toHandle.value < |deps|)
      modifies this
      ensures Valid() && |deps| == old(|deps|)
      ensures BadHandles(fromHandle, toHandle) ==> replies == [BadRequest] && close && deps == old(deps)
      ensures !BadHandles(fromHandle, toHandle) ==>
                && var from, d := fromHandle.value, Dep(toHandle.value, kind);
                && close == !Requestable(kind)
                && replies == (if close then [BadRequest] else []) + [if d in old(deps[from]) then Ack else Nak]
                && (d !in old(deps[from]) ==> deps == old(deps))
                && (d in old(deps[from]) ==> deps == old(deps)[from := deps[from]] && FirstRemoved(old(deps[from]), deps[from], d))
    {
      if fromHandle.None? || toHandle.None? || fromHandle == toHandle {
        return [BadRequest], true;
      }
      // as when adding, a request of another kind is answered and then carried out
      close := !Requestable(kind);
      var removed := Remove(fromHandle.value, Dep(toHandle.value, kind));
      replies := (if close then [BadRequest] else []) + [if removed then Ack else Nak];
    }

    // rm_dep()
    method Remove(from: nat, d: Dep) returns (removed: bool)
      requires Valid() && from < |deps|
      modifies this
      ensures Valid() && removed == (d in old(deps[from]))
      ensures !removed ==> deps == old(deps)
      ensures removed ==> |deps| == |old(deps)| && deps == old(deps)[from := deps[from]] && FirstRemoved(old(deps[from]), deps[from], d)
    {
      hide Reaches, IsGraph, Acyclic;
      removed := false;
      for i := 0 to |deps[from]|
        invariant deps == old(deps) && d !in deps[from][..i]
      {
        if deps[from][i] == d {
          ghost var g := Targets(deps);
          deps := deps[from := deps[from][..i] + deps[from][i + 1..]];
          TargetsRemoved(old(deps), from, i);
          RemovedAcyclic(g, Targets(deps));
          assert FirstRemoved(old(deps[from]), deps[from], d);
          return true;
        }
        assert deps[from][..i + 1] == deps[from][..i] + [deps[from][i]];
      }
      assert deps[from][..|deps[from]|] == deps[from];
    }
  }

  ghost predicate FirstRemoved(before: seq<Dep>, after: seq<Dep>, d: Dep) {
    exists i :: 0 <= i < |before| && before[i] == d && d !in before[..i] && after == before[..i] + before[i + 1..]
  }

  predicate Requestable(kind: nat) {
    kind == MILESTONE || kind == REGULAR || kind == WAITS_FOR
  }

  predicate BadHandles(from: Option<nat>, to: Option<nat>) {
    from.None? || to.None? || from == to
  }

  lemma TargetsAdded(deps: seq<seq<Dep>>, from: nat, d: Dep)
    requires from < |deps|
    ensures var g := Targets(deps); Targets(deps[from := deps[from] + [d]]) == g[from := g[from] + [d.to]]
  {
    var h := Targets(deps[from := deps[from] + [d]]);
    assert h[from] == Targets(deps)[from] + [d.to];
    forall s | 0 <= s < |h| && s != from ensures h[s] == Targets(deps)[s] {
    }
  }

  lemma TargetsRemoved(deps: seq<seq<Dep>>, from: nat, i: nat)
    requires from < |deps| && i < |deps[from]|
    ensures var g, h := Targets(deps), Targets(deps[from := deps[from][..i] + deps[from][i + 1..]]);
      Fewer(h, g)
  {
    var g, h := Targets(deps), Targets(deps[from := deps[from][..i] + deps[from][i + 1..]]);
    forall s, t: nat | 0 <= s < |h| && t in h[s] ensures t in g[s] {
      var k :| 0 <= k < |h[s]| && h[s][k] == t;
      var k0 := if s == from && k >= i then k + 1 else k;
      assert g[s][k0] == t;
    }
  }

  lemma WalkBegins(g: Graph, to: nat, from: nat)
    ensures Walking(g, to, from, {}, [to], {})
  {
  }

  lemma MarksBelow(g: Graph, to: nat, from: nat, marks: set<nat>, queue: seq<nat>, busy: set<nat>)
    requires Walking(g, to, from, marks, queue, busy)
    ensures |marks| <= |g|
  {
    MarksFew(marks, |g|);
  }

  lemma WalkTop(g: Graph, to: nat, from: nat, marks: set<nat>, queue: seq<nat>)
    requires Walking(g, to, from, marks, queue, {}) && queue != [] && to < |g|
    ensures var s := queue[|queue| - 1];
      s < |g| && s in marks + {to} && Walking(g, to, from, marks, queue[..|queue| - 1], {s})
  {
  }

  lemma WalkFound(g: Graph, to: nat, from: nat, marks: set<nat>, queue: seq<nat>, s: nat)
    requires Walking(g, to, from, marks, queue, {s}) && s in marks + {to} && to < |g| && s < |g| && from in g[s]
    ensures Reaches(g, to, from)
  {
    ReachesSelf(g, to);
    ReachesStep(g, to, s, from);
  }

  lemma WalkRest(g: Graph, to: nat, from: nat, marks: set<nat>, queue: seq<nat>, s: nat)
    requires Walking(g, to, from, marks, queue, {s}) && s < |g| && forall i :: 0 <= i < |g[s]| ==> g[s][i] in marks
    ensures Walking(g, to, from, marks, queue, {})
  {
  }
}
