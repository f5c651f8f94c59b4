// Start pins reach hard dependencies: the flags that record this, and the messages that bring them up to date.
module ServicePins {
  import opened ServiceRecords
  import opened ServiceBooks
  import opened ServiceStops

  // the hard link l carries a pin
  predicate Pinning(g: Graph, svc: seq<Service>, lnk: seq<Link>, l: nat) {
    && l < |lnk| == |g.from| == |g.to| == |g.kind| && g.from[l] < |svc|
    && g.IsHard(l, lnk[l]) && svc[g.from[l]].IsStartPinned()
  }

  // some hard dependent of s is start-pinned
  ghost predicate DependentPinned(g: Graph, svc: seq<Service>, lnk: seq<Link>, s: nat) {
    exists l :: 0 <= l < |lnk| && l < |g.to| && g.to[l] == s && Pinning(g, svc, lnk, l)
  }

  predicate Pending(svc: seq<Service>, queue: set<nat>, s: nat) {
    s < |svc| && svc[s].prop.pinDpt && s in queue
  }

  // s has been told to look at its dependents again, or its flag is up to date
  ghost predicate UpToDate(g: Graph, svc: seq<Service>, lnk: seq<Link>, queue: set<nat>, s: nat) {
    s < |svc| && (Pending(svc, queue, s) || (svc[s].pins.dept <==> DependentPinned(g, svc, lnk, s)))
  }

  ghost predicate AllUpToDate(g: Graph, svc: seq<Service>, lnk: seq<Link>, queue: set<nat>) {
    forall s :: 0 <= s < |svc| ==> UpToDate(g, svc, lnk, queue, s)
  }

  ghost predicate AllUpToDateBut(g: Graph, svc: seq<Service>, lnk: seq<Link>, queue: set<nat>, x: nat) {
    forall s :: 0 <= s < |svc| && s != x ==> UpToDate(g, svc, lnk, queue, s)
  }

  // x has a hard link to s, whose flag is not d
  ghost predicate Tells(g: Graph, svc: seq<Service>, lnk: seq<Link>, x: nat, d: bool, s: nat) {
    && s < |svc| && svc[s].pins.dept != d
    && exists l :: 0 <= l < |lnk| == |g.from| == |g.to| == |g.kind| && g.from[l] == x && g.to[l] == s && g.IsHard(l, lnk[l])
  }

  // the pins of a are those of b but for x's own, and the services x tells are pending
  ghost predicate PinChange(g: Graph, a: World, b: World, x: nat, d: bool, tell: bool) {
    && Shape(g, a) && Shape(g, b) && a.prop <= b.prop && x < |a.svc|
    && (forall l :: 0 <= l < |a.lnk| ==> g.IsHard(l, b.lnk[l]) == g.IsHard(l, a.lnk[l]))
    && (forall s :: 0 <= s < |a.svc| && s != x ==> b.svc[s].pins == a.svc[s].pins)
    && (forall s :: 0 <= s < |a.svc| ==> (a.svc[s].prop.pinDpt ==> b.svc[s].prop.pinDpt))
    && (tell ==> forall s :: 0 <= s < |a.svc| && Tells(g, a.svc, a.lnk, x, d, s) ==> Pending(b.svc, b.prop, s))
  }

  lemma PinnedSame(g: Graph, a: World, b: World, x: nat, d: bool, tell: bool, s: nat)
    requires PinChange(g, a, b, x, d, tell) && s < |a.svc|
    requires b.svc[x].IsStartPinned() == a.svc[x].IsStartPinned() || (forall l :: 0 <= l < |a.lnk| && g.to[l] == s && g.IsHard(l, a.lnk[l]) ==> g.from[l] != x)
    ensures DependentPinned(g, b.svc, b.lnk, s) <==> DependentPinned(g, a.svc, a.lnk, s)
  {
    forall l | 0 <= l < |a.lnk| && g.to[l] == s ensures Pinning(g, b.svc, b.lnk, l) == Pinning(g, a.svc, a.lnk, l) {
    }
  }

  // Whatever leaves x as pinned as it was, and takes no message away, keeps the flags up to date
  lemma PinsUntouched(g: Graph, a: World, b: World, x: nat, y: nat)
    requires PinChange(g, a, b, x, false, false)
    requires b.svc[x].IsStartPinned() == a.svc[x].IsStartPinned() && (b.svc[x].pins.dept == a.svc[x].pins.dept || y == x)
    requires AllUpToDateBut(g, a.svc, a.lnk, a.prop, y)
    ensures AllUpToDateBut(g, b.svc, b.lnk, b.prop, y)
  {
    forall s | 0 <= s < |b.svc| && s != y ensures UpToDate(g, b.svc, b.lnk, b.prop, s) {
      assert UpToDate(g, a.svc, a.lnk, a.prop, s);
      PinnedSame(g, a, b, x, false, false, s);
    }
  }

  lemma StopPins(g: Graph, a: World, b: World, x: nat)
    requires StopRel(g, a, b, x) && AllUpToDate(g, a.svc, a.lnk, a.prop)
    ensures AllUpToDate(g, b.svc, b.lnk, b.prop)
  {
    PinsUntouched(g, a, b, x, |a.svc|);
  }

  // x has looked at its dependents
  lemma LookedUp(g: Graph, a: World, b: World, x: nat)
    requires g.Valid() && AllUpToDateBut(g, b.svc, b.lnk, b.prop, x) && PinChange(g, a, b, x, false, false)
    requires b.svc[x].pins.dept <==> DependentPinned(g, a.svc, a.lnk, x)
    ensures AllUpToDate(g, b.svc, b.lnk, b.prop)
  {
    forall l | 0 <= l < |a.lnk| && g.to[l] == x ensures g.from[l] != x {
      g.Ends(l);
    }
    PinnedSame(g, a, b, x, false, false, x);
    assert UpToDate(g, b.svc, b.lnk, b.prop, x);
  }

  // x starts or ceases to be pinned, and tells the dependencies whose flag that may change
  lemma PinsToldUpToDate(g: Graph, a: World, b: World, x: nat, d: bool, y: nat)
    requires g.Valid() && PinChange(g, a, b, x, d, true)
    requires b.svc[x].IsStartPinned() == d && a.svc[x].IsStartPinned() == !d
    requires b.svc[x].pins.dept == a.svc[x].pins.dept || y == x
    requires AllUpToDateBut(g, a.svc, a.lnk, a.prop, y)
    ensures AllUpToDateBut(g, b.svc, b.lnk, b.prop, y)
  {
    forall s | 0 <= s < |b.svc| && s != y ensures UpToDate(g, b.svc, b.lnk, b.prop, s) {
      assert UpToDate(g, a.svc, a.lnk, a.prop, s);
      if forall l :: 0 <= l < |a.lnk| && g.to[l] == s && g.IsHard(l, a.lnk[l]) ==> g.from[l] != x {
        PinnedSame(g, a, b, x, d, true, s);
      } else {
        var l :| 0 <= l < |a.lnk| && g.to[l] == s && g.IsHard(l, a.lnk[l]) && g.from[l] == x;
        g.Ends(l);
        if Tells(g, a.svc, a.lnk, x, d, s) {
          assert Pending(b.svc, b.prop, s);
        } else if d {
          assert Pinning(g, b.svc, b.lnk, l);
        } else {
          assert Pinning(g, a.svc, a.lnk, l);
        }
      }
    }
  }

  // ---- closure: the flags, once up to date ----

  // p is a chain of hard links that starts at a service pinned by request and ends at s
  ghost predicate PinChain(g: Graph, svc: seq<Service>, lnk: seq<Link>, p: seq<nat>, s: nat)
    decreases |p|
  {
    && |p| > 0
    && var l := p[|p| - 1];
       && l < |lnk| == |g.from| == |g.to| == |g.kind| && g.to[l] == s && g.from[l] < |svc| && g.IsHard(l, lnk[l])
       && (svc[g.from[l]].pins.started || PinChain(g, svc, lnk, p[..|p| - 1], g.from[l]))
  }

  ghost predicate PinnedFromAbove(g: Graph, svc: seq<Service>, lnk: seq<Link>, s: nat) {
    exists p :: PinChain(g, svc, lnk, p, s)
  }

  lemma {:induction false} FlagIsChain(g: Graph, svc: seq<Service>, lnk: seq<Link>, s: nat) returns (p: seq<nat>)
    requires g.Valid() && |svc| == |g.rank| && |lnk| == |g.from| && s < |svc|
    requires forall t :: 0 <= t < |svc| ==> (svc[t].pins.dept <==> DependentPinned(g, svc, lnk, t))
    requires svc[s].pins.dept
    ensures PinChain(g, svc, lnk, p, s)
    decreases g.top - g.rank[s]
  {
    var l :| 0 <= l < |lnk| && g.to[l] == s && Pinning(g, svc, lnk, l);
    g.Ends(l);
    if svc[g.from[l]].pins.started {
      p := [l];
    } else {
      var q := FlagIsChain(g, svc, lnk, g.from[l]);
      p := q + [l];
      assert p[..|p| - 1] == q;
    }
  }

  lemma {:induction false} ChainSetsFlag(g: Graph, svc: seq<Service>, lnk: seq<Link>, p: seq<nat>, s: nat)
    requires g.Valid() && |svc| == |g.rank| && |lnk| == |g.from| && s < |svc|
    requires forall t :: 0 <= t < |svc| ==> (svc[t].pins.dept <==> DependentPinned(g, svc, lnk, t))
    requires PinChain(g, svc, lnk, p, s)
    ensures svc[s].pins.dept
    decreases |p|
  {
    var l := p[|p| - 1];
    if !svc[g.from[l]].pins.started {
      ChainSetsFlag(g, svc, lnk, p[..|p| - 1], g.from[l]);
    }
    assert Pinning(g, svc, lnk, l);
  }

  // With no message outstanding, a service is pinned on account of a dependent exactly if a chain of
  // hard dependents leads up to one that was pinned by request.
  lemma PinsAreTransitive(g: Graph, svc: seq<Service>, lnk: seq<Link>, queue: set<nat>, s: nat)
    requires g.Valid() && |svc| == |g.rank| && |lnk| == |g.from| && s < |svc|
    requires AllUpToDate(g, svc, lnk, queue)
    requires forall t :: 0 <= t < |svc| ==> !Pending(svc, queue, t)
    ensures svc[s].pins.dept <==> PinnedFromAbove(g, svc, lnk, s)
  {
    forall t | 0 <= t < |svc| ensures svc[t].pins.dept <==> DependentPinned(g, svc, lnk, t) {
      assert UpToDate(g, svc, lnk, queue, t);
    }
    if svc[s].pins.dept {
      var p := FlagIsChain(g, svc, lnk, s);
    }
    if PinnedFromAbove(g, svc, lnk, s) {
      var p :| PinChain(g, svc, lnk, p, s);
      ChainSetsFlag(g, svc, lnk, p, s);
    }
  }

  // ---- termination: every message weighs more than all those it can give rise to ----

  ghost function Weight(g: Graph, s: nat): nat
    requires g.Valid() && s < |g.rank|
    decreases g.rank[s], |g.dependsOn[s]| + 1
  {
    1 + WeightOf(g, s, |g.dependsOn[s]|)
  }

  ghost function WeightOf(g: Graph, s: nat, n: nat): nat
    requires g.Valid() && s < |g.rank| && n <= |g.dependsOn[s]|
    decreases g.rank[s], n
  {
    if n == 0 then 0
    else
      g.DependsOnAt(s, n - 1);
      g.Ends(g.dependsOn[s][n - 1]);
      WeightOf(g, s, n - 1) + Weight(g, g.to[g.dependsOn[s][n - 1]])
  }

  // of the first n services, those in q
  ghost function Total(g: Graph, q: set<nat>, n: nat): nat
    requires g.Valid() && n <= |g.rank|
  {
    if n == 0 then 0 else Total(g, q, n - 1) + (if n - 1 in q then Weight(g, n - 1) else 0)
  }

  lemma {:induction false} TotalTake(g: Graph, q: set<nat>, x: nat, n: nat)
    requires g.Valid() && n <= |g.rank| && x in q && x < |g.rank|
    ensures Total(g, q, n) == Total(g, q - {x}, n) + (if x < n then Weight(g, x) else 0)
  {
    if n > 0 {
      TotalTake(g, q, x, n - 1);
    }
  }

  lemma {:induction false} TotalMore(g: Graph, q: set<nat>, y: nat, n: nat)
    requires g.Valid() && n <= |g.rank| && y < |g.rank|
    ensures Total(g, q + {y}, n) <= Total(g, q, n) + Weight(g, y)
  {
    if y in q {
      assert q + {y} == q;
    } else {
      TotalTake(g, q + {y}, y, n);
      assert q + {y} - {y} == q;
    }
  }

  // targets of the first n links of x join the queue
  ghost predicate Joined(g: Graph, q: set<nat>, r: set<nat>, x: nat, n: nat) {
    && x < |g.dependsOn| && n <= |g.dependsOn[x]| && q <= r
    && forall t :: t in r && t !in q ==> exists i :: 0 <= i < n && g.dependsOn[x][i] < |g.to| && g.to[g.dependsOn[x][i]] == t
  }

  lemma JoinedBefore(g: Graph, q: set<nat>, r: set<nat>, x: nat, n: nat, y: nat)
    requires Joined(g, q, r, x, n + 1) && g.dependsOn[x][n] < |g.to| && y == g.to[g.dependsOn[x][n]]
    ensures Joined(g, q, if y in q then r else r - {y}, x, n)
  {
  }

  lemma JoinedNowhere(g: Graph, q: set<nat>, r: set<nat>, x: nat)
    requires g.Valid() && x < |g.rank| && Joined(g, q, r, x, 0)
    ensures r == q
  {
  }

  lemma {:induction false} TotalJoined(g: Graph, q: set<nat>, r: set<nat>, x: nat, n: nat)
    requires g.Valid() && x < |g.rank| && n <= |g.dependsOn[x]| && Joined(g, q, r, x, n)
    ensures Total(g, r, |g.rank|) <= Total(g, q, |g.rank|) + WeightOf(g, x, n)
    decreases n
  {
    hide Joined;
    if n == 0 {
      JoinedNowhere(g, q, r, x);
    } else {
      g.DependsOnAt(x, n - 1);
      g.Ends(g.dependsOn[x][n - 1]);
      var y := g.to[g.dependsOn[x][n - 1]];
      JoinedBefore(g, q, r, x, n - 1, y);
      hide Graph.Valid, Total, Weight;
      if y in q {
        TotalJoined(g, q, r, x, n - 1);
      } else {
        TotalJoined(g, q, r - {y}, x, n - 1);
        TotalMore(g, r - {y}, y, |g.rank|);
        TotalUp(g, r, r - {y} + {y}, |g.rank|);
      }
    }
  }

  lemma {:induction false} TotalUp(g: Graph, q: set<nat>, r: set<nat>, n: nat)
    requires g.Valid() && n <= |g.rank| && q <= r
    ensures Total(g, q, n) <= Total(g, r, n)
  {
    if n > 0 {
      TotalUp(g, q, r, n - 1);
    }
  }

  // taking x off the queue for the dependencies it tells leaves less to do
  lemma LessToDo(g: Graph, q: set<nat>, r: set<nat>, x: nat)
    requires g.Valid() && x < |g.rank| && x in q && Joined(g, q - {x}, r, x, |g.dependsOn[x]|)
    ensures Total(g, r, |g.rank|) < Total(g, q, |g.rank|)
  {
    TotalTake(g, q, x, |g.rank|);
    TotalJoined(g, q - {x}, r, x, |g.dependsOn[x]|);
  }

  // ---- a failed start drops the pin of the service without telling its dependencies ----

  // the service stays as pinned as it was, or every hard dependency is to look again anyway or has another pinned dependent
  ghost predicate PinNotMissed(g: Graph, w: World, x: nat) {
    && Shape(g, w) && x < |w.svc|
    && (!w.svc[x].pins.started || w.svc[x].pins.dept
        || forall l :: 0 <= l < |w.lnk| && g.from[l] == x && g.IsHard(l, w.lnk[l]) ==> Covered(g, w, x, g.to[l]))
  }

  ghost predicate Covered(g: Graph, w: World, x: nat, s: nat) {
    || Pending(w.svc, w.prop, s)
    || exists k :: 0 <= k < |w.lnk| && k < |g.to| && k < |g.from| && g.to[k] == s && g.from[k] != x && Pinning(g, w.svc, w.lnk, k)
  }

  // x, and services above it, join the queue
  ghost predicate JoinedAbove(g: Graph, q: set<nat>, r: set<nat>, x: nat) {
    x < |g.rank| && forall s :: s in r && s !in q ==> s < |g.rank| && g.rank[s] >= g.rank[x]
  }

  lemma FailedStartPins(g: Graph, a: World, b: World, x: nat)
    requires g.Valid() && PinChange(g, a, b, x, false, false) && AllUpToDate(g, a.svc, a.lnk, a.prop)
    requires b.svc[x].pins == a.svc[x].pins.(started := false)
    requires JoinedAbove(g, a.prop, b.prop, x) && forall s :: 0 <= s < |a.svc| ==> b.svc[s].prop.pinDpt == a.svc[s].prop.pinDpt
    ensures AllUpToDate(g, b.svc, b.lnk, b.prop) <==> PinNotMissed(g, a, x)
  {
    if a.svc[x].IsStartPinned() == b.svc[x].IsStartPinned() {
      PinsUntouched(g, a, b, x, |a.svc|);
    } else {
      assert a.svc[x].pins.started && !a.svc[x].pins.dept;
      if PinNotMissed(g, a, x) {
        forall s | 0 <= s < |b.svc| ensures UpToDate(g, b.svc, b.lnk, b.prop, s) {
          CoveredUpToDate(g, a, b, x, s);
        }
      } else {
        var l :| 0 <= l < |a.lnk| && g.from[l] == x && g.IsHard(l, a.lnk[l]) && !Covered(g, a, x, g.to[l]);
        g.Ends(l);
        MissedNotUpToDate(g, a, b, x, l);
      }
    }
  }

  lemma CoveredUpToDate(g: Graph, a: World, b: World, x: nat, s: nat)
    requires g.Valid() && PinChange(g, a, b, x, false, false) && AllUpToDate(g, a.svc, a.lnk, a.prop) && s < |a.svc|
    requires b.svc[x].pins == a.svc[x].pins.(started := false) && PinNotMissed(g, a, x)
    requires a.svc[x].IsStartPinned() && !b.svc[x].IsStartPinned()
    ensures UpToDate(g, b.svc, b.lnk, b.prop, s)
  {
    assert UpToDate(g, a.svc, a.lnk, a.prop, s);
    if l :| 0 <= l < |a.lnk| && g.to[l] == s && g.IsHard(l, a.lnk[l]) && g.from[l] == x {
      assert Covered(g, a, x, g.to[l]);
      assert Pinning(g, a.svc, a.lnk, l);
      if !Pending(a.svc, a.prop, s) {
        var k :| 0 <= k < |a.lnk| && g.to[k] == s && g.from[k] != x && Pinning(g, a.svc, a.lnk, k);
        assert Pinning(g, b.svc, b.lnk, k);
      }
    } else {
      PinnedSame(g, a, b, x, false, false, s);
    }
  }

  lemma MissedNotUpToDate(g: Graph, a: World, b: World, x: nat, l: nat)
    requires g.Valid() && PinChange(g, a, b, x, false, false) && AllUpToDate(g, a.svc, a.lnk, a.prop)
    requires b.svc[x].pins == a.svc[x].pins.(started := false)
    requires JoinedAbove(g, a.prop, b.prop, x) && forall s :: 0 <= s < |a.svc| ==> b.svc[s].prop.pinDpt == a.svc[s].prop.pinDpt
    requires a.svc[x].IsStartPinned() && !b.svc[x].IsStartPinned()
    requires l < |a.lnk| && g.from[l] == x && g.IsHard(l, a.lnk[l]) && g.to[l] < |a.svc| && !Covered(g, a, x, g.to[l])
    ensures !UpToDate(g, b.svc, b.lnk, b.prop, g.to[l])
  {
    var s := g.to[l];
    g.Ends(l);
    assert Pinning(g, a.svc, a.lnk, l);
    assert UpToDate(g, a.svc, a.lnk, a.prop, s);
  }
}
