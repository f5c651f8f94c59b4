// A service that releases its dependencies without bringing any of them down.
module ServiceSparing {
  import opened ServiceRecords
  import opened ServiceBooks
  import opened ServiceStops
  import opened ServiceSteps
  import opened ServicePasses
  import opened ServiceUpkeep
  import opened ServiceWaking

  // the links by which x holds t
  function HeldBy(g: Graph, lnk: seq<Link>, x: nat, t: nat): set<nat> {
    set l | 0 <= l < |lnk| && l < |g.from| && l < |g.to| && g.from[l] == x && g.to[l] == t && lnk[l].holdingAcq
  }

  // t does not depend on x to be required, or is not up, or pinned
  predicate SparesAt(g: Graph, w: World, x: nat, t: nat)
    requires t < |w.svc|
  {
    w.svc[t].state != Stopped && w.svc[t].state != Stopping && !w.svc[t].IsStartPinned() ==> w.svc[t].requiredBy > |HeldBy(g, w.lnk, x, t)|
  }

  // x may release all that it holds, and none of it will stop
  ghost predicate Spares(g: Graph, w: World, x: nat) {
    forall t: nat {:trigger w.svc[t]} :: t < |w.svc| ==> SparesAt(g, w, x, t)
  }

  // only counts and messages differ
  ghost predicate SameStates(a: World, b: World) {
    && |b.svc| == |a.svc| && b.trans == a.trans
    && forall s {:trigger b.svc[s]} :: 0 <= s < |a.svc| ==> b.svc[s].state == a.svc[s].state && b.svc[s].waitingForDeps == a.svc[s].waitingForDeps
  }

  lemma SparedStep(g: Graph, a: World, b: World, x: nat, l: nat)
    requires g.Valid() && LinkReleased(g, a, b, l) && g.from[l] == x && Spares(g, a, x)
    ensures Spares(g, b, x) && SameStates(a, b) && |b.lnk| == |a.lnk|
    ensures forall s {:trigger b.svc[s]} :: 0 <= s < |a.svc| && s != g.to[l] ==> b.svc[s] == a.svc[s]
    ensures b.lnk == a.lnk[l := a.lnk[l].(holdingAcq := false)]
  {
    hide Stops;
    if a.lnk[l].holdingAcq {
      var t, u := g.to[l], Unhold(g, a, l);
      assert SparesAt(g, a, x, t) && l in HeldBy(g, a.lnk, x, t);
      HeldOne(HeldBy(g, a.lnk, x, t), l);
      assert b == GivenBack(u, t);
      forall s: nat | s < |b.svc| ensures SparesAt(g, b, x, s) {
        assert SparesAt(g, a, x, s);
        UnheldBy(g, a, x, l, s);
      }
    } else {
      assert a.lnk[l := a.lnk[l].(holdingAcq := false)] == a.lnk;
    }
  }

  lemma HeldOne(held: set<nat>, l: nat)
    requires l in held
    ensures |held| >= 1 && |held - {l}| == |held| - 1
  {
  }

  lemma UnheldBy(g: Graph, w: World, x: nat, l: nat, s: nat)
    requires Shape(g, w) && l < |w.lnk| && g.to[l] < |w.svc| && g.from[l] == x && w.lnk[l].holdingAcq
    ensures var held := HeldBy(g, w.lnk, x, s);
      && HeldBy(g, Unhold(g, w, l).lnk, x, s) == (if s == g.to[l] then held - {l} else held)
      && (s == g.to[l] ==> |held - {l}| == |held| - 1)
  {
    var lnk := w.lnk[l := w.lnk[l].(holdingAcq := false)];
    assert Unhold(g, w, l).lnk == lnk;
    hide Shape, Unhold;
    forall k ensures k in HeldBy(g, lnk, x, s) <==> k in HeldBy(g, w.lnk, x, s) && !(s == g.to[l] && k == l) {
    }
    if s == g.to[l] {
      HeldOne(HeldBy(g, w.lnk, x, s), l);
    }
  }

  lemma {:induction false} SparedTrail(g: Graph, trail: seq<World>, x: nat, n: nat, m: nat)
    requires g.Valid() && AllReleased(g, trail, x, n) && AllInOrder(g, trail, x) && m <= n && Spares(g, trail[0], x)
    ensures |trail| == n + 1 && Spares(g, trail[m], x) && SameStates(trail[0], trail[m]) && |trail[m].lnk| == |trail[0].lnk|
    ensures forall s {:trigger trail[m].svc[s]} :: 0 <= s < |trail[0].svc| && s < |g.rank| && g.rank[s] >= g.rank[x] ==> trail[m].svc[s] == trail[0].svc[s]
    ensures forall l {:trigger trail[m].lnk[l]} :: 0 <= l < |trail[0].lnk| && l < |g.from| ==>
              trail[m].lnk[l] == trail[0].lnk[l].(holdingAcq := trail[m].lnk[l].holdingAcq)
              && (g.from[l] != x ==> trail[m].lnk[l] == trail[0].lnk[l])
  {
    hide LinkReleased, AllReleased, Order, Spares;
    TrailSize(g, trail, x, n, m);
    if m > 0 {
      TrailSize(g, trail, x, n, m - 1);
      TrailStep(g, trail, x, n, m - 1);
      SparedTrail(g, trail, x, n, m - 1);
      var l := g.dependsOn[x][m - 1];
      g.DependsOnAt(x, m - 1);
      g.Ends(l);
      SparedStep(g, trail[m - 1], trail[m], x, l);
    }
  }

  lemma TrailSize(g: Graph, trail: seq<World>, x: nat, n: nat, m: nat)
    requires AllReleased(g, trail, x, n) && AllInOrder(g, trail, x) && m <= n
    ensures |trail| == n + 1 && |trail[m].svc| == |g.rank| == |g.dependsOn| && |trail[m].lnk| == |g.from|
  {
    hide LinkReleased, Order;
    assert Shape(g, trail[m]);
  }

  // what a pass does that brings nothing down
  lemma SparedPass(g: Graph, a: World, b: World, x: nat)
    requires g.Valid() && ReleasePassed(g, a, b, x) && a.svc[x].prop.release && Spares(g, a, x)
    ensures SameStates(a, b) && x < |b.svc| && b.svc[x] == a.svc[x].(prop := Cleared(a.svc[x].prop, RELEASE)) && |b.lnk| == |a.lnk|
    ensures forall s {:trigger b.svc[s]} :: 0 <= s < |a.svc| && s != x && s < |g.rank| && g.rank[s] >= g.rank[x] ==> b.svc[s] == a.svc[s]
    ensures forall l {:trigger b.lnk[l]} :: 0 <= l < |a.lnk| && l < |g.from| ==>
              b.lnk[l] == if g.from[l] == x then a.lnk[l].(holdingAcq := false) else a.lnk[l]
  {
    hide AllReleased, AllInOrder, Spares;
    var n := |g.dependsOn[x]|;
    var trail :| ReleaseThrough(g, a, b, x, trail);
    SparedTrail(g, trail, x, n, n);
    forall l | 0 <= l < |a.lnk| && l < |g.from| ensures b.lnk[l] == if g.from[l] == x then a.lnk[l].(holdingAcq := false) else a.lnk[l] {
      if g.from[l] == x {
        assert l in g.dependsOn[x];
        var i :| 0 <= i < n && g.dependsOn[x][i] == l;
        assert g.dependsOn[x][i] < |b.lnk| && !b.lnk[g.dependsOn[x][i]].holdingAcq;
      }
    }
  }

  // x has nothing to release, or what it releases goes on running
  ghost predicate Harmless(g: Graph, w: World, x: nat) {
    x < |w.svc| && (w.svc[x].prop.release ==> Spares(g, w, x))
  }

  lemma RequiresOrReleases(g: Graph, w: World, x: nat)
    requires Kept(g, w) && x < |w.svc|
    ensures !(w.svc[x].prop.require && w.svc[x].prop.release) && |w.notes| == |w.svc|
  {
    assert EntryAt(w, x, 0);
  }

  lemma HarmlessStill(g: Graph, a: World, b: World, x: nat)
    requires Kept(g, a) && Harmless(g, a, x) && RequirePassed(g, TakenUp(a, x), b, x)
    ensures Harmless(g, b, x)
  {
    hide Order, RequireDone, Shape, AllDone;
    RequiresOrReleases(g, a, x);
    GraphValid(g, a);
    RequireOwn(g, TakenUp(a, x), b, x);
    if a.svc[x].prop.release {
      assert b == Acked(TakenUp(a, x), x, REQUIRE);
      forall t: nat | t < |b.svc| ensures SparesAt(g, b, x, t) {
        assert SparesAt(g, a, x, t);
      }
    }
  }
}
