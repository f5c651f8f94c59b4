// Which services are wanted although nothing requires them: those that pass on, too late, that they are to start.
module ServiceAsking {
  import opened ServiceRecords
  import opened ServiceBooks
  import opened ServiceStops
  import opened ServicePins
  import opened ServiceSteps
  import opened ServicePasses
  import opened ServiceUpkeep
  import opened ServiceSparing
  import opened ServiceGuarantees
  import opened ServiceHistories
  import opened ServiceWaking

  // how many requirements of x are left when it comes to its start message: a failure gives back all that are accounted for
  function RequirementsLeft(g: Graph, w: World, x: nat): int
    requires x < |w.svc|
  {
    w.svc[x].requiredBy - if w.svc[x].prop.failure then |Holders(g, w.lnk, x)| + (if w.svc[x].startExplicit then 1 else 0) else 0
  }

  // x is stopped when it comes to its start message
  predicate StartsFromRest(s: Service) {
    s.state == Stopped || s.prop.failure
  }

  // a soft dependent that is up takes x up again
  ghost predicate TakenUpAgain(g: Graph, w: World, x: nat) {
    exists l: nat :: Reattaches(g, w.svc, w.lnk, x, l)
  }

  // x is to pass on a start, and nothing requires it any more; it will be wanted all the same
  ghost predicate ToldUnasked(g: Graph, w: World, x: nat) {
    && x < |w.svc| && x in w.prop && w.svc[x].prop.start && RequirementsLeft(g, w, x) == 0
    && (StartsFromRest(w.svc[x]) ==> !w.svc[x].pins.stopped && !TakenUpAgain(g, w, x))
  }

  // x is to release dependencies first that will stop, and whether these bring down, in turn, services that were started
  // explicitly decides: x itself, or all the dependents that would take it up again
  ghost predicate Entangled(g: Graph, w: World, x: nat) {
    && x < |w.svc| && x in w.prop && w.svc[x].prop.start && !Harmless(g, w, x)
    && ((w.svc[x].startExplicit && !w.svc[x].prop.failure)
        || (RequirementsLeft(g, w, x) == 0 && StartsFromRest(w.svc[x]) && !w.svc[x].pins.stopped && TakenUpAgain(g, w, x)
            && forall l: nat :: Reattaches(g, w.svc, w.lnk, x, l) ==> w.svc[g.from[l]].startExplicit))
  }

  // ---- the stages of a pass ----

  lemma {:induction false} AgainNotItself(g: Graph, lnk: seq<Link>, x: nat, n: nat)
    requires g.Valid() && x < |g.dependsOn| && n <= |g.dependsOn[x]|
    ensures Again(g, lnk, x, x, n) == 0
  {
    if n > 0 {
      AgainNotItself(g, lnk, x, n - 1);
      g.DependsOnAt(x, n - 1);
      g.Ends(g.dependsOn[x][n - 1]);
    }
  }

  // a service is at most told to stop, unless it was started explicitly
  ghost predicate Aside(a: Service, b: Service) {
    SvcStop(a, b) && Unmoved(a, b)
  }

  lemma ReleasedAside(g: Graph, a: World, b: World, l: nat, s: nat)
    requires g.Valid() && LinkReleased(g, a, b, l) && s < |a.svc| && g.to[l] != s
    ensures s < |b.svc| && Aside(a.svc[s], b.svc[s])
  {
    hide StopRel;
    if a.lnk[l].holdingAcq && StopsWhenReleased(Unhold(g, a, l).svc[g.to[l]]) {
      var u := GivenBack(Unhold(g, a, l), g.to[l]);
      var r :| StopDone(g, u, b, g.to[l], false, r);
      StopAt(g, u, b, g.to[l], s);
    }
  }

  lemma ReleasedHard(g: Graph, a: World, b: World, l: nat, k: nat)
    requires g.Valid() && LinkReleased(g, a, b, l) && k < |a.lnk|
    ensures k < |b.lnk| && g.IsHard(k, b.lnk[k]) == g.IsHard(k, a.lnk[k])
  {
    hide StopRel;
    if a.lnk[l].holdingAcq && StopsWhenReleased(Unhold(g, a, l).svc[g.to[l]]) {
      var u := GivenBack(Unhold(g, a, l), g.to[l]);
      var r :| StopDone(g, u, b, g.to[l], false, r);
      StopLinkAt(g, u, b, g.to[l], k);
    }
  }

  lemma TrailAt(g: Graph, trail: seq<World>, x: nat, n: nat, m: nat)
    requires AllReleased(g, trail, x, n) && AllInOrder(g, trail, x) && m <= n
    ensures |trail| == n + 1 && |trail[m].svc| == |g.rank| == |g.dependsOn| && Order(g, trail[m])
  {
    hide LinkReleased, Order;
    assert Shape(g, trail[m]);
  }

  // services of at least the rank of x
  lemma {:induction false} AllReleasedAside(g: Graph, trail: seq<World>, x: nat, n: nat, m: nat, s: nat)
    requires g.Valid() && AllReleased(g, trail, x, n) && AllInOrder(g, trail, x) && m <= n && s < |g.rank| && g.rank[s] >= g.rank[x]
    ensures |trail| == n + 1 && s < |trail[0].svc| && s < |trail[m].svc| && Aside(trail[0].svc[s], trail[m].svc[s])
  {
    hide LinkReleased, AllReleased, Order, Aside;
    TrailAt(g, trail, x, n, 0);
    TrailAt(g, trail, x, n, m);
    if m > 0 {
      TrailStep(g, trail, x, n, m - 1);
      AllReleasedAside(g, trail, x, n, m - 1, s);
      g.DependsOnAt(x, m - 1);
      g.Ends(g.dependsOn[x][m - 1]);
      ReleasedAside(g, trail[m - 1], trail[m], g.dependsOn[x][m - 1], s);
      AsideTrans(trail[0].svc[s], trail[m - 1].svc[s], trail[m].svc[s]);
    } else {
      AsideTrans(trail[0].svc[s], trail[0].svc[s], trail[0].svc[s]);
    }
  }

  lemma AsideTrans(a: Service, b: Service, c: Service)
    ensures Aside(a, b) && Aside(b, c) ==> Aside(a, c)
    ensures Aside(a, a)
  {
    if Aside(a, b) && Aside(b, c) {
      SvcTrans(a, b, c);
    }
  }

  // what of a service matters to a start; one that was started explicitly may lose a requirement, and may be stopped
  predicate Stays(a: Service, b: Service) {
    && (b.state == a.state || (b.state == Stopping && a.state != Stopped)) && b.pins == a.pins
    && b.prop.start == a.prop.start && b.prop.failure == a.prop.failure
    && (!a.startExplicit ==> b.state == a.state && b.requiredBy == a.requiredBy)
  }

  lemma ReleaseOwn(g: Graph, a: World, b: World, x: nat, s: nat)
    requires g.Valid() && ReleasePassed(g, a, b, x) && Shape(g, b) && s < |g.rank| && g.rank[s] >= g.rank[x]
    ensures s < |a.svc| && s < |b.svc| && Stays(a.svc[s], b.svc[s]) && (Harmless(g, a, x) ==> b.svc[s] == a.svc[s].(prop := b.svc[s].prop))
  {
    hide AllReleased, AllInOrder, Spares;
    if a.svc[x].prop.release {
      if Spares(g, a, x) {
        SparedPass(g, a, b, x);
      }
      var trail :| ReleaseThrough(g, a, b, x, trail);
      AllReleasedAside(g, trail, x, |g.dependsOn[x]|, |g.dependsOn[x]|, s);
    }
  }

  lemma {:induction false} AllReleasedHard(g: Graph, trail: seq<World>, x: nat, n: nat, m: nat, l: nat)
    requires g.Valid() && AllReleased(g, trail, x, n) && AllInOrder(g, trail, x) && m <= n && l < |g.kind|
    ensures |trail| == n + 1 && l < |trail[0].lnk| && l < |trail[m].lnk| && g.IsHard(l, trail[m].lnk[l]) == g.IsHard(l, trail[0].lnk[l])
  {
    hide LinkReleased, AllReleased, Order;
    TrailAt(g, trail, x, n, 0);
    TrailAt(g, trail, x, n, m);
    if m > 0 {
      TrailStep(g, trail, x, n, m - 1);
      AllReleasedHard(g, trail, x, n, m - 1, l);
      ReleasedHard(g, trail[m - 1], trail[m], g.dependsOn[x][m - 1], l);
    }
  }

  lemma ReleaseHard(g: Graph, a: World, b: World, x: nat, l: nat)
    requires g.Valid() && ReleasePassed(g, a, b, x) && l < |g.kind|
    ensures l < |a.lnk| && l < |b.lnk| && g.IsHard(l, b.lnk[l]) == g.IsHard(l, a.lnk[l])
  {
    hide AllReleased, AllInOrder;
    if a.svc[x].prop.release {
      var trail :| ReleaseThrough(g, a, b, x, trail);
      AllReleasedHard(g, trail, x, |g.dependsOn[x]|, |g.dependsOn[x]|, l);
    }
  }

  lemma FailureOwn(g: Graph, a: World, b: World, x: nat)
    requires FailurePassed(g, a, b, x) && Shape(g, b) && Order(g, b)
    ensures x < |b.svc| && b.svc[x].prop.start == a.svc[x].prop.start && b.svc[x].pins.stopped == a.svc[x].pins.stopped
    ensures if a.svc[x].prop.failure then b.svc[x].state == Stopped && b.svc[x].requiredBy == a.notes[x].surplus
            else b.svc[x] == a.svc[x].(prop := b.svc[x].prop)
    ensures |b.svc| == |a.svc| && forall s {:trigger b.svc[s]} :: 0 <= s < |a.svc| && s != x ==> b.svc[s].state == a.svc[s].state
    ensures |b.lnk| == |a.lnk| && forall l: nat :: l < |a.lnk| ==> g.IsHard(l, b.lnk[l]) == g.IsHard(l, a.lnk[l])
  {
    hide Order, AllFailed, AllWoken, JoinedAbove;
    if a.svc[x].prop.failure {
      FailedCount(g, Fallen(a, x), b, x);
      forall s | 0 <= s < |a.svc| && s != x ensures b.svc[s].state == a.svc[s].state {
        assert OnlyFails(a.svc[s], b.svc[s]);
      }
      forall l: nat | l < |a.lnk| ensures g.IsHard(l, b.lnk[l]) == g.IsHard(l, a.lnk[l]) {
        assert LnkStop(g.kind[l], a.lnk[l], b.lnk[l]);
      }
    }
  }

  lemma FailedCount(g: Graph, a: World, b: World, x: nat)
    requires FailDone(g, a, b, x, true) && Shape(g, b) && Order(g, b) && x < |a.notes|
    ensures b.svc[x].requiredBy == a.notes[x].surplus
  {
    hide Order, AllFailed, AllWoken, JoinedAbove;
    NoneLeft(g, b, x);
  }

  // A service whose start fails goes on holding its dependencies, and is to release them exactly unless a pin held it up to
  // then, or it has yet to require them
  lemma FailedReleases(g: Graph, a: World, b: World, x: nat, immediateStop: bool)
    requires FailDone(g, a, b, x, immediateStop) && Order(g, a) && Order(g, b) && Shape(g, a) && g.Valid()
    ensures b.svc[x].requiredBy == a.notes[x].surplus
    ensures forall l :: 0 <= l < |a.lnk| && g.from[l] == x ==> b.lnk[l] == a.lnk[l]
    ensures a.svc[x].requiredBy > 0 && a.notes[x].surplus == 0 ==>
              (b.svc[x].prop.release <==> if a.svc[x].IsStartPinned() then a.svc[x].prop.release else !a.svc[x].prop.require)
  {
    hide Order, AllFailed, AllWoken, JoinedAbove, LetGo;
    NoneLeft(g, b, x);
    forall l | 0 <= l < |a.lnk| && g.from[l] == x ensures b.lnk[l] == a.lnk[l] {
      g.Ends(l);
    }
  }

  // ---- the whole pass ----

  // x, as it comes to its start message
  lemma ReachesStart(g: Graph, a: World, x: nat, trail: seq<World>)
    requires Kept(g, a) && x < |a.svc| && Passes(g, trail, x) && trail[0] == TakenUp(a, x)
    ensures x < |trail[3].svc| && trail[3].svc[x].prop.start == a.svc[x].prop.start && trail[3].svc[x].pins.stopped == a.svc[x].pins.stopped
    ensures a.svc[x].prop.failure ==> trail[3].svc[x].state == Stopped
    ensures a.svc[x].prop.failure || Harmless(g, a, x) || !a.svc[x].startExplicit ==> trail[3].svc[x].requiredBy == RequirementsLeft(g, a, x)
    ensures !a.svc[x].prop.failure && (Harmless(g, a, x) || !a.svc[x].startExplicit) ==> trail[3].svc[x].state == a.svc[x].state
  {
    hide Order, RequirePassed, ReleasePassed, FailurePassed, StartPassed, StopPassed, PinPassed, Harmless;
    GraphValid(g, a);
    PassShapes(g, trail, x);
    var t := trail[..6];
    assert t[0] == trail[0] && t[1] == trail[1] && t[2] == trail[2] && t[3] == trail[3];
    RequireOwn(g, t[0], t[1], x);
    RequireNotes(g, t[0], t[1], x, x);
    AgainNotItself(g, t[0].lnk, x, |g.dependsOn[x]|);
    if Harmless(g, a, x) {
      HarmlessStill(g, a, t[1], x);
    }
    ReleaseOwn(g, t[1], t[2], x, x);
    ReleaseNotes(g, t[1], t[2], x);
    FailureOwn(g, t[2], t[3], x);
    RequiredByIsExact(g, a, x);
  }

  // ... and its soft dependents
  lemma ReachesReattaching(g: Graph, a: World, x: nat, trail: seq<World>, l: nat)
    requires Kept(g, a) && x < |a.svc| && Passes(g, trail, x) && trail[0] == TakenUp(a, x) && l < |g.from|
    ensures Reattaches(g, trail[3].svc, trail[3].lnk, x, l) ==> Reattaches(g, a.svc, a.lnk, x, l)
    ensures Reattaches(g, a.svc, a.lnk, x, l) && (Harmless(g, a, x) || !a.svc[g.from[l]].startExplicit) ==>
              Reattaches(g, trail[3].svc, trail[3].lnk, x, l)
  {
    hide Order, RequirePassed, ReleasePassed, FailurePassed, StartPassed, StopPassed, PinPassed, Harmless;
    GraphValid(g, a);
    PassShapes(g, trail, x);
    var t := trail[..6];
    assert t[0] == trail[0] && t[1] == trail[1] && t[2] == trail[2] && t[3] == trail[3];
    g.Ends(l);
    var f := g.from[l];
    RequireOwn(g, t[0], t[1], x);
    ReleaseHard(g, t[1], t[2], x, l);
    FailureOwn(g, t[2], t[3], x);
    if g.to[l] == x {
      if Harmless(g, a, x) {
        HarmlessStill(g, a, t[1], x);
      }
      ReleaseOwn(g, t[1], t[2], x, f);
      assert t[1].svc[f].state == a.svc[f].state && t[1].lnk[l].waitingOn == a.lnk[l].waitingOn;
      assert t[1].svc[f].startExplicit == a.svc[f].startExplicit;
    }
  }

  lemma StartAsks(g: Graph, a: World, b: World, x: nat)
    requires g.Valid() && StartPassed(g, a, b, x) && Order(g, a) && Order(g, b) && Shape(g, b) && Asked(a.svc[x])
    ensures x < |b.svc|
    ensures !Asked(b.svc[x]) <==>
              a.svc[x].prop.start && a.svc[x].requiredBy == 0 && (a.svc[x].state == Stopped ==> !a.svc[x].pins.stopped && !TakenUpAgain(g, a, x))
  {
    hide Order, FailDone, Initiated, Revived, Reattaches;
    if a.svc[x].prop.start {
      var c := Acked(a, x, START);
      var w := With(c, x, Wanted(c.svc[x]));
      CountAt(g, a, x);
      if a.svc[x].state == Stopped && a.svc[x].pins.stopped {
        FailedUnwanted(g, w, b, x);
      } else if a.svc[x].state == Stopped {
        var v :| Revived(g, w, v, x) && Initiated(g, v, b, x);
        RevivedAsks(g, w, v, b, x);
        forall l: nat ensures Reattaches(g, w.svc, w.lnk, x, l) <==> Reattaches(g, a.svc, a.lnk, x, l) {
          SameReattaches(g, a, w, x, l);
        }
      } else if !CannotStartYet(c.svc[x]) {
        InitiatedAsks(g, w, b, x);
      }
    }
  }

  lemma SameReattaches(g: Graph, a: World, b: World, x: nat, l: nat)
    requires b.lnk == a.lnk && x < |a.svc| && ButFor(a.svc, b.svc, x) && b.svc[x].state == a.svc[x].state
    ensures Reattaches(g, b.svc, b.lnk, x, l) <==> Reattaches(g, a.svc, a.lnk, x, l)
  {
  }

  lemma InitiatedAsks(g: Graph, a: World, b: World, x: nat)
    requires Initiated(g, a, b, x)
    ensures b.svc[x].desired == a.svc[x].desired && b.svc[x].requiredBy == a.svc[x].requiredBy
  {
  }

  lemma RevivedAsks(g: Graph, a: World, v: World, b: World, x: nat)
    requires Revived(g, a, v, x) && Initiated(g, v, b, x) && Order(g, b) && a.svc[x].requiredBy >= 0
    ensures b.svc[x].desired == a.svc[x].desired && (b.svc[x].requiredBy == 0 <==> a.svc[x].requiredBy == 0 && !TakenUpAgain(g, a, x))
  {
    hide Order, Reattaches;
    if l: nat :| Reattaches(g, a.svc, a.lnk, x, l) {
      AttachedAt(g, a, x, l);
      assert v.lnk[l].holdingAcq && b.lnk[l].holdingAcq;
      HeldCounts(g, b, x, l);
    }
  }

  lemma AttachedAt(g: Graph, a: World, x: nat, l: nat)
    requires Reattaches(g, a.svc, a.lnk, x, l)
    ensures l < |a.lnk| && l < |g.to| && g.to[l] == x
  {
  }

  lemma HeldCounts(g: Graph, w: World, x: nat, l: nat)
    requires Order(g, w) && Shape(g, w) && l < |w.lnk| && g.to[l] == x && x < |w.svc| && w.lnk[l].holdingAcq
    ensures w.svc[x].requiredBy >= 1
  {
    assert l in w.ties.held[x];
    assert EntryAt(w, x, 0);
  }

  // a stop makes nothing of a service that nothing requires
  lemma StopsUnasked(g: Graph, a: World, b: World, x: nat, withRestart: bool)
    requires Stops(g, a, b, x, withRestart) && !Asked(a.svc[x]) && Order(g, b)
    ensures x < |b.svc| && !Asked(b.svc[x])
  {
    hide Order;
    var r :| StopDone(g, a, b, x, withRestart, r);
    StopAt(g, a, b, x, x);
    CountAt(g, b, x);
  }

  lemma StopPassUnasked(g: Graph, a: World, b: World, x: nat)
    requires StopPassed(g, a, b, x) && !Asked(a.svc[x]) && Order(g, b)
    ensures x < |b.svc| && !Asked(b.svc[x])
  {
    hide Order, Stops;
    if a.svc[x].prop.stop {
      StopsUnasked(g, Acked(a, x, STOP), b, x, a.svc[x].inUserRestart);
    }
  }

  lemma PinPassUnasked(g: Graph, a: World, b: World, x: nat)
    requires PinPassed(g, a, b, x) && !Asked(a.svc[x]) && Order(g, b)
    ensures x < |b.svc| && !Asked(b.svc[x])
  {
    hide Order, Stops, PinTold;
    var dept := DependentPinned(g, a.svc, a.lnk, x);
    if a.svc[x].prop.pinDpt && dept != a.svc[x].pins.dept {
      var w := Repinned(a, x, a.svc[x].pins.(dept := dept));
      var v :| PinTold(g, w, v, x, dept) && StopIfDue(g, v, b, x);
      ToldKeeps(g, w, v, x, dept);
      if b != v {
        StopsUnasked(g, v, b, x, false);
      }
    }
  }

  // A pass makes its service wanted without being required exactly if nothing is left of its requirements when it comes to its
  // start message, and the start is neither refused nor answered by a soft dependent; what its releases bring down may decide
  // too, if they bring down what was started explicitly
  lemma PassAsks(g: Graph, a: World, b: World, x: nat, trail: seq<World>)
    requires Kept(g, a) && Kept(g, b) && x in a.prop && x < |a.svc| && Passes(g, trail, x) && trail[0] == TakenUp(a, x) && trail[6] == b
    requires Asked(a.svc[x])
    ensures x < |b.svc|
    ensures ToldUnasked(g, a, x) ==> !Asked(b.svc[x])
    ensures !Asked(b.svc[x]) ==> ToldUnasked(g, a, x) || Entangled(g, a, x)
  {
    hide Order, RequirePassed, ReleasePassed, FailurePassed, StartPassed, StopPassed, PinPassed, Asked, RequirementsLeft, Reattaches, Harmless;
    GraphValid(g, a);
    PassShapes(g, trail, x);
    var t := trail[..6];
    assert forall i :: 0 <= i < 6 ==> t[i] == trail[i];
    AskedSoFar(g, a, x, trail);
    ReachesStart(g, a, x, trail);
    forall l: nat
      ensures Reattaches(g, t[3].svc, t[3].lnk, x, l) ==> Reattaches(g, a.svc, a.lnk, x, l)
      ensures Reattaches(g, a.svc, a.lnk, x, l) ==> l < |g.from| && g.from[l] < |a.svc|
      ensures Reattaches(g, a.svc, a.lnk, x, l) && (Harmless(g, a, x) || !a.svc[g.from[l]].startExplicit) ==>
                Reattaches(g, t[3].svc, t[3].lnk, x, l)
    {
      if l < |g.from| {
        g.Ends(l);
        ReachesReattaching(g, a, x, trail, l);
      } else {
        NoLink(g, t[3], x, l);
        NoLink(g, a, x, l);
      }
    }
    ExplicitLeft(g, a, x);
    StartAsks(g, t[3], t[4], x);
    if Asked(t[4].svc[x]) {
      AskedAfter(g, t[4], t[5], b, x);
    } else {
      StopPassUnasked(g, t[4], t[5], x);
      PinPassUnasked(g, t[5], b, x);
    }
  }

  lemma NoLink(g: Graph, w: World, x: nat, l: nat)
    requires l >= |g.from|
    ensures !Reattaches(g, w.svc, w.lnk, x, l)
  {
  }

  lemma ExplicitLeft(g: Graph, w: World, x: nat)
    requires Kept(g, w) && x < |w.svc|
    ensures w.svc[x].startExplicit && !w.svc[x].prop.failure ==> RequirementsLeft(g, w, x) > 0
  {
    assert EntryAt(w, x, 0);
  }

  lemma AskedSoFar(g: Graph, a: World, x: nat, trail: seq<World>)
    requires Kept(g, a) && x < |a.svc| && Passes(g, trail, x) && trail[0] == TakenUp(a, x) && Asked(a.svc[x])
    ensures x < |trail[3].svc| && Asked(trail[3].svc[x])
  {
    hide Order, RequirePassed, ReleasePassed, FailurePassed, StartPassed, StopPassed, PinPassed, StepKeeps;
    GraphValid(g, a);
    PassShapes(g, trail, x);
    var t := trail[..6];
    assert forall i :: 0 <= i < 6 ==> t[i] == trail[i];
    CountsNonnegative(g, t[0]);
    RequirePassKeeps(g, t[0], t[1], x);
    ReleasePassKeeps(g, t[1], t[2], x);
    FailurePassKeeps(g, t[2], t[3], x);
  }

  lemma AskedAfter(g: Graph, a: World, v: World, b: World, x: nat)
    requires g.Valid() && x < |a.svc| && StopPassed(g, a, v, x) && PinPassed(g, v, b, x) && Shape(g, a) && Shape(g, v) && Shape(g, b) && Asked(a.svc[x])
    ensures x < |b.svc| && Asked(b.svc[x])
  {
    hide StopPassed, PinPassed, StepKeeps;
    StopPassKeeps(g, a, v, x);
    PinPassKeeps(g, v, b, x);
  }

  // ---- events and histories ----

  // A service comes to be wanted without being required in a pass of its own alone, and exactly if it is told to start unasked
  lemma UnaskedExactly(g: Graph, a: World, b: World, e: Event, s: nat)
    requires Kept(g, a) && Kept(g, b) && Handled(g, a, b, e) && s < |a.svc| && Asked(a.svc[s])
    ensures s < |b.svc|
    ensures !Entangled(g, a, s) ==> (!Asked(b.svc[s]) <==> e.Process? && e.x == s && ToldUnasked(g, a, s))
    ensures e.Process? && e.x == s && ToldUnasked(g, a, s) ==> !Asked(b.svc[s])
    ensures !Asked(b.svc[s]) ==> StartsUnasked(g, a, e, s)
  {
    hide Order, ServiceHandled, AttachHandled, Attachable, Passes, Transitioned, Asked, ToldUnasked, Entangled, Obedient, AllReady, NoPins;
    EventKeeps(g, a, b, e);
    ToldIsQueued(g, a, s);
    if PassesOn(a, e) && e.x == s {
      var trail :| Processed(g, a, b, s, trail, e.outcome, e.downAtOnce);
      PassAsks(g, a, b, s, trail);
    }
  }

  lemma ToldIsQueued(g: Graph, w: World, s: nat)
    ensures ToldUnasked(g, w, s) || Entangled(g, w, s) ==> s in w.prop
  {
  }

  ghost predicate StartsUnasked(g: Graph, w: World, e: Event, s: nat) {
    e.Process? && e.x == s && (ToldUnasked(g, w, s) || Entangled(g, w, s))
  }

  // s was told to start unasked between k and k + 1, and has been wanted, and not required, since then
  ghost predicate UnaskedSince(g: Graph, history: seq<World>, events: seq<Event>, i: nat, s: nat, k: nat) {
    && k < i < |history| && k < |events| && StartsUnasked(g, history[k], events[k], s)
    && forall j :: k < j <= i ==> s < |history[j].svc| && !Asked(history[j].svc[s])
  }

  // A service is wanted without being required exactly if it was told to start unasked, and has been so since then
  lemma {:induction false} WantedIsAsked(g: Graph, history: seq<World>, events: seq<Event>, i: nat, s: nat)
    requires FromTheStart(g, history, events) && i < |history| && s < |history[i].svc|
    ensures !Asked(history[i].svc[s]) <==> exists k: nat :: UnaskedSince(g, history, events, i, s, k)
  {
    hide Handled, Kept, StartsUnasked, Asked;
    HistoryAt(g, history, events, i);
    if !Asked(history[i].svc[s]) {
      if i == 0 {
        AskedAtFirst(g, history[0], s);
      } else {
        var a, e := history[i - 1], events[i - 1];
        HistoryAt(g, history, events, i - 1);
        WantedIsAsked(g, history, events, i - 1, s);
        if Asked(a.svc[s]) {
          UnaskedExactly(g, a, history[i], e, s);
          assert UnaskedSince(g, history, events, i, s, i - 1);
        } else {
          var k: nat :| UnaskedSince(g, history, events, i - 1, s, k);
          assert UnaskedSince(g, history, events, i, s, k);
        }
      }
    }
  }

  lemma AskedAtFirst(g: Graph, w: World, s: nat)
    requires Initial(g, w) && s < |w.svc|
    ensures Asked(w.svc[s])
  {
  }

  // When all messages have been passed on, a service that runs, and that no pin holds, is required, exactly unless it was told
  // to start unasked, and has not been required since then
  lemma NothingRunsUnasked(g: Graph, history: seq<World>, events: seq<Event>, i: nat, s: nat)
    requires FromTheStart(g, history, events) && i < |history| && s < |history[i].svc| && history[i].prop == {}
    requires history[i].svc[s].state == Started && !history[i].svc[s].IsStartPinned()
    ensures history[i].svc[s].requiredBy == 0 <==> exists k: nat :: UnaskedSince(g, history, events, i, s, k)
  {
    hide Handled, Order, UnaskedSince;
    HistoryAt(g, history, events, i);
    NoMessages(g, history[i], s);
    AllObey(g, history, events, i, s);
    WantedIsAsked(g, history, events, i, s);
  }
}
