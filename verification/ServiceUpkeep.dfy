// What every operation keeps up, service by service and link by link: the groundwork for what holds of whole runs.
module ServiceUpkeep {
  import opened ServiceRecords
  import opened ServiceBooks
  import opened ServiceStops
  import opened ServicePins
  import opened ServiceSteps
  import opened ServicePasses

  // services that do as they must still do
  ghost predicate Obedient(a: World, b: World) {
    |a.svc| == |b.svc| && forall s {:trigger b.svc[s]} :: 0 <= s < |a.svc| && Obeys(a.svc[s]) ==> Obeys(b.svc[s])
  }

  // services are still wanted only if required, but for x
  ghost predicate AskedBut(a: World, b: World, x: nat) {
    |a.svc| == |b.svc| && forall s {:trigger b.svc[s]} :: 0 <= s < |a.svc| && s != x && Asked(a.svc[s]) ==> Asked(b.svc[s])
  }

  // no service is newly pinned
  ghost predicate Unpinning(a: World, b: World) {
    |a.svc| == |b.svc| && forall s {:trigger b.svc[s]} :: 0 <= s < |a.svc| && b.svc[s].IsStartPinned() ==> a.svc[s].IsStartPinned()
  }

  ghost predicate Mindful(g: Graph, a: World, b: World) {
    && |a.svc| == |b.svc| && |g.from| == |g.to|
    && (forall s {:trigger b.svc[s]} :: 0 <= s < |a.svc| ==> Minds(a.svc[s], b.svc[s]))
    && (forall l :: 0 <= l < |g.from| ==> KeepsReady(g, a, b, l))
  }

  // ... but for x, and its links to dependencies
  ghost predicate MindfulBut(g: Graph, a: World, b: World, x: nat) {
    && |a.svc| == |b.svc| && |g.from| == |g.to|
    && (forall s {:trigger b.svc[s]} :: 0 <= s < |a.svc| && s != x ==> Minds(a.svc[s], b.svc[s]))
    && (forall l :: 0 <= l < |g.from| && g.from[l] != x ==> KeepsReady(g, a, b, l))
  }

  // all of it
  ghost predicate Upholds(g: Graph, a: World, b: World) {
    Obedient(a, b) && AskedBut(a, b, |a.svc|) && Unpinning(a, b) && Mindful(g, a, b)
  }

  lemma UpholdsTrans(g: Graph, a: World, b: World, c: World)
    requires Upholds(g, a, b) && Upholds(g, b, c)
    ensures Upholds(g, a, c)
  {
    hide Mindful, Asked, Obeys;
    MindfulTrans(g, a, b, c);
    forall s | 0 <= s < |a.svc|
      ensures Obeys(a.svc[s]) ==> Obeys(c.svc[s])
      ensures Asked(a.svc[s]) ==> Asked(c.svc[s])
      ensures c.svc[s].IsStartPinned() ==> a.svc[s].IsStartPinned()
    {
      assert Obeys(a.svc[s]) ==> Obeys(b.svc[s]);
      assert Asked(a.svc[s]) ==> Asked(b.svc[s]);
      assert b.svc[s].IsStartPinned() ==> a.svc[s].IsStartPinned();
    }
  }

  lemma UpholdsRefl(g: Graph, a: World)
    requires g.Valid()
    ensures Upholds(g, a, a)
  {
    MindfulRefl(g, a);
  }

  lemma MindfulTrans(g: Graph, a: World, b: World, c: World)
    requires Mindful(g, a, b) && Mindful(g, b, c)
    ensures Mindful(g, a, c)
  {
    hide KeepsReady, Obeys, Sound;
    forall s | 0 <= s < |a.svc| ensures Minds(a.svc[s], c.svc[s]) {
      assert Minds(a.svc[s], b.svc[s]);
    }
    forall l | 0 <= l < |g.from| ensures KeepsReady(g, a, c, l) {
      assert l < |g.from| && g.from[l] < |a.svc| ==> Minds(a.svc[g.from[l]], b.svc[g.from[l]]);
      KeepsTrans(g, a, b, c, l);
    }
  }

  lemma MindfulButTrans(g: Graph, a: World, b: World, c: World, x: nat)
    requires MindfulBut(g, a, b, x) && MindfulBut(g, b, c, x)
    ensures MindfulBut(g, a, c, x)
  {
    hide KeepsReady, Obeys, Sound;
    forall s | 0 <= s < |a.svc| && s != x ensures Minds(a.svc[s], c.svc[s]) {
      assert Minds(a.svc[s], b.svc[s]);
    }
    forall l | 0 <= l < |g.from| && g.from[l] != x ensures KeepsReady(g, a, c, l) {
      assert l < |g.from| && g.from[l] < |a.svc| ==> Minds(a.svc[g.from[l]], b.svc[g.from[l]]);
      KeepsTrans(g, a, b, c, l);
    }
  }

  // x's record changes, and it does not cease to run
  lemma RecordMinds(g: Graph, a: World, b: World, x: nat)
    requires g.Valid() && Shape(g, a) && ButFor(a.svc, b.svc, x) && x < |a.svc| && b.lnk == a.lnk
    requires a.svc[x].state == Started ==> b.svc[x].state == Started
    ensures MindfulBut(g, a, b, x)
  {
    hide Sound, Obeys;
  }

  // x waits for nothing any more, and the rest is in order
  lemma MindfulClose(g: Graph, a: World, b: World, x: nat)
    requires g.Valid() && Shape(g, b) && x < |b.svc| && MindfulBut(g, a, b, x) && Minds(a.svc[x], b.svc[x]) && !AwaitsStart(b.svc[x])
    ensures Mindful(g, a, b)
  {
    hide Sound, Obeys, AwaitsStart;
    forall l | 0 <= l < |g.from| ensures KeepsReady(g, a, b, l) {
      if g.from[l] == x {
        g.Ends(l);
      }
    }
  }

  // x waits for what it waited for
  lemma MindfulSame(g: Graph, a: World, b: World, x: nat)
    requires g.Valid() && Shape(g, a) && x < |a.svc| && ButFor(a.svc, b.svc, x) && b.lnk == a.lnk
    requires Minds(a.svc[x], b.svc[x]) && (AwaitsStart(b.svc[x]) ==> AwaitsStart(a.svc[x])) && b.svc[x].state == a.svc[x].state
    ensures Mindful(g, a, b)
  {
    hide Sound, Obeys, AwaitsStart;
    forall l | 0 <= l < |g.from| ensures KeepsReady(g, a, b, l) {
      g.Ends(l);
    }
  }

  // ---- stopping ----

  // no start message is new to a launched service
  predicate StartToldAlready(a: Service, w: Service) {
    IsLaunched(w) && w.prop.start ==> IsLaunched(a) && a.prop.start && (a.IsStartPinned() ==> w.IsStartPinned())
  }

  // w is a but for x's own record, and then x stops
  lemma MidStop(g: Graph, a: World, w: World, b: World, x: nat, withRestart: bool)
    requires g.Valid() && Shape(g, a) && x < |a.svc| && ButFor(a.svc, w.svc, x) && w.lnk == a.lnk
    requires Stops(g, w, b, x, withRestart)
    requires a.svc[x].state == Started ==> w.svc[x].state == Started
    ensures Obedient(a, b) && AskedBut(a, b, x) && (Asked(w.svc[x]) ==> Asked(b.svc[x]))
    ensures w.svc[x].pins == a.svc[x].pins ==> Unpinning(a, b)
    ensures Justified(w.svc[x], withRestart) && StartToldAlready(a.svc[x], w.svc[x]) ==> Mindful(g, a, b)
  {
    var r :| StopDone(g, w, b, x, withRestart, r);
    RecordMinds(g, a, w, x);
    if w.svc[x].IsStartPinned() {
      assert b == w;
      MindfulClose(g, a, b, x);
    } else {
      StopMinds(g, w, b, x, withRestart);
      StopFacts(g, a, w, b, x);
      if Justified(w.svc[x], withRestart) && StartToldAlready(a.svc[x], w.svc[x]) {
        StopMindful(g, w, b, x);
        MindfulButTrans(g, a, w, b, x);
        MindfulClose(g, a, b, x);
      }
    }
  }

  lemma StopFacts(g: Graph, a: World, w: World, b: World, x: nat)
    requires StopRel(g, w, b, x) && x < |a.svc| && ButFor(a.svc, w.svc, x) && b.svc[x].state != Started
    ensures Obedient(a, b) && AskedBut(a, b, x) && (Asked(w.svc[x]) ==> Asked(b.svc[x])) && Shape(g, b)
    ensures w.svc[x].pins == a.svc[x].pins ==> Unpinning(a, b)
  {
    hide KeepsReady, LetGo;
    forall s | 0 <= s < |a.svc| ensures SvcStop(w.svc[s], b.svc[s]) && (s != x ==> w.svc[s] == a.svc[s] && Told(w.svc[s], b.svc[s])) {
    }
  }

  lemma StopMindful(g: Graph, w: World, b: World, x: nat)
    requires StopRel(g, w, b, x) && ReadyInto(g, w, b, x)
    ensures MindfulBut(g, w, b, x)
  {
    hide KeepsReady, SvcStop, LetGo;
    forall s | 0 <= s < |w.svc| && s != x ensures Minds(w.svc[s], b.svc[s]) {
      assert Told(w.svc[s], b.svc[s]);
    }
  }

  // one dependency is released
  lemma ReleasedKeeps(g: Graph, a: World, b: World, l: nat)
    requires g.Valid() && LinkReleased(g, a, b, l)
    ensures Upholds(g, a, b)
  {
    if a.lnk[l].holdingAcq {
      var t, u := g.to[l], Unhold(g, a, l);
      UnheldMinds(g, a, l);
      var v := GivenBack(u, t);
      if StopsWhenReleased(u.svc[t]) {
        MidStop(g, u, v, b, t, false);
        MindfulTrans(g, a, u, b);
      } else {
        MindfulSame(g, u, v, t);
        MindfulTrans(g, a, u, v);
      }
    } else {
      MindfulRefl(g, a);
    }
  }

  lemma MindfulRefl(g: Graph, a: World)
    requires g.Valid()
    ensures Mindful(g, a, a)
  {
    hide Sound, Obeys, Ready;
  }

  lemma UnheldMinds(g: Graph, a: World, l: nat)
    requires g.Valid() && Shape(g, a) && l < |a.lnk| && g.to[l] < |a.svc|
    ensures Mindful(g, a, Unhold(g, a, l)) && Mindful(g, a, Hold(g, a, l))
  {
    hide Sound, Obeys, AwaitsStart;
  }

  lemma {:induction false} AllReleasedKeeps(g: Graph, trail: seq<World>, x: nat, n: nat, m: nat)
    requires g.Valid() && AllReleased(g, trail, x, n) && m <= n
    ensures Upholds(g, trail[0], trail[m])
  {
    hide Upholds, LinkReleased;
    if m == 0 {
      UpholdsRefl(g, trail[0]);
    } else {
      AllReleasedKeeps(g, trail, x, n, m - 1);
      assert LinkReleased(g, trail[m - 1], trail[m - 1 + 1], g.dependsOn[x][m - 1]);
      ReleasedKeeps(g, trail[m - 1], trail[m], g.dependsOn[x][m - 1]);
      UpholdsTrans(g, trail[0], trail[m - 1], trail[m]);
    }
  }

  // t, which x alone requires, runs until x releases it, or is stopping by then
  ghost predicate AboutToStop(w: World, l: nat, t: nat) {
    && t < |w.svc| && l < |w.lnk|
    && (w.svc[t].state == Stopping
        || (w.svc[t].state == Started && w.svc[t].requiredBy <= 1 && !w.svc[t].IsStartPinned() && w.lnk[l].holdingAcq))
  }

  lemma OtherReleased(g: Graph, a: World, b: World, k: nat, l: nat)
    requires g.Valid() && Order(g, a) && LinkReleased(g, a, b, k) && k != l && l < |a.lnk| && g.kind[l] == Regular
    requires AboutToStop(a, l, g.to[l])
    ensures AboutToStop(b, l, g.to[l])
  {
    hide StopRel;
    var t := g.to[l];
    if a.lnk[k].holdingAcq {
      var u := GivenBack(Unhold(g, a, k), g.to[k]);
      if g.to[k] == t && a.lnk[l].holdingAcq {
        OneHolder(g, a, l, k);
      }
      if StopsWhenReleased(Unhold(g, a, k).svc[g.to[k]]) {
        var r :| StopDone(g, u, b, g.to[k], false, r);
        StopAt(g, u, b, g.to[k], t);
        HardStays(g, u, b, g.to[k], l);
      }
    }
  }

  lemma HardStays(g: Graph, a: World, b: World, x: nat, l: nat)
    requires StopRel(g, a, b, x) && l < |a.lnk| && l < |g.kind| && g.kind[l] == Regular
    ensures l < |b.lnk| && b.lnk[l] == a.lnk[l]
  {
    hide KeepsReady, SvcStop, Told, LetGo;
  }

  // a count of one leaves room for one holder
  lemma OneHolder(g: Graph, w: World, l: nat, k: nat)
    requires Order(g, w) && Shape(g, w) && l < |w.lnk| && k < |w.lnk| && l != k && g.to[l] == g.to[k]
    requires w.lnk[l].holdingAcq && w.lnk[k].holdingAcq
    ensures w.svc[g.to[l]].requiredBy >= 2
  {
    var held := w.ties.held[g.to[l]];
    assert EntryAt(w, g.to[l], 0);
    assert |held - {l}| >= 1 by {
      assert k in held - {l};
    }
  }

  lemma StillStopping(g: Graph, a: World, b: World, k: nat, t: nat)
    requires LinkReleased(g, a, b, k) && t < |a.svc| && a.svc[t].state == Stopping
    ensures t < |b.svc| && b.svc[t].state == Stopping
  {
    hide StopRel;
    if a.lnk[k].holdingAcq && StopsWhenReleased(Unhold(g, a, k).svc[g.to[k]]) {
      var u := GivenBack(Unhold(g, a, k), g.to[k]);
      var r :| StopDone(g, u, b, g.to[k], false, r);
      StopAt(g, u, b, g.to[k], t);
    }
  }

  lemma LastReleased(g: Graph, a: World, b: World, l: nat)
    requires g.Valid() && Order(g, a) && LinkReleased(g, a, b, l) && g.kind[l] == Regular && AboutToStop(a, l, g.to[l])
    ensures AboutToStop(b, l, g.to[l]) && b.svc[g.to[l]].state == Stopping
  {
    hide StopRel;
    var t := g.to[l];
    if a.lnk[l].holdingAcq {
      var u := GivenBack(Unhold(g, a, l), t);
      assert EntryAt(a, t, 0);
      assert l in a.ties.held[t];
      if StopsWhenReleased(Unhold(g, a, l).svc[t]) {
        var r :| StopDone(g, u, b, t, false, r);
        StopAt(g, u, b, t, t);
      }
    }
  }

  lemma TrailStep(g: Graph, trail: seq<World>, x: nat, n: nat, m: nat)
    requires g.Valid() && AllReleased(g, trail, x, n) && AllInOrder(g, trail, x) && m < n
    ensures |trail| == n + 1 && x < |g.dependsOn| == |g.rank| && n <= |g.dependsOn[x]|
    ensures Order(g, trail[m]) && |trail[m].svc| == |g.rank| && |trail[m].lnk| == |g.to| == |g.kind| && LinkReleased(g, trail[m], trail[m + 1], g.dependsOn[x][m])
  {
    hide LinkReleased, Order;
    assert Shape(g, trail[m]);
  }

  lemma {:induction false} ReleasedBy(g: Graph, trail: seq<World>, x: nat, n: nat, m: nat, i: nat)
    requires g.Valid() && AllReleased(g, trail, x, n) && AllInOrder(g, trail, x) && m <= n && i < n
    requires g.dependsOn[x][i] < |g.kind| && g.kind[g.dependsOn[x][i]] == Regular && AboutToStop(trail[0], g.dependsOn[x][i], g.to[g.dependsOn[x][i]])
    ensures AboutToStop(trail[m], g.dependsOn[x][i], g.to[g.dependsOn[x][i]])
    ensures m > i ==> trail[m].svc[g.to[g.dependsOn[x][i]]].state == Stopping
  {
    hide LinkReleased, Order, AllReleased, AllInOrder, AboutToStop;
    TrailStep(g, trail, x, n, i);
    if m > 0 {
      TrailStep(g, trail, x, n, m - 1);
      ReleasedBy(g, trail, x, n, m - 1, i);
      var a, b, k, l := trail[m - 1], trail[m], g.dependsOn[x][m - 1], g.dependsOn[x][i];
      g.Ends(l);
      if m - 1 == i {
        LastReleased(g, a, b, l);
      } else {
        assert k != l by {
          g.DependsOnOnce(x, if m - 1 < i then i else m - 1);
        }
        OtherReleased(g, a, b, k, l);
        if m - 1 > i {
          StillStopping(g, a, b, k, g.to[l]);
        }
      }
    }
  }

  // When x passes on its release, a running service that is neither pinned nor required by anyone else is brought to a stop
  lemma ReleaseStops(g: Graph, a: World, b: World, x: nat, l: nat)
    requires ReleasePassed(g, a, b, x) && Order(g, a) && a.svc[x].prop.release && l < |a.lnk| && g.from[l] == x && g.kind[l] == Regular
    requires g.to[l] < |a.svc| && a.lnk[l].holdingAcq
    requires a.svc[g.to[l]].state == Started && a.svc[g.to[l]].requiredBy == 1 && !a.svc[g.to[l]].IsStartPinned()
    ensures g.to[l] < |b.svc| && b.svc[g.to[l]].state == Stopping
  {
    hide AllReleased, AllInOrder, Order;
    GraphValid(g, a);
    g.Ends(l);
    var trail :| ReleaseThrough(g, a, b, x, trail);
    var n := |g.dependsOn[x]|;
    assert l in g.dependsOn[x];
    var i :| 0 <= i < n && g.dependsOn[x][i] == l;
    ReleasedBy(g, trail, x, n, n, i);
  }

  // ---- failing ----

  lemma FailKeeps(g: Graph, a: World, b: World, x: nat, immediateStop: bool)
    requires g.Valid() && FailDone(g, a, b, x, immediateStop) && Shape(g, a)
    requires a.svc[x].state != Started && (immediateStop || a.svc[x].state != Starting)
    ensures Upholds(g, a, b)
  {
    hide AllFailed, AllWoken, JoinedAbove;
    forall s | 0 <= s < |a.svc| && s != x ensures OnlyFails(a.svc[s], b.svc[s]) {
    }
    forall l | 0 <= l < |g.from| ensures KeepsReady(g, a, b, l) {
      g.Ends(l);
      assert LnkStop(g.kind[l], a.lnk[l], b.lnk[l]);
      assert g.from[l] != x ==> OnlyFails(a.svc[g.from[l]], b.svc[g.from[l]]);
      assert g.to[l] != x ==> OnlyFails(a.svc[g.to[l]], b.svc[g.to[l]]);
    }
  }

  // ---- starting ----

  lemma InitiateKeeps(g: Graph, a: World, b: World, x: nat)
    requires g.Valid() && Shape(g, a) && Initiated(g, a, b, x) && a.svc[x].state != Started && a.svc[x].desired == Started
    ensures Upholds(g, a, b)
  {
    WaitsReady(g, a, b, x);
  }

  // x, which has not been running, starts to wait
  lemma WaitsReady(g: Graph, a: World, b: World, x: nat)
    requires g.Valid() && Shape(g, a) && Shape(g, b) && x < |a.svc| && ButFor(a.svc, b.svc, x) && WaitsSet(g, a.lnk, b.svc, b.lnk, x)
    requires a.svc[x].state != Started && b.svc[x].state == Starting && b.svc[x].waitingForDeps && b.svc[x].desired == Started
    ensures Mindful(g, a, b)
  {
    forall l | 0 <= l < |g.from| ensures KeepsReady(g, a, b, l) {
      g.Ends(l);
      assert b.lnk[l].waitingOn == (a.lnk[l].waitingOn || MustWaitFor(g, b.svc, x, l) || HeldUpBy(g, b.svc, x, l));
    }
  }

  lemma ReviveKeeps(g: Graph, a: World, b: World, x: nat)
    requires g.Valid() && Shape(g, a) && Revived(g, a, b, x) && a.svc[x].state == Stopped
    ensures Obedient(a, b) && AskedBut(a, b, x) && Unpinning(a, b) && Mindful(g, a, b)
  {
    forall l | 0 <= l < |g.from| ensures KeepsReady(g, a, b, l) {
      g.Ends(l);
      assert b.lnk[l].waitingOn == a.lnk[l].waitingOn;
    }
  }

  lemma StartKeeps(g: Graph, a: World, b: World, x: nat)
    requires g.Valid() && Shape(g, a) && StartDone(g, a, b, x)
    ensures Obedient(a, b) && AskedBut(a, b, x) && Unpinning(a, b)
    ensures a.svc[x].requiredBy > 0 ==> Asked(b.svc[x])
    ensures !(IsLaunched(a.svc[x]) && a.svc[x].prop.stop) ==> Mindful(g, a, b)
  {
    var w := With(a, x, Wanted(a.svc[x]));
    hide FailDone, Revived, Initiated;
    if !(IsLaunched(a.svc[x]) && a.svc[x].prop.stop) {
      MindfulSame(g, a, w, x);
    }
    if a.svc[x].state == Stopped && a.svc[x].pins.stopped {
      FailKeeps(g, w, b, x, false);
      FailedUnwanted(g, w, b, x);
      MindfulTrans(g, a, w, b);
    } else if a.svc[x].state == Stopped {
      var v :| Revived(g, w, v, x) && Initiated(g, v, b, x);
      RevivedFacts(g, w, v, x);
      ReviveKeeps(g, w, v, x);
      InitiateKeeps(g, v, b, x);
      InitiatedFacts(g, v, b, x);
      MindfulTrans(g, a, w, v);
      MindfulTrans(g, a, v, b);
    } else if !CannotStartYet(a.svc[x]) {
      InitiateKeeps(g, w, b, x);
      InitiatedFacts(g, w, b, x);
      MindfulTrans(g, a, w, b);
    }
  }

  lemma FailedUnwanted(g: Graph, a: World, b: World, x: nat)
    requires FailDone(g, a, b, x, false)
    ensures x < |b.svc| && b.svc[x].desired == Stopped
  {
  }

  lemma RevivedFacts(g: Graph, a: World, b: World, x: nat)
    requires Revived(g, a, b, x)
    ensures x < |b.svc| && Shape(g, b) && b.svc[x].state == a.svc[x].state && b.svc[x].desired == a.svc[x].desired
    ensures a.svc[x].requiredBy <= b.svc[x].requiredBy
  {
  }

  lemma InitiatedFacts(g: Graph, a: World, b: World, x: nat)
    requires Initiated(g, a, b, x)
    ensures x < |b.svc| && b.svc[x].requiredBy == a.svc[x].requiredBy
  {
  }

  // ---- up and down ----

  lemma UpKeeps(g: Graph, a: World, b: World, x: nat)
    requires g.Valid() && Shape(g, a) && UpDone(g, a, b, x) && a.svc[x].state == Starting && !a.svc[x].waitingForDeps
    ensures Upholds(g, a, b)
  {
    hide Stops;
    var w := With(a, x, a.svc[x].(state := Started));
    if !MustStop(a.svc[x]) {
      StartedMinds(g, a, b, x);
    } else if a.svc[x].IsStartPinned() {
      RecordMinds(g, a, w, x);
      MindfulClose(g, a, w, x);
    } else {
      var v := NotedLate(b, x, true);
      MidStop(g, a, NotedLate(w, x, true), v, x, false);
      SameUpholds(g, v, b);
      UpholdsTrans(g, a, v, b);
    }
  }

  lemma StartedMinds(g: Graph, a: World, b: World, x: nat)
    requires g.Valid() && Shape(g, a) && Shape(g, b) && x < |a.svc| && WaitersTold(g, a, b, x) && !MustStop(a.svc[x])
    requires b.svc == a.svc[x := a.svc[x].(state := Started)] && a.svc[x].state == Starting && !a.svc[x].waitingForDeps
    ensures Mindful(g, a, b)
  {
    hide AllTold;
    forall l | 0 <= l < |g.from| ensures KeepsReady(g, a, b, l) {
      g.Ends(l);
      assert b.lnk[l] == if g.to[l] == x then a.lnk[l].(waitingOn := false) else a.lnk[l];
    }
  }

  lemma DownKeeps(g: Graph, a: World, b: World, x: nat)
    requires g.Valid() && Shape(g, a) && DownDone(g, a, b, x) && a.svc[x].state != Started
    ensures Upholds(g, a, b)
  {
    if WillRestart(a.svc[x]) {
      WaitsReady(g, a, b, x);
    } else {
      RestMinds(g, a, b, x);
    }
  }

  lemma RestMinds(g: Graph, a: World, b: World, x: nat)
    requires g.Valid() && Shape(g, a) && RestDone(g, a, b, x) && a.svc[x].state != Started
    ensures Mindful(g, a, b)
  {
    hide AllBroken;
    forall l | 0 <= l < |g.from| ensures KeepsReady(g, a, b, l) {
      g.Ends(l);
      assert LnkStop(g.kind[l], a.lnk[l], b.lnk[l]);
    }
  }

  // ---- messages ----

  lemma RequireKeeps(g: Graph, a: World, b: World, x: nat)
    requires g.Valid() && RequireDone(g, a, b, x) && forall s :: 0 <= s < |a.svc| ==> a.svc[s].requiredBy >= 0
    ensures Upholds(g, a, b)
  {
    var n := |g.dependsOn[x]|;
    forall s | 0 <= s < |a.svc| ensures b.svc[s] == RequiredTimes(a.svc[s], Wanting(g, x, s, n)) {
    }
    hide AllRequired, AllAgain;
    forall l | 0 <= l < |g.from| ensures KeepsReady(g, a, b, l) {
      g.Ends(l);
      assert b.lnk[l].waitingOn == a.lnk[l].waitingOn;
    }
  }

  // what x has passed on makes no difference, unless it was to fail, or to stop
  lemma AckedKeeps(g: Graph, a: World, x: nat, done: Mask)
    requires g.Valid() && Shape(g, a) && x < |a.svc| && !done.failure && !done.stop
    ensures Upholds(g, a, Acked(a, x, done))
  {
    MindfulSame(g, a, Acked(a, x, done), x);
  }

  lemma AckedNothing(g: Graph, a: World, x: nat, done: Mask)
    requires g.Valid() && Shape(g, a) && x < |a.svc| && Cleared(a.svc[x].prop, done) == a.svc[x].prop
    ensures Upholds(g, a, Acked(a, x, done))
  {
    MindfulSame(g, a, Acked(a, x, done), x);
  }

  // ---- whole sets ----

  ghost predicate NoPins(svc: seq<Service>) {
    forall s :: 0 <= s < |svc| ==> !svc[s].IsStartPinned()
  }

  // every service is as it should be, and waits on each regular dependency that is not running
  ghost predicate AllReady(g: Graph, w: World) {
    && |g.from| == |w.lnk| == |g.to| == |g.kind|
    && (forall s :: 0 <= s < |w.svc| ==> Sound(w.svc[s]))
    && (forall l :: 0 <= l < |w.lnk| ==> Ready(g, w.svc, w.lnk, l))
  }

  lemma MindfulReady(g: Graph, a: World, b: World)
    requires Mindful(g, a, b) && AllReady(g, a) && Shape(g, b) && g.Valid()
    ensures AllReady(g, b)
  {
    hide Sound, Obeys, Ready;
    forall s | 0 <= s < |b.svc| ensures Sound(b.svc[s]) {
      assert Minds(a.svc[s], b.svc[s]);
    }
    forall l | 0 <= l < |b.lnk| ensures Ready(g, b.svc, b.lnk, l) {
      g.Ends(l);
      assert KeepsReady(g, a, b, l);
    }
  }

  lemma UnpinningNone(a: World, b: World)
    requires Unpinning(a, b) && NoPins(a.svc)
    ensures NoPins(b.svc)
  {
    forall s | 0 <= s < |b.svc| ensures !b.svc[s].IsStartPinned() {
    }
  }

  // what a step keeps: the orders that stand always, the rest as long as there are no pins
  ghost predicate StepKeeps(g: Graph, a: World, b: World, x: nat) {
    && Obedient(a, b) && AskedBut(a, b, x)
    && (NoPins(a.svc) ==> NoPins(b.svc))
    && (NoPins(a.svc) && AllReady(g, a) ==> AllReady(g, b))
  }

  lemma StepTrans(g: Graph, a: World, b: World, c: World, x: nat)
    requires StepKeeps(g, a, b, x) && StepKeeps(g, b, c, x)
    ensures StepKeeps(g, a, c, x)
  {
    hide AllReady, NoPins, Obeys, Asked;
    forall s | 0 <= s < |a.svc|
      ensures Obeys(a.svc[s]) ==> Obeys(c.svc[s])
      ensures s != x ==> Asked(a.svc[s]) ==> Asked(c.svc[s])
    {
      assert Obeys(a.svc[s]) ==> Obeys(b.svc[s]);
      assert s != x ==> Asked(a.svc[s]) ==> Asked(b.svc[s]);
    }
  }

  lemma UpholdsStep(g: Graph, a: World, b: World, x: nat)
    requires g.Valid() && Shape(g, b) && Upholds(g, a, b)
    ensures StepKeeps(g, a, b, x) && AskedBut(a, b, |a.svc|)
  {
    hide Mindful, AllReady, NoPins, Obeys, Asked;
    if NoPins(a.svc) {
      UnpinningNone(a, b);
      if AllReady(g, a) {
        MindfulReady(g, a, b);
      }
    }
  }

  // ---- passes ----

  lemma RequirePassKeeps(g: Graph, a: World, b: World, x: nat)
    requires g.Valid() && RequirePassed(g, a, b, x) && Shape(g, b) && forall s :: 0 <= s < |a.svc| ==> a.svc[s].requiredBy >= 0
    ensures StepKeeps(g, a, b, x) && AskedBut(a, b, |a.svc|)
  {
    hide Upholds, AllRequired, AllAgain;
    if a.svc[x].prop.require {
      var v :| RequireDone(g, a, v, x) && b == Acked(v, x, REQUIRE);
      RequiredShape(g, a, v, x);
      RequireKeeps(g, a, v, x);
      AckedKeeps(g, v, x, REQUIRE);
      UpholdsTrans(g, a, v, b);
    } else {
      AckedNothing(g, a, x, REQUIRE);
    }
    UpholdsStep(g, a, b, x);
  }

  lemma RequiredShape(g: Graph, a: World, b: World, x: nat)
    requires RequireDone(g, a, b, x)
    ensures Shape(g, b) && x < |b.svc|
  {
  }

  lemma ReleasePassKeeps(g: Graph, a: World, b: World, x: nat)
    requires g.Valid() && ReleasePassed(g, a, b, x) && Shape(g, b)
    ensures StepKeeps(g, a, b, x) && AskedBut(a, b, |a.svc|)
  {
    hide Upholds, AllReleased;
    if a.svc[x].prop.release {
      var trail :| ReleaseThrough(g, a, b, x, trail);
      var n := |g.dependsOn[x]|;
      ThroughLength(g, a, b, x, trail);
      AllReleasedKeeps(g, trail, x, n, n);
      AckedKeeps(g, trail[n], x, RELEASE);
      UpholdsTrans(g, a, trail[n], b);
    } else {
      AckedNothing(g, a, x, RELEASE);
    }
    UpholdsStep(g, a, b, x);
  }

  lemma ThroughLength(g: Graph, a: World, b: World, x: nat, trail: seq<World>)
    requires ReleaseThrough(g, a, b, x, trail)
    ensures |trail| == |g.dependsOn[x]| + 1
  {
  }

  lemma FailurePassKeeps(g: Graph, a: World, b: World, x: nat)
    requires g.Valid() && FailurePassed(g, a, b, x) && Shape(g, b)
    ensures StepKeeps(g, a, b, x) && AskedBut(a, b, |a.svc|)
  {
    hide FailDone;
    if a.svc[x].prop.failure {
      var w := Fallen(a, x);
      FailKeeps(g, w, b, x, true);
      FallenMinds(g, a, w, b, x);
    } else {
      AckedNothing(g, a, x, FAILURE);
    }
    UpholdsStep(g, a, b, x);
  }

  // dependents of a service that has failed are not going to start, whether or not it was running
  lemma FallenMinds(g: Graph, a: World, w: World, b: World, x: nat)
    requires g.Valid() && Shape(g, a) && x < |a.svc| && w == Fallen(a, x) && FailDone(g, w, b, x, true) && Upholds(g, w, b)
    ensures Upholds(g, a, b)
  {
    FailedDependents(g, w, b, x);
    forall l | 0 <= l < |g.from| ensures KeepsReady(g, a, b, l) {
      g.Ends(l);
      assert KeepsReady(g, w, b, l);
    }
    forall s | 0 <= s < |a.svc| ensures Minds(a.svc[s], b.svc[s]) {
      assert Minds(w.svc[s], b.svc[s]);
    }
  }

  lemma FailedDependents(g: Graph, w: World, b: World, x: nat)
    requires g.Valid() && FailDone(g, w, b, x, true) && Shape(g, w)
    ensures forall l {:trigger Ready(g, b.svc, b.lnk, l)} :: 0 <= l < |g.from| && g.to[l] == x ==> Ready(g, b.svc, b.lnk, l)
  {
    forall l {:trigger Ready(g, b.svc, b.lnk, l)} | 0 <= l < |g.from| && g.to[l] == x ensures Ready(g, b.svc, b.lnk, l) {
      g.Ends(l);
      assert l in g.dependents[x];
      var i :| 0 <= i < |g.dependents[x]| && g.dependents[x][i] == l;
      assert Failed(g, b, g.dependents[x][i]);
    }
  }

  lemma StartPassKeeps(g: Graph, a: World, b: World, x: nat)
    requires g.Valid() && StartPassed(g, a, b, x) && Shape(g, b)
    ensures StepKeeps(g, a, b, x)
    ensures !a.svc[x].prop.start || a.svc[x].requiredBy > 0 ==> AskedBut(a, b, |a.svc|)
  {
    hide Upholds, StartDone;
    if a.svc[x].prop.start {
      var w := Acked(a, x, START);
      AckedKeeps(g, a, x, START);
      UpholdsStep(g, a, w, x);
      StartKeeps(g, w, b, x);
      if NoPins(a.svc) {
        UnpinningNone(w, b);
        if AllReady(g, a) {
          assert Sound(a.svc[x]);
          MindfulReady(g, w, b);
        }
      }
    } else {
      AckedNothing(g, a, x, START);
      UpholdsStep(g, a, b, x);
    }
  }

  lemma StopPassKeeps(g: Graph, a: World, b: World, x: nat)
    requires g.Valid() && StopPassed(g, a, b, x) && Shape(g, b)
    ensures StepKeeps(g, a, b, x) && AskedBut(a, b, |a.svc|)
  {
    hide Upholds, Stops;
    if a.svc[x].prop.stop {
      MidStop(g, a, Acked(a, x, STOP), b, x, a.svc[x].inUserRestart);
      if NoPins(a.svc) {
        UnpinningNone(a, b);
        if AllReady(g, a) {
          assert Sound(a.svc[x]);
          MindfulReady(g, a, b);
        }
      }
    } else {
      AckedNothing(g, a, x, STOP);
      UpholdsStep(g, a, b, x);
    }
  }

  // only messages about pins differ
  lemma ToldKeeps(g: Graph, a: World, b: World, x: nat, d: bool)
    requires PinTold(g, a, b, x, d)
    ensures |b.svc| == |a.svc|
    ensures forall s {:trigger b.svc[s]} :: 0 <= s < |a.svc| ==> b.svc[s] == a.svc[s].(prop := a.svc[s].prop.(pinDpt := b.svc[s].prop.pinDpt))
  {
    hide Tells;
    forall s | 0 <= s < |a.svc| ensures Marked(a.svc[s], b.svc[s], Tells(g, a.svc, a.lnk, x, d, s)) {
    }
  }

  lemma PinPassKeeps(g: Graph, a: World, b: World, x: nat)
    requires g.Valid() && PinPassed(g, a, b, x) && Shape(g, a) && Shape(g, b)
    ensures StepKeeps(g, a, b, x) && AskedBut(a, b, |a.svc|)
  {
    var dept := DependentPinned(g, a.svc, a.lnk, x);
    if a.svc[x].prop.pinDpt && dept != a.svc[x].pins.dept {
      var w := Repinned(a, x, a.svc[x].pins.(dept := dept));
      var v :| PinTold(g, w, v, x, dept) && StopIfDue(g, v, b, x);
      RepinnedKeeps(g, a, w, v, b, x, dept);
      if NoPins(a.svc) {
        NoPinsNoChange(g, a, x);
      }
    }
  }

  lemma NoPinsNoChange(g: Graph, a: World, x: nat)
    requires Shape(g, a) && x < |a.svc| && NoPins(a.svc)
    ensures !DependentPinned(g, a.svc, a.lnk, x) && !a.svc[x].pins.dept
  {
    assert !a.svc[x].IsStartPinned();
  }

  // x's own pins change, dependencies are told, and x stops if it has to
  lemma RepinnedKeeps(g: Graph, a: World, w: World, v: World, b: World, x: nat, d: bool)
    requires g.Valid() && Shape(g, a) && x < |a.svc| == |w.svc| && w == Repinned(a, x, w.svc[x].pins) && PinTold(g, w, v, x, d) && StopIfDue(g, v, b, x)
    ensures Obedient(a, b) && AskedBut(a, b, |a.svc|)
  {
    hide Stops, PinTold, Mindful;
    ToldKeeps(g, w, v, x, d);
    ToldShape(g, w, v, x, d);
    var u := With(v, x, v.svc[x].(pins := a.svc[x].pins));
    PinsAside(a.svc, w.svc, v.svc, x);
    if !v.svc[x].IsStartPinned() && v.svc[x].state == Started && MustStop(v.svc[x]) {
      MidStop(g, u, v, b, x, false);
      PinFlagsOnly(a, u, b);
    } else {
      StillObedient(a, v, x);
    }
  }

  lemma PinsAside(a: seq<Service>, w: seq<Service>, v: seq<Service>, x: nat)
    requires |a| == |w| == |v| && x < |a| && w == a[x := a[x].(pins := w[x].pins)]
    requires forall s {:trigger v[s]} :: 0 <= s < |a| ==> v[s] == w[s].(prop := w[s].prop.(pinDpt := v[s].prop.pinDpt))
    ensures forall s {:trigger v[s]} :: 0 <= s < |a| ==>
              v[s] == a[s].(prop := a[s].prop.(pinDpt := v[s].prop.pinDpt), pins := if s == x then v[s].pins else a[s].pins)
    ensures v[x].pins == w[x].pins
    ensures var u := v[x := v[x].(pins := a[x].pins)];
            forall s {:trigger u[s]} :: 0 <= s < |a| ==> u[s] == a[s].(prop := a[s].prop.(pinDpt := u[s].prop.pinDpt))
  {
  }

  lemma ToldShape(g: Graph, w: World, v: World, x: nat, d: bool)
    requires PinTold(g, w, v, x, d) && Shape(g, w)
    ensures Shape(g, v) && v.lnk == w.lnk
  {
    hide PinsPassed;
    ToldKeeps(g, w, v, x, d);
  }

  lemma PinFlagsOnly(a: World, u: World, b: World)
    requires |u.svc| == |a.svc| && forall s {:trigger u.svc[s]} :: 0 <= s < |a.svc| ==> u.svc[s] == a.svc[s].(prop := a.svc[s].prop.(pinDpt := u.svc[s].prop.pinDpt))
    requires Obedient(u, b) && AskedBut(u, b, |u.svc|)
    ensures Obedient(a, b) && AskedBut(a, b, |a.svc|)
  {
    forall s | 0 <= s < |a.svc|
      ensures Obeys(a.svc[s]) ==> Obeys(b.svc[s])
      ensures Asked(a.svc[s]) ==> Asked(b.svc[s])
    {
      assert u.svc[s] == a.svc[s].(prop := a.svc[s].prop.(pinDpt := u.svc[s].prop.pinDpt));
      assert Obeys(u.svc[s]) ==> Obeys(b.svc[s]);
      assert Asked(u.svc[s]) ==> Asked(b.svc[s]);
    }
  }

  lemma StillObedient(a: World, v: World, x: nat)
    requires |v.svc| == |a.svc| && x < |a.svc|
    requires forall s {:trigger v.svc[s]} :: 0 <= s < |a.svc| ==>
               v.svc[s] == a.svc[s].(prop := a.svc[s].prop.(pinDpt := v.svc[s].prop.pinDpt), pins := if s == x then v.svc[s].pins else a.svc[s].pins)
    requires !v.svc[x].IsStartPinned() ==> v.svc[x].state != Started || !MustStop(v.svc[x])
    ensures Obedient(a, v) && AskedBut(a, v, |a.svc|)
  {
  }

  // a whole pass
  lemma PassesKeep(g: Graph, a: World, b: World, x: nat, trail: seq<World>)
    requires Kept(g, a) && Shape(g, b) && x < |a.svc| && Passes(g, trail, x) && trail[0] == TakenUp(a, x) && trail[6] == b
    ensures StepKeeps(g, a, b, x)
  {
    hide Order, StepKeeps, Obeys, Asked, RequirePassed, ReleasePassed, FailurePassed, StartPassed, StopPassed, PinPassed;
    GraphValid(g, a);
    TakenKeeps(g, a, x);
    var t := trail[..6];
    PassShapes(g, trail, x);
    CountsNonnegative(g, t[0]);
    CountsNonnegative(g, t[3]);
    RequirePassKeeps(g, t[0], t[1], x);
    ReleasePassKeeps(g, t[1], t[2], x);
    FailurePassKeeps(g, t[2], t[3], x);
    StartPassKeeps(g, t[3], t[4], x);
    StopPassKeeps(g, t[4], t[5], x);
    PinPassKeeps(g, t[5], trail[6], x);
    StepTrans(g, a, t[0], t[1], x);
    StepTrans(g, a, t[1], t[2], x);
    StepTrans(g, a, t[2], t[3], x);
    StepTrans(g, a, t[3], t[4], x);
    StepTrans(g, a, t[4], t[5], x);
    StepTrans(g, a, t[5], b, x);
  }

  lemma PassShapes(g: Graph, trail: seq<World>, x: nat)
    requires Passes(g, trail, x)
    ensures |trail| == 7 && forall i :: 0 <= i < 6 ==> Shape(g, trail[i]) && Order(g, trail[i]) && x < |trail[i].svc|
  {
    hide Shape, Order, RequirePassed, ReleasePassed, FailurePassed, StartPassed, StopPassed, PinPassed;
    forall i | 0 <= i < 6 ensures Shape(g, trail[i]) && Order(g, trail[i]) && x < |trail[i].svc| {
      assert trail[..6][i] == trail[i];
    }
  }

  lemma TakenKeeps(g: Graph, a: World, x: nat)
    requires Shape(g, a) && x < |a.svc|
    ensures StepKeeps(g, a, TakenUp(a, x), x) && AskedBut(a, TakenUp(a, x), |a.svc|)
  {
  }

  // ---- transitions ----

  // with no message queued there is none
  lemma NoMessages(g: Graph, w: World, s: nat)
    requires Kept(g, w) && w.prop == {} && s < |w.svc|
    ensures OnlyPins(w.svc[s])
  {
    assert EntryAt(w, s, 0);
  }

  lemma TransitionKeeps(g: Graph, a: World, b: World, x: nat, outcome: BringUp, downAtOnce: bool)
    requires Kept(g, a) && a.prop == {} && Transitioned(g, a, b, x, outcome, downAtOnce)
    ensures Upholds(g, a, b)
  {
    hide Order, UpDone, FailDone, DownDone, Upholds, CanProceed;
    GraphValid(g, a);
    NoMessages(g, a, x);
    var w := a.(trans := a.trans - {x});
    var v := Proceeding(w, x);
    if !CanProceed(g, a.svc, a.lnk, x) {
      SameUpholds(g, a, b);
    } else {
      ProceedingKeeps(g, a, x);
      if a.svc[x].state == Starting {
        match outcome
        case Launched =>
        case Up =>
          UpKeeps(g, v, b, x);
          UpholdsTrans(g, a, v, b);
        case Refused =>
          CancelledKeeps(g, v, x);
          FailKeeps(g, Cancelled(v, x), b, x, true);
          UpholdsTrans(g, a, v, Cancelled(v, x));
          UpholdsTrans(g, a, Cancelled(v, x), b);
        case Failing =>
          FailKeeps(g, v, b, x, true);
          UpholdsTrans(g, a, v, b);
      } else {
        Proceeds(g, a, x);
        if downAtOnce {
          DownKeeps(g, v, b, x);
          UpholdsTrans(g, a, v, b);
        }
      }
    }
  }

  lemma Proceeds(g: Graph, a: World, x: nat)
    requires CanProceed(g, a.svc, a.lnk, x) && a.svc[x].state != Starting
    ensures a.svc[x].state == Stopping
  {
  }

  lemma SameUpholds(g: Graph, a: World, b: World)
    requires g.Valid() && b.svc == a.svc && b.lnk == a.lnk
    ensures Upholds(g, a, b)
  {
    hide Sound, Obeys, Ready;
  }

  lemma ProceedingKeeps(g: Graph, a: World, x: nat)
    requires g.Valid() && Shape(g, a) && x < |a.svc| && CanProceed(g, a.svc, a.lnk, x) && OnlyPins(a.svc[x])
    ensures Upholds(g, a, Proceeding(a.(trans := a.trans - {x}), x))
  {
    var v := Proceeding(a.(trans := a.trans - {x}), x);
    RecordMinds(g, a, v, x);
    MindfulClose(g, a, v, x);
  }

  lemma CancelledKeeps(g: Graph, a: World, x: nat)
    requires g.Valid() && Shape(g, a) && x < |a.svc| && a.svc[x].state == Starting
    ensures Upholds(g, a, Cancelled(a, x))
  {
    RecordMinds(g, a, Cancelled(a, x), x);
    MindfulClose(g, a, Cancelled(a, x), x);
  }

  // ---- requests ----

  // the count of a service started explicitly is not zero
  lemma ExplicitCounts(g: Graph, w: World, s: nat)
    requires Kept(g, w) && s < |w.svc|
    ensures w.svc[s].requiredBy >= if w.svc[s].startExplicit then 1 else 0
  {
    assert EntryAt(w, s, 0);
  }

  lemma StartItKeeps(g: Graph, a: World, b: World, x: nat)
    requires Kept(g, a) && StartHandled(g, a, b, x)
    ensures Obedient(a, b) && AskedBut(a, b, |a.svc|) && Unpinning(a, b)
    ensures !(IsLaunched(a.svc[x]) && a.svc[x].prop.stop) ==> Mindful(g, a, b)
  {
    hide StartDone, Order;
    GraphValid(g, a);
    if a.svc[x].pins.stopped {
      SameUpholds(g, a, b);
    } else {
      var w := With(a, x, Activated(a.svc[x]));
      ExplicitCounts(g, a, x);
      MindfulSame(g, a, w, x);
      StartKeeps(g, w, b, x);
      if !(IsLaunched(a.svc[x]) && a.svc[x].prop.stop) {
        MindfulTrans(g, a, w, b);
      }
    }
  }

  lemma StopItKeeps(g: Graph, a: World, b: World, x: nat, bringDown: bool)
    requires Kept(g, a) && StopHandled(g, a, b, x, bringDown)
    ensures Upholds(g, a, b)
  {
    hide Stops, Order, Mindful;
    GraphValid(g, a);
    var s := Unmarked(a.svc[x], bringDown);
    var w := With(a, x, s);
    var v := if s.requiredBy == 0 then ReleaseQueued(w, x) else w;
    if s.IsStartPinned() {
      MindfulSame(g, a, w, x);
    } else if (bringDown || s.requiredBy == 0) && s.state != Stopped {
      MidStop(g, a, v, b, x, false);
    } else {
      MindfulSame(g, a, v, x);
    }
  }

  lemma ForceKeeps(g: Graph, a: World, x: nat)
    requires g.Valid() && Shape(g, a) && x < |a.svc|
    ensures Upholds(g, a, ForcedIn(a, x))
  {
    MindfulSame(g, a, ForcedIn(a, x), x);
  }

  lemma TerminationKeeps(g: Graph, a: World, b: World, x: nat, withRestart: bool)
    requires g.Valid() && Shape(g, a) && TerminationHandled(g, a, b, x, withRestart)
    ensures Upholds(g, a, b)
  {
    hide Stops;
    MidStop(g, a, With(a, x, a.svc[x].(forceStop := true)), b, x, withRestart);
  }

  lemma AttachKeeps(g: Graph, a: World, b: World, l: nat)
    requires Kept(g, a) && AttachHandled(g, a, b, l)
    ensures Upholds(g, a, b)
  {
    hide Order, Mindful;
    GraphValid(g, a);
    var t := g.to[l];
    if a.lnk[l].holdingAcq {
      SameUpholds(g, a, b);
    } else {
      ExplicitCounts(g, a, t);
      var w := With(a, t, Required(a.svc[t])).(prop := a.prop + if MustBeStarted(a.svc[t]) then {t} else {});
      MindfulSame(g, a, w, t);
      UnheldMinds(g, w, l);
      MindfulTrans(g, a, w, b);
    }
  }

  lemma PinStartKeeps(g: Graph, a: World, b: World, x: nat)
    requires g.Valid() && Shape(g, a) && PinStartDone(g, a, b, x)
    ensures Obedient(a, b) && AskedBut(a, b, |a.svc|)
  {
    if !(a.svc[x].pins.started || a.svc[x].pins.dept) {
      var v :| PinTold(g, a, v, x, true) && x < |v.svc| && b == Repinned(v, x, a.svc[x].pins.(started := true));
      ToldKeeps(g, a, v, x, true);
    }
  }

  lemma RepinKeeps(g: Graph, a: World, x: nat, pins: Pins)
    requires g.Valid() && Shape(g, a) && x < |a.svc| && pins.started == a.svc[x].pins.started && pins.dept == a.svc[x].pins.dept
    ensures Upholds(g, a, Repinned(a, x, pins))
  {
    MindfulSame(g, a, Repinned(a, x, pins), x);
  }

  lemma UnpinKeeps(g: Graph, a: World, b: World, x: nat)
    requires g.Valid() && Shape(g, a) && UnpinHandled(g, a, b, x)
    ensures Obedient(a, b) && AskedBut(a, b, |a.svc|) && Unpinning(a, b)
    ensures !a.svc[x].pins.started ==> Upholds(g, a, b)
  {
    hide PinDropped, UnwantedDone;
    if !a.svc[x].pins.started {
      RepinKeeps(g, a, x, a.svc[x].pins.(stopped := false));
    } else {
      var v, u :|
        && PinDropped(g, a, v, x) && x < |v.svc|
        && if a.svc[x].pins.dept then u == v && b == v
           else UnwantedDone(g, v, u, x) && x < |u.svc| && b == Repinned(u, x, u.svc[x].pins.(stopped := false));
      DroppedFacts(g, a, v, x);
      if !a.svc[x].pins.dept {
        UnwantedKeeps(g, a, v, u, x);
      }
    }
  }

  lemma DroppedFacts(g: Graph, a: World, v: World, x: nat)
    requires PinDropped(g, a, v, x)
    ensures v.ties == a.ties && v.notes == a.notes && |v.svc| == |a.svc| && v.svc[x].pins == a.svc[x].pins.(started := false) && v.lnk == a.lnk
    ensures forall s {:trigger v.svc[s]} :: 0 <= s < |a.svc| ==>
              v.svc[s] == a.svc[s].(pins := v.svc[s].pins, prop := a.svc[s].prop.(pinDpt := v.svc[s].prop.pinDpt)) && (s != x ==> v.svc[s].pins == a.svc[s].pins)
  {
    var w := Repinned(a, x, a.svc[x].pins.(started := false));
    if !a.svc[x].pins.dept {
      ToldKeeps(g, w, v, x, false);
    }
  }

  lemma UnwantedKeeps(g: Graph, a: World, v: World, u: World, x: nat)
    requires g.Valid() && Shape(g, a) && x < |a.svc| == |v.svc| && UnwantedDone(g, v, u, x) && !v.svc[x].IsStartPinned()
    requires forall s {:trigger v.svc[s]} :: 0 <= s < |a.svc| ==>
               v.svc[s] == a.svc[s].(pins := v.svc[s].pins, prop := a.svc[s].prop.(pinDpt := v.svc[s].prop.pinDpt)) && (s != x ==> v.svc[s].pins == a.svc[s].pins)
    requires v.lnk == a.lnk && |v.notes| == |a.notes| && |v.ties.held| == |v.ties.waits| == |v.ties.waiters| == |v.svc|
    ensures Obedient(a, u) && AskedBut(a, u, |a.svc|) && Unpinning(a, u) && x < |u.svc| && !u.svc[x].IsStartPinned()
  {
    var w := if v.svc[x].requiredBy == 0 then
               With(v, x, v.svc[x].(prop := v.svc[x].prop.(release := true))).(prop := v.prop + {x})
             else v;
    if v.svc[x].state == Started && MustStop(v.svc[x]) {
      MidStop(g, v, w, u, x, false);
      StopsPins(g, w, u, x);
      forall s | 0 <= s < |a.svc| ensures Obeys(a.svc[s]) ==> Obeys(u.svc[s]) {
        assert s != x ==> Obeys(a.svc[s]) ==> Obeys(v.svc[s]);
        StopsFinal(g, w, u, x);
      }
    }
  }

  lemma StopsPins(g: Graph, w: World, b: World, x: nat)
    requires Stops(g, w, b, x, false) && x < |w.svc|
    ensures |b.svc| == |w.svc| && b.svc[x].pins == w.svc[x].pins
  {
    var r :| StopDone(g, w, b, x, false, r);
    StopAt(g, w, b, x, x);
  }

  lemma StopsFinal(g: Graph, w: World, b: World, x: nat)
    requires g.Valid() && Stops(g, w, b, x, false) && x < |w.svc| && !w.svc[x].IsStartPinned()
    ensures x < |b.svc| && b.svc[x].state != Started
  {
    var r :| StopDone(g, w, b, x, false, r);
    StopAt(g, w, b, x, x);
  }
}
