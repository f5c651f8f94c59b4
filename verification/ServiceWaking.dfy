// Services that wait for their dependents before they stop: who still has to stop, and who has been forgotten.
module ServiceWaking {
  import opened ServiceRecords
  import opened ServiceBooks
  import opened ServiceStops
  import opened ServicePins
  import opened ServiceSteps
  import opened ServicePasses
  import opened ServiceUpkeep

  predicate WaitsToStop(s: Service) {
    s.state == Stopping && s.waitingForDeps
  }

  // the dependent at the other end of link l has yet to stop, or to let go of s
  predicate Blocks(g: Graph, w: World, s: nat, l: nat) {
    && l < |w.lnk| && l < |g.from| && l < |g.to| && l < |g.kind| && g.to[l] == s && g.from[l] < |w.svc| && g.IsHard(l, w.lnk[l])
    && (!w.svc[g.from[l]].IsFundamentallyStopped() || (w.lnk[l].holdingAcq && !w.lnk[l].waitingOn))
  }

  ghost predicate Blocked(g: Graph, w: World, s: nat) {
    exists l: nat :: Blocks(g, w, s, l)
  }

  // if s waits to stop, it is queued to look again, or it is for a dependent to let it know
  ghost predicate Woken(g: Graph, w: World, s: nat) {
    s < |w.svc| && (WaitsToStop(w.svc[s]) ==> s in w.trans || Blocked(g, w, s))
  }

  // ... one that has not stopped
  ghost predicate WokenFirst(g: Graph, w: World, s: nat) {
    s < |w.svc| && (WaitsToStop(w.svc[s]) ==> s in w.trans || HeldBack(g, w, s))
  }

  // x depends on s by a link that is hard, or may be
  ghost predicate Needs(g: Graph, x: nat, s: nat) {
    exists l: nat :: NeedsBy(g, x, s, l)
  }

  predicate NeedsBy(g: Graph, x: nat, s: nat, l: nat) {
    l < |g.from| && l < |g.to| && l < |g.kind| && g.from[l] == x && g.to[l] == s && (g.kind[l] == Regular || g.kind[l] == Milestone)
  }

  lemma FirstIsWoken(g: Graph, w: World, s: nat)
    requires WokenFirst(g, w, s)
    ensures Woken(g, w, s)
  {
    if l: nat :| HeldBackBy(g, w, s, l) {
      assert Blocks(g, w, s, l);
    }
  }

  lemma StillWoken(g: Graph, a: World, b: World, s: nat)
    requires Woken(g, a, s) && a.trans <= b.trans && |a.svc| == |b.svc|
    requires WaitsToStop(b.svc[s]) ==> WaitsToStop(a.svc[s])
    requires forall l: nat :: Blocks(g, a, s, l) ==> Blocks(g, b, s, l) || s in b.trans
    ensures Woken(g, b, s)
  {
    hide Blocks;
  }

  // services are where they were, and links wait as they did and hold what they held
  ghost predicate SameStanding(a: World, b: World) {
    && |a.svc| == |b.svc| && |a.lnk| == |b.lnk| && a.trans <= b.trans
    && (forall s {:trigger b.svc[s]} :: 0 <= s < |a.svc| ==> b.svc[s].state == a.svc[s].state && b.svc[s].waitingForDeps == a.svc[s].waitingForDeps)
    && (forall l {:trigger b.lnk[l]} :: 0 <= l < |a.lnk| ==> b.lnk[l].waitingOn == a.lnk[l].waitingOn && (a.lnk[l].holdingAcq ==> b.lnk[l].holdingAcq))
  }

  lemma StandingWoken(g: Graph, a: World, b: World, s: nat)
    requires SameStanding(a, b) && Woken(g, a, s)
    ensures Woken(g, b, s)
  {
    forall l: nat | Blocks(g, a, s, l) ensures Blocks(g, b, s, l) {
      assert b.lnk[l].waitingOn == a.lnk[l].waitingOn;
      assert b.svc[g.from[l]].state == a.svc[g.from[l]].state;
    }
    StillWoken(g, a, b, s);
  }

  // x's own record changes: it does not come to wait, nor does it stop
  lemma RecordWoken(g: Graph, a: World, b: World, x: nat, s: nat)
    requires Woken(g, a, s) && ButFor(a.svc, b.svc, x) && x < |a.svc| && b.lnk == a.lnk && a.trans <= b.trans
    requires WaitsToStop(b.svc[x]) ==> WaitsToStop(a.svc[x])
    requires b.svc[x].IsFundamentallyStopped() ==> a.svc[x].IsFundamentallyStopped()
    ensures Woken(g, b, s)
  {
    StillWoken(g, a, b, s);
  }

  // ---- stopping ----

  lemma StopFirst(g: Graph, a: World, b: World, x: nat, withRestart: bool, s: nat)
    requires g.Valid() && Stops(g, a, b, x, withRestart) && s < |a.svc|
    ensures s < |b.svc| && (WaitsToStop(b.svc[s]) ==> WaitsToStop(a.svc[s]) || HeldBack(g, b, s))
    ensures a.trans <= b.trans && (HeldBack(g, a, s) ==> HeldBack(g, b, s))
  {
    hide HeldBack;
    var r :| StopDone(g, a, b, x, withRestart, r);
    if !a.svc[x].IsStartPinned() {
      StopMinds(g, a, b, x, withRestart);
      HeldBackStays(g, a, b, s, x);
      StopAt(g, a, b, x, s);
      assert NewlyHeld(g, a, b, s);
    }
  }

  lemma StopBlocks(g: Graph, a: World, b: World, x: nat, withRestart: bool, s: nat, l: nat)
    requires Stops(g, a, b, x, withRestart) && Blocks(g, a, s, l)
    ensures Blocks(g, b, s, l)
  {
    var r :| StopDone(g, a, b, x, withRestart, r);
    StopLinkAt(g, a, b, x, l);
    StopAt(g, a, b, x, g.from[l]);
    assert b.lnk[l] == a.lnk[l];
  }

  lemma StopWoken(g: Graph, a: World, b: World, x: nat, withRestart: bool, s: nat)
    requires g.Valid() && Stops(g, a, b, x, withRestart) && Woken(g, a, s)
    ensures Woken(g, b, s)
  {
    hide Stops, Blocks, HeldBackBy;
    StopFirst(g, a, b, x, withRestart, s);
    if HeldBack(g, b, s) {
      FirstIsWoken(g, b, s);
    } else if l: nat :| Blocks(g, a, s, l) {
      StopBlocks(g, a, b, x, withRestart, s, l);
    }
  }

  // x's own record changes, and then x stops
  lemma MidWoken(g: Graph, a: World, w: World, b: World, x: nat, withRestart: bool, s: nat)
    requires g.Valid() && Woken(g, a, s) && ButFor(a.svc, w.svc, x) && x < |a.svc| && w.lnk == a.lnk && a.trans <= w.trans
    requires WaitsToStop(w.svc[x]) ==> WaitsToStop(a.svc[x])
    requires w.svc[x].IsFundamentallyStopped() ==> a.svc[x].IsFundamentallyStopped()
    requires Stops(g, w, b, x, withRestart)
    ensures Woken(g, b, s)
  {
    hide Stops;
    RecordWoken(g, a, w, x, s);
    StopWoken(g, w, b, x, withRestart, s);
  }

  // ---- releasing ----

  lemma ReleasedFirst(g: Graph, a: World, b: World, l: nat, s: nat)
    requires g.Valid() && LinkReleased(g, a, b, l) && WokenFirst(g, a, s)
    ensures WokenFirst(g, b, s)
  {
    hide Stops;
    if a.lnk[l].holdingAcq {
      var t := g.to[l];
      var u := GivenBack(Unhold(g, a, l), t);
      forall k: nat | HeldBackBy(g, a, s, k) ensures HeldBackBy(g, u, s, k) {
      }
      if StopsWhenReleased(Unhold(g, a, l).svc[t]) {
        StopFirst(g, u, b, t, false, s);
      }
    }
  }

  // a service lets go of another that may be waiting for it
  lemma ReleasedWoken(g: Graph, a: World, b: World, l: nat, s: nat)
    requires g.Valid() && LinkReleased(g, a, b, l) && Woken(g, a, s)
    requires g.from[l] < |a.svc| && (Needs(g, g.from[l], s) ==> !a.svc[g.from[l]].IsFundamentallyStopped())
    ensures Woken(g, b, s)
  {
    hide Stops;
    assert Blocks(g, a, s, l) ==> NeedsBy(g, g.from[l], s, l);
    if a.lnk[l].holdingAcq {
      var t := g.to[l];
      var u := GivenBack(Unhold(g, a, l), t);
      StillWoken(g, a, u, s);
      if StopsWhenReleased(Unhold(g, a, l).svc[t]) {
        StopWoken(g, u, b, t, false, s);
      }
    }
  }

  // what the pass of x leaves as it is in x's own record
  predicate SameRole(a: Service, b: Service) {
    b.prop.start == a.prop.start && (b.IsFundamentallyStopped() ==> a.IsFundamentallyStopped())
  }

  lemma ReleasedRole(g: Graph, a: World, b: World, l: nat, x: nat)
    requires g.Valid() && LinkReleased(g, a, b, l) && x < |a.svc| && g.to[l] != x
    ensures x < |b.svc| && SameRole(a.svc[x], b.svc[x]) && b.svc[x].prop.failure == a.svc[x].prop.failure
  {
    hide StopRel;
    if a.lnk[l].holdingAcq {
      var t, u := g.to[l], Unhold(g, a, l);
      if StopsWhenReleased(u.svc[t]) {
        var r :| StopDone(g, GivenBack(u, t), b, t, false, r);
        StopAt(g, GivenBack(u, t), b, t, x);
      }
    }
  }

  lemma SameRoleTrans(a: Service, b: Service, c: Service)
    ensures SameRole(a, a) && (SameRole(a, b) && SameRole(b, c) ==> SameRole(a, c))
    ensures SameRole(a, b) && !a.IsFundamentallyStopped() ==> !b.IsFundamentallyStopped()
  {
  }

  lemma ReleasedLength(g: Graph, trail: seq<World>, x: nat, n: nat)
    requires AllReleased(g, trail, x, n)
    ensures |trail| == n + 1 && x < |g.dependsOn| && n <= |g.dependsOn[x]|
  {
  }

  lemma ReleasedAt(g: Graph, trail: seq<World>, x: nat, n: nat, m: nat)
    requires AllReleased(g, trail, x, n) && m < n
    ensures |trail| == n + 1 && x < |g.dependsOn| && n <= |g.dependsOn[x]| && LinkReleased(g, trail[m], trail[m + 1], g.dependsOn[x][m])
  {
    hide LinkReleased;
  }

  lemma {:induction false} AllReleasedWoken(g: Graph, trail: seq<World>, x: nat, n: nat, m: nat, s: nat)
    requires g.Valid() && AllReleased(g, trail, x, n) && m <= n && x < |trail[0].svc| && s < |trail[0].svc|
    ensures x < |trail[m].svc| && SameRole(trail[0].svc[x], trail[m].svc[x])
    ensures WokenFirst(g, trail[0], s) ==> WokenFirst(g, trail[m], s)
    ensures Woken(g, trail[0], s) && (Needs(g, x, s) ==> !trail[0].svc[x].IsFundamentallyStopped()) ==> Woken(g, trail[m], s)
  {
    hide LinkReleased, Woken, WokenFirst, Needs, AllReleased, SameRole;
    ReleasedLength(g, trail, x, n);
    SameRoleTrans(trail[0].svc[x], trail[0].svc[x], trail[0].svc[x]);
    if m > 0 {
      AllReleasedWoken(g, trail, x, n, m - 1, s);
      var a, b, l := trail[m - 1], trail[m], g.dependsOn[x][m - 1];
      ReleasedAt(g, trail, x, n, m - 1);
      g.DependsOnAt(x, m - 1);
      g.Ends(l);
      ReleasedRole(g, a, b, l, x);
      SameRoleTrans(trail[0].svc[x], a.svc[x], b.svc[x]);
      if WokenFirst(g, a, s) {
        ReleasedFirst(g, a, b, l, s);
      }
      if Woken(g, a, s) && (Needs(g, x, s) ==> !trail[0].svc[x].IsFundamentallyStopped()) {
        ReleasedWoken(g, a, b, l, s);
      }
    }
  }

  // ---- up, down, failing ----

  lemma UpWoken(g: Graph, a: World, b: World, x: nat, s: nat)
    requires g.Valid() && Shape(g, a) && UpDone(g, a, b, x) && a.svc[x].state == Starting && !a.svc[x].waitingForDeps && Woken(g, a, s)
    ensures Woken(g, b, s)
  {
    hide Stops, AllTold;
    var w := With(a, x, a.svc[x].(state := Started));
    if !MustStop(a.svc[x]) {
      if s != x {
        forall l: nat | Blocks(g, a, s, l) ensures Blocks(g, b, s, l) {
          assert b.lnk[l] == a.lnk[l];
        }
        StillWoken(g, a, b, s);
      }
    } else if a.svc[x].IsStartPinned() {
      RecordWoken(g, a, b, x, s);
    } else {
      var v := NotedLate(b, x, true);
      MidWoken(g, a, NotedLate(w, x, true), v, x, false, s);
      StillWoken(g, v, b, s);
    }
  }

  // x's targets have been told that it has stopped
  lemma TargetWoken(g: Graph, w: World, x: nat, s: nat, l: nat)
    requires g.Valid() && AllWoken(g, w, x) && l < |g.from| && g.from[l] == x && g.to[l] == s < |w.svc| && WaitsToStop(w.svc[s])
    ensures s in w.trans
  {
    assert l in g.dependsOn[x];
    var i :| 0 <= i < |g.dependsOn[x]| && g.dependsOn[x][i] == l;
    assert WokenToStop(g, w.svc, w.trans, g.dependsOn[x][i]);
  }

  // w is a but for x's own record, and then x fails
  lemma FailWoken(g: Graph, a: World, w: World, b: World, x: nat, immediateStop: bool, s: nat)
    requires g.Valid() && Shape(g, a) && FailDone(g, w, b, x, immediateStop) && Woken(g, a, s)
    requires ButFor(a.svc, w.svc, x) && x < |a.svc| && w.lnk == a.lnk && w.trans == a.trans
    requires !immediateStop ==> !WaitsToStop(w.svc[x]) && (w.svc[x].IsFundamentallyStopped() ==> a.svc[x].IsFundamentallyStopped())
    ensures Woken(g, b, s)
  {
    hide AllFailed, AllWoken, JoinedAbove, LetGo, LnkStop;
    forall t | 0 <= t < |a.svc| && t != x ensures OnlyFails(w.svc[t], b.svc[t]) {
    }
    if s != x && WaitsToStop(b.svc[s]) {
      forall l: nat | Blocks(g, a, s, l) ensures Blocks(g, b, s, l) || s in b.trans {
        assert b.lnk[l] == a.lnk[l];
        if g.from[l] == x && immediateStop {
          TargetWoken(g, b, x, s, l);
        }
      }
      StillWoken(g, a, b, s);
    }
  }

  lemma DownWoken(g: Graph, a: World, b: World, x: nat, s: nat)
    requires g.Valid() && Shape(g, a) && DownDone(g, a, b, x) && Woken(g, a, s)
    ensures Woken(g, b, s)
  {
    hide AllWoken, AllBroken, LetGo, Roused, Unhindered, Asked;
    if s != x && WaitsToStop(b.svc[s]) {
      forall l: nat | Blocks(g, a, s, l) ensures Blocks(g, b, s, l) || s in b.trans {
        if g.from[l] == x {
          TargetWoken(g, b, x, s, l);
        } else {
          assert b.lnk[l].waitingOn == a.lnk[l].waitingOn && b.lnk[l].holdingAcq == a.lnk[l].holdingAcq;
        }
      }
      StillWoken(g, a, b, s);
    }
  }

  // ---- starting ----

  lemma InitiatedWoken(g: Graph, a: World, b: World, x: nat, s: nat)
    requires g.Valid() && Shape(g, a) && Initiated(g, a, b, x) && Woken(g, a, s) && (WaitsToStop(a.svc[s]) ==> !Needs(g, x, s))
    ensures Woken(g, b, s)
  {
    if s != x && WaitsToStop(a.svc[s]) {
      forall l: nat | Blocks(g, a, s, l) ensures Blocks(g, b, s, l) {
        if g.from[l] == x {
          assert NeedsBy(g, x, s, l);
        }
        assert b.lnk[l].waitingOn == (a.lnk[l].waitingOn || MustWaitFor(g, b.svc, x, l) || HeldUpBy(g, b.svc, x, l));
      }
      StillWoken(g, a, b, s);
    }
  }

  lemma RevivedWoken(g: Graph, a: World, b: World, x: nat, s: nat)
    requires Revived(g, a, b, x) && Woken(g, a, s)
    ensures Woken(g, b, s) && |b.svc| == |a.svc| && b.svc[s].state == a.svc[s].state && b.svc[s].waitingForDeps == a.svc[s].waitingForDeps
    ensures Shape(g, b)
  {
    StandingWoken(g, a, b, s);
  }

  // a start will be carried out
  predicate CarriedOut(s: Service) {
    !s.pins.stopped && (s.state == Stopped || (s.state == Stopping && s.CanInterruptStop()))
  }

  // a service that starts again, having let others wait for it to stop, forgets them
  lemma StartWoken(g: Graph, a: World, b: World, x: nat, s: nat)
    requires g.Valid() && Shape(g, a) && StartDone(g, a, b, x) && Woken(g, a, s)
    ensures Woken(g, b, s) || (WaitsToStop(a.svc[s]) && Needs(g, x, s) && CarriedOut(a.svc[x]))
  {
    hide FailDone, Revived, Initiated, Needs;
    var w := With(a, x, Wanted(a.svc[x]));
    RecordWoken(g, a, w, x, s);
    if a.svc[x].state == Stopped && a.svc[x].pins.stopped {
      FailWoken(g, w, w, b, x, false, s);
    } else if a.svc[x].state == Stopped {
      var v :| Revived(g, w, v, x) && Initiated(g, v, b, x);
      RevivedWoken(g, w, v, x, s);
      if !(WaitsToStop(a.svc[s]) && Needs(g, x, s)) {
        InitiatedWoken(g, v, b, x, s);
      }
    } else if !CannotStartYet(a.svc[x]) {
      if !(WaitsToStop(a.svc[s]) && Needs(g, x, s)) {
        InitiatedWoken(g, w, b, x, s);
      }
    }
  }

  // ---- passes ----

  lemma {:induction false} WantsNotItself(g: Graph, x: nat, n: nat)
    requires g.Valid() && x < |g.dependsOn| && n <= |g.dependsOn[x]|
    ensures Wanting(g, x, x, n) == 0
  {
    if n > 0 {
      WantsNotItself(g, x, n - 1);
      g.DependsOnAt(x, n - 1);
      g.Ends(g.dependsOn[x][n - 1]);
    }
  }

  lemma RequireOwn(g: Graph, a: World, b: World, x: nat)
    requires g.Valid() && RequirePassed(g, a, b, x)
    ensures x < |b.svc| && b.svc[x] == a.svc[x].(prop := Cleared(a.svc[x].prop, REQUIRE)) && SameStanding(a, b)
    ensures |b.svc| == |a.svc| && forall s {:trigger b.svc[s]} :: 0 <= s < |a.svc| ==> b.svc[s].startExplicit == a.svc[s].startExplicit
  {
    hide AllAgain, ToldToStart, MustBeStarted, Requires;
    if a.svc[x].prop.require {
      var v :| RequireDone(g, a, v, x) && b == Acked(v, x, REQUIRE);
      WantsNotItself(g, x, |g.dependsOn[x]|);
      forall t | 0 <= t < |a.svc| ensures v.svc[t] == RequiredTimes(a.svc[t], Wanting(g, x, t, |g.dependsOn[x]|)) {
      }
    }
  }

  lemma RequirePassWoken(g: Graph, a: World, b: World, x: nat, s: nat)
    requires g.Valid() && RequirePassed(g, a, b, x) && Woken(g, a, s)
    ensures SameStanding(a, b) && Woken(g, b, s) && x < |b.svc| && b.svc[x].prop == Cleared(a.svc[x].prop, REQUIRE)
  {
    hide RequirePassed;
    RequireOwn(g, a, b, x);
    StandingWoken(g, a, b, s);
  }

  // x passes on a start, or a release although it has stopped: no other pass leaves a service waiting for nothing
  ghost predicate Forgets(g: Graph, a: World, x: nat, s: nat) {
    && s < |a.svc| && x < |a.svc| && Needs(g, x, s)
    && var p := a.svc[x].prop;
       (WaitsToStop(a.svc[s]) && (p.start || (p.release && a.svc[x].IsFundamentallyStopped()))) || (p.start && p.release)
  }

  lemma ReleasePassWoken(g: Graph, a: World, b: World, x: nat, s: nat)
    requires g.Valid() && ReleasePassed(g, a, b, x) && Woken(g, a, s)
    ensures x < |b.svc| && b.svc[x].prop.start == a.svc[x].prop.start
    ensures Woken(g, b, s) || (a.svc[x].prop.release && WaitsToStop(a.svc[s]) && Needs(g, x, s) && a.svc[x].IsFundamentallyStopped())
    ensures !a.svc[x].prop.release && s < |b.svc| && WaitsToStop(b.svc[s]) ==> WaitsToStop(a.svc[s])
  {
    hide AllReleased, Needs, Blocked, HeldBack;
    if a.svc[x].prop.release {
      var trail :| ReleaseThrough(g, a, b, x, trail);
      var n := |g.dependsOn[x]|;
      ThroughLength(g, a, b, x, trail);
      AllReleasedWoken(g, trail, x, n, n, s);
      if WokenFirst(g, trail[n], s) {
        FirstIsWoken(g, trail[n], s);
      }
      if Woken(g, trail[n], s) {
        RecordWoken(g, trail[n], b, x, s);
      }
    } else {
      RecordWoken(g, a, b, x, s);
    }
  }

  lemma FailurePassWoken(g: Graph, a: World, b: World, x: nat, s: nat)
    requires g.Valid() && FailurePassed(g, a, b, x) && Woken(g, a, s)
    ensures Woken(g, b, s) && x < |b.svc| && b.svc[x].prop.start == a.svc[x].prop.start
    ensures WaitsToStop(b.svc[s]) ==> s < |a.svc| && WaitsToStop(a.svc[s])
  {
    hide AllFailed, AllWoken, JoinedAbove, LetGo, Blocked;
    if a.svc[x].prop.failure {
      FailWoken(g, a, Fallen(a, x), b, x, true, s);
      assert s != x ==> OnlyFails(a.svc[s], b.svc[s]);
    } else {
      RecordWoken(g, a, b, x, s);
    }
  }

  lemma StartPassWoken(g: Graph, a: World, b: World, x: nat, s: nat)
    requires g.Valid() && StartPassed(g, a, b, x) && Woken(g, a, s)
    ensures Woken(g, b, s) || (a.svc[x].prop.start && WaitsToStop(a.svc[s]) && Needs(g, x, s) && CarriedOut(a.svc[x]))
  {
    hide StartDone, Needs, Blocked;
    RecordWoken(g, a, Acked(a, x, START), x, s);
    if a.svc[x].prop.start {
      StartWoken(g, Acked(a, x, START), b, x, s);
    }
  }

  lemma StopPassWoken(g: Graph, a: World, b: World, x: nat, s: nat)
    requires g.Valid() && StopPassed(g, a, b, x) && Woken(g, a, s)
    ensures Woken(g, b, s)
  {
    hide Stops, Blocked;
    if a.svc[x].prop.stop {
      MidWoken(g, a, Acked(a, x, STOP), b, x, a.svc[x].inUserRestart, s);
    } else {
      RecordWoken(g, a, b, x, s);
    }
  }

  lemma ToldWoken(g: Graph, a: World, b: World, x: nat, d: bool, s: nat)
    requires PinTold(g, a, b, x, d) && Woken(g, a, s)
    ensures Woken(g, b, s)
  {
    hide PinsPassed;
    ToldKeeps(g, a, b, x, d);
    StandingWoken(g, a, b, s);
  }

  lemma PinPassWoken(g: Graph, a: World, b: World, x: nat, s: nat)
    requires g.Valid() && PinPassed(g, a, b, x) && Woken(g, a, s)
    ensures Woken(g, b, s)
  {
    hide Stops, PinsPassed, Blocked, PinTold;
    var dept := DependentPinned(g, a.svc, a.lnk, x);
    if a.svc[x].prop.pinDpt && dept != a.svc[x].pins.dept {
      var w := Repinned(a, x, a.svc[x].pins.(dept := dept));
      var v :| PinTold(g, w, v, x, dept) && StopIfDue(g, v, b, x);
      RecordWoken(g, a, w, x, s);
      ToldWoken(g, w, v, x, dept, s);
      if b != v {
        StopWoken(g, v, b, x, false, s);
      }
    }
  }

  lemma PassWoken(g: Graph, a: World, b: World, x: nat, trail: seq<World>, s: nat)
    requires Kept(g, a) && x < |a.svc| && Passes(g, trail, x) && trail[0] == TakenUp(a, x) && trail[6] == b && Woken(g, a, s)
    ensures Woken(g, b, s) || Forgets(g, a, x, s)
  {
    hide Order, RequirePassed, ReleasePassed, FailurePassed, StartPassed, StopPassed, PinPassed, Blocked, Needs;
    GraphValid(g, a);
    var t := trail[..6];
    StandingWoken(g, a, t[0], s);
    RequirePassWoken(g, t[0], t[1], x, s);
    ReleasePassWoken(g, t[1], t[2], x, s);
    assert t[1].svc[x].IsFundamentallyStopped() <==> a.svc[x].IsFundamentallyStopped();
    assert WaitsToStop(t[1].svc[s]) <==> WaitsToStop(a.svc[s]);
    if Woken(g, t[2], s) {
      FailurePassWoken(g, t[2], t[3], x, s);
      StartPassWoken(g, t[3], t[4], x, s);
      if Woken(g, t[4], s) {
        StopPassWoken(g, t[4], t[5], x, s);
        PinPassWoken(g, t[5], trail[6], x, s);
      }
    }
  }

  // ---- transitions ----

  lemma TransitionWoken(g: Graph, a: World, b: World, x: nat, outcome: BringUp, downAtOnce: bool, s: nat)
    requires Kept(g, a) && Transitioned(g, a, b, x, outcome, downAtOnce) && Woken(g, a, s)
    ensures Woken(g, b, s)
  {
    hide Order, UpDone, FailDone, DownDone, CanProceed;
    GraphValid(g, a);
    var w := a.(trans := a.trans - {x});
    var v := Proceeding(w, x);
    if !CanProceed(g, a.svc, a.lnk, x) {
      LeftWaiting(g, a, x, s);
    } else {
      ProceedingWoken(g, a, x, s);
      if a.svc[x].state == Starting {
        match outcome
        case Launched =>
        case Up => UpWoken(g, v, b, x, s);
        case Refused => FailWoken(g, v, Cancelled(v, x), b, x, true, s);
        case Failing => FailWoken(g, v, v, b, x, true, s);
      } else if downAtOnce {
        DownWoken(g, v, b, x, s);
      }
    }
  }

  // a service that cannot stop yet goes on waiting, since it is blocked
  lemma LeftWaiting(g: Graph, a: World, x: nat, s: nat)
    requires g.Valid() && Shape(g, a) && x < |a.svc| && !CanProceed(g, a.svc, a.lnk, x) && Woken(g, a, s)
    ensures Woken(g, a.(trans := a.trans - {x}), s)
  {
    var w := a.(trans := a.trans - {x});
    if l: nat :| Blocks(g, a, s, l) {
      assert Blocks(g, w, s, l);
    } else if s == x && WaitsToStop(a.svc[x]) {
      var l :| 0 <= l < |a.lnk| && g.to[l] == x && !Settled(g, a.lnk, l);
      g.Ends(l);
      assert Blocks(g, w, s, l);
    }
  }

  lemma ProceedingWoken(g: Graph, a: World, x: nat, s: nat)
    requires x < |a.svc| && Woken(g, a, s) && CanProceed(g, a.svc, a.lnk, x)
    ensures Woken(g, Proceeding(a.(trans := a.trans - {x}), x), s)
  {
    hide CanProceed;
    var v := Proceeding(a.(trans := a.trans - {x}), x);
    if s != x {
      forall l: nat | Blocks(g, a, s, l) ensures Blocks(g, v, s, l) {
      }
      assert s in a.trans ==> s in v.trans;
    }
  }

  // ---- requests ----

  lemma StopItWoken(g: Graph, a: World, b: World, x: nat, bringDown: bool, s: nat)
    requires Kept(g, a) && StopHandled(g, a, b, x, bringDown) && Woken(g, a, s)
    ensures Woken(g, b, s)
  {
    hide Stops, Order, Blocked;
    GraphValid(g, a);
    var u := Unmarked(a.svc[x], bringDown);
    var w := With(a, x, u);
    var v := if u.requiredBy == 0 then ReleaseQueued(w, x) else w;
    if !u.IsStartPinned() && (bringDown || u.requiredBy == 0) && u.state != Stopped {
      MidWoken(g, a, v, b, x, false, s);
    } else {
      RecordWoken(g, a, b, x, s);
    }
  }

  lemma TerminationWoken(g: Graph, a: World, b: World, x: nat, withRestart: bool, s: nat)
    requires Kept(g, a) && TerminationHandled(g, a, b, x, withRestart) && Woken(g, a, s)
    ensures Woken(g, b, s)
  {
    hide Stops, Order, Blocked;
    GraphValid(g, a);
    MidWoken(g, a, With(a, x, a.svc[x].(forceStop := true)), b, x, withRestart, s);
  }

  lemma AttachWoken(g: Graph, a: World, b: World, l: nat, s: nat)
    requires AttachHandled(g, a, b, l) && Woken(g, a, s)
    ensures Woken(g, b, s)
  {
    StandingWoken(g, a, b, s);
  }

  lemma PinStartWoken(g: Graph, a: World, b: World, x: nat, s: nat)
    requires PinStartDone(g, a, b, x) && Woken(g, a, s)
    ensures Woken(g, b, s)
  {
    hide PinTold, Blocked;
    if a.svc[x].pins.started || a.svc[x].pins.dept {
      RecordWoken(g, a, b, x, s);
    } else {
      var v :| PinTold(g, a, v, x, true) && x < |v.svc| && b == Repinned(v, x, a.svc[x].pins.(started := true));
      ToldWoken(g, a, v, x, true, s);
      RecordWoken(g, v, b, x, s);
    }
  }

  lemma UnpinWoken(g: Graph, a: World, b: World, x: nat, s: nat)
    requires g.Valid() && UnpinHandled(g, a, b, x) && Woken(g, a, s)
    ensures Woken(g, b, s)
  {
    hide PinTold, UnwantedDone, Blocked;
    if !a.svc[x].pins.started {
      RecordWoken(g, a, b, x, s);
    } else {
      var v, u :|
        && PinDropped(g, a, v, x) && x < |v.svc|
        && if a.svc[x].pins.dept then u == v && b == v
           else UnwantedDone(g, v, u, x) && x < |u.svc| && b == Repinned(u, x, u.svc[x].pins.(stopped := false));
      var w := Repinned(a, x, a.svc[x].pins.(started := false));
      RecordWoken(g, a, w, x, s);
      if !a.svc[x].pins.dept {
        ToldWoken(g, w, v, x, false, s);
        UnwantedWoken(g, v, u, x, s);
        RecordWoken(g, u, b, x, s);
      }
    }
  }

  lemma UnwantedWoken(g: Graph, a: World, b: World, x: nat, s: nat)
    requires g.Valid() && UnwantedDone(g, a, b, x) && Woken(g, a, s)
    ensures Woken(g, b, s)
  {
    hide Stops, Blocked;
    var w := if a.svc[x].requiredBy == 0 then
               With(a, x, a.svc[x].(prop := a.svc[x].prop.(release := true))).(prop := a.prop + {x})
             else a;
    RecordWoken(g, a, w, x, s);
    if b != a && b != w {
      StopWoken(g, w, b, x, false, s);
    }
  }

  lemma ServiceEventWoken(g: Graph, a: World, b: World, e: Event, s: nat)
    requires Kept(g, a) && !e.Attach? && !e.Process? && !e.StartIt? && e.x < |a.svc| && ServiceHandled(g, a, b, e) && Woken(g, a, s)
    ensures Woken(g, b, s)
  {
    hide Order, StartHandled, StopHandled, TerminationHandled, PinStartDone, UnpinHandled, UpDone, DownDone, FailDone, Needs, Blocked;
    GraphValid(g, a);
    match e
    case StopIt(x, bringDown) => StopItWoken(g, a, b, x, bringDown, s);
    case ForceIt(x) => RecordWoken(g, a, b, x, s);
    case RestartIt(x) =>
      if a.svc[x].state == Started {
        TerminationWoken(g, a, b, x, true, s);
      }
    case PinStarted(x) => PinStartWoken(g, a, b, x, s);
    case PinStopped(x) => RecordWoken(g, a, b, x, s);
    case UnpinIt(x) => UnpinWoken(g, a, b, x, s);
    case IsUp(x) =>
      if a.svc[x].state == Starting && !a.svc[x].waitingForDeps {
        UpWoken(g, a, b, x, s);
      }
    case IsDown(x) =>
      if a.svc[x].state == Stopping {
        DownWoken(g, a, b, x, s);
      }
    case NotUp(x, immediateStop) =>
      if a.svc[x].state == Starting && !a.svc[x].waitingForDeps {
        FailWoken(g, a, if immediateStop then a else Cancelled(a, x), b, x, immediateStop, s);
      }
    case Died(x) =>
      if a.svc[x].state == Started {
        TerminationWoken(g, a, b, x, false, s);
      }
  }
}
