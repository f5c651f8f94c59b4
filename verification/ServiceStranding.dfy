// Services that wait to stop and have been forgotten: exactly when, and that nothing else can happen to them.
module ServiceStranding {
  import opened ServiceRecords
  import opened ServiceBooks
  import opened ServiceStops
  import opened ServicePins
  import opened ServiceSteps
  import opened ServicePasses
  import opened ServiceUpkeep
  import opened ServiceSparing
  import opened ServiceHistories
  import opened ServiceWaking
  import opened ServiceAsking

  // s is blocked by a link other than those of x
  ghost predicate BlockedBut(g: Graph, w: World, s: nat, x: nat) {
    exists l: nat :: BlocksToo(g, w, s, x, l)
  }

  predicate BlocksToo(g: Graph, w: World, s: nat, x: nat, l: nat) {
    Blocks(g, w, s, l) && g.from[l] != x
  }

  // s waits to stop, is not queued, and at most x keeps it waiting
  ghost predicate Alone(g: Graph, w: World, s: nat, x: nat) {
    s < |w.svc| && WaitsToStop(w.svc[s]) && s !in w.trans && !BlockedBut(g, w, s, x)
  }

  // the links of services other than x that block s in a do so in b
  ghost predicate StillBlock(g: Graph, a: World, b: World, s: nat, x: nat) {
    forall l: nat :: BlocksToo(g, a, s, x, l) ==> BlocksToo(g, b, s, x, l)
  }

  // ... so that s is not forgotten, whatever x does
  lemma BackedStays(g: Graph, a: World, b: World, s: nat, x: nat)
    requires StillBlock(g, a, b, s, x) && a.trans <= b.trans && (s in a.trans || BlockedBut(g, a, s, x))
    ensures s in b.trans || BlockedBut(g, b, s, x)
  {
    hide BlocksToo;
  }

  lemma AloneStays(g: Graph, a: World, b: World, s: nat, x: nat)
    requires StillBlock(g, b, a, s, x) && Alone(g, a, s, x) && s < |b.svc| && WaitsToStop(b.svc[s]) && s !in b.trans
    ensures Alone(g, b, s, x)
  {
    hide BlocksToo;
  }

  // no dependent of s but x waits to start: none can come to block s by being stopped
  ghost predicate NoBystander(g: Graph, w: World, s: nat, x: nat) {
    forall l: nat :: !Bystands(g, w, s, x, l)
  }

  predicate Bystands(g: Graph, w: World, s: nat, x: nat, l: nat) {
    && l < |w.lnk| && l < |g.from| && l < |g.to| && l < |g.kind| && g.to[l] == s && g.from[l] < |w.svc| && g.IsHard(l, w.lnk[l])
    && g.from[l] != x && w.svc[g.from[l]].state == Starting && w.svc[g.from[l]].waitingForDeps
  }

  // ---- stops ----

  lemma StopOthers(g: Graph, a: World, b: World, y: nat, withRestart: bool, s: nat, x: nat)
    requires Stops(g, a, b, y, withRestart)
    ensures StillBlock(g, a, b, s, x) && a.trans <= b.trans
    ensures Alone(g, a, s, x) && NoBystander(g, a, s, x) ==> Alone(g, b, s, x)
    ensures NoBystander(g, a, s, x) ==> NoBystander(g, b, s, x)
  {
    hide StopDone;
    forall l: nat | BlocksToo(g, a, s, x, l) ensures BlocksToo(g, b, s, x, l) {
      StopBlocks(g, a, b, y, withRestart, s, l);
    }
    StopsTrans(g, a, b, y, withRestart, s);
    if NoBystander(g, a, s, x) {
      forall l: nat ensures !Bystands(g, b, s, x, l) && (BlocksToo(g, b, s, x, l) ==> BlocksToo(g, a, s, x, l)) {
        StopBystands(g, a, b, y, withRestart, s, x, l);
      }
      if Alone(g, a, s, x) {
        AloneStays(g, a, b, s, x);
      }
    }
  }

  lemma StopsTrans(g: Graph, a: World, b: World, y: nat, withRestart: bool, s: nat)
    requires Stops(g, a, b, y, withRestart)
    ensures a.trans <= b.trans && |a.svc| == |b.svc|
    ensures s < |a.svc| && a.svc[s].state == Stopping ==> b.svc[s].state == Stopping && (s in b.trans ==> s in a.trans)
    ensures s < |a.svc| && WaitsToStop(a.svc[s]) ==> WaitsToStop(b.svc[s])
  {
    var r :| StopDone(g, a, b, y, withRestart, r);
    if s < |a.svc| {
      StopAt(g, a, b, y, s);
    }
  }

  lemma StopBystands(g: Graph, a: World, b: World, y: nat, withRestart: bool, s: nat, x: nat, l: nat)
    requires Stops(g, a, b, y, withRestart)
    requires !Bystands(g, a, s, x, l)
    ensures !Bystands(g, b, s, x, l) && (BlocksToo(g, b, s, x, l) ==> BlocksToo(g, a, s, x, l))
  {
    var r :| StopDone(g, a, b, y, withRestart, r);
    if l < |b.lnk| && l < |g.from| && g.from[l] < |b.svc| {
      StopSizes(g, a, b, y);
      StopLinkAt(g, a, b, y, l);
      StopAt(g, a, b, y, g.from[l]);
      HardLink(g, a, b, y, l);
    }
  }

  lemma StopSizes(g: Graph, a: World, b: World, y: nat)
    requires StopRel(g, a, b, y)
    ensures |a.svc| == |b.svc| && |a.lnk| == |b.lnk|
  {
  }

  lemma HardLink(g: Graph, a: World, b: World, y: nat, l: nat)
    requires StopRel(g, a, b, y) && l < |a.lnk| && l < |g.kind|
    ensures l < |b.lnk| && (g.IsHard(l, a.lnk[l]) ==> b.lnk[l] == a.lnk[l])
  {
    hide KeepsReady, SvcStop, Told, LetGo;
  }

  // x's own record changes, and no one's links
  lemma RecordOthers(g: Graph, a: World, b: World, s: nat, x: nat)
    requires ButFor(a.svc, b.svc, x) && b.lnk == a.lnk && a.trans <= b.trans
    ensures StillBlock(g, a, b, s, x) && StillBlock(g, b, a, s, x)
    ensures NoBystander(g, a, s, x) ==> NoBystander(g, b, s, x)
    ensures Alone(g, a, s, x) && s != x && s !in b.trans ==> Alone(g, b, s, x)
  {
    forall l: nat ensures Bystands(g, b, s, x, l) ==> Bystands(g, a, s, x, l) {
    }
    if Alone(g, a, s, x) && s != x && s !in b.trans {
      AloneStays(g, a, b, s, x);
    }
  }

  // services are where they were, and links other than those of x are as they were
  lemma StandingOthers(g: Graph, a: World, b: World, s: nat, x: nat)
    requires |b.svc| == |a.svc| && |b.lnk| == |a.lnk| && a.trans <= b.trans && s < |a.svc|
    requires forall s {:trigger b.svc[s]} :: 0 <= s < |a.svc| ==> b.svc[s].state == a.svc[s].state && b.svc[s].waitingForDeps == a.svc[s].waitingForDeps
    requires forall l {:trigger b.lnk[l]} :: 0 <= l < |b.lnk| && l < |g.from| && g.from[l] != x ==> b.lnk[l] == a.lnk[l]
    ensures StillBlock(g, a, b, s, x) && StillBlock(g, b, a, s, x) && (NoBystander(g, a, s, x) ==> NoBystander(g, b, s, x))
    ensures Alone(g, a, s, x) && s !in b.trans ==> Alone(g, b, s, x)
  {
    forall l: nat
      ensures BlocksToo(g, a, s, x, l) <==> BlocksToo(g, b, s, x, l)
      ensures Bystands(g, b, s, x, l) ==> Bystands(g, a, s, x, l)
    {
      if l < |a.lnk| && l < |g.from| && g.from[l] != x && g.from[l] < |a.svc| {
        assert b.lnk[l] == a.lnk[l];
        assert b.svc[g.from[l]].state == a.svc[g.from[l]].state;
      }
    }
    if Alone(g, a, s, x) && s !in b.trans {
      AloneStays(g, a, b, s, x);
    }
  }

  lemma RequireOthers(g: Graph, a: World, b: World, x: nat, s: nat)
    requires g.Valid() && RequirePassed(g, a, b, x) && s < |a.svc|
    ensures StillBlock(g, a, b, s, x) && b.trans == a.trans && (NoBystander(g, a, s, x) ==> NoBystander(g, b, s, x))
    ensures Alone(g, a, s, x) ==> Alone(g, b, s, x)
  {
    hide AllRequired, AllAgain;
    RequireOwn(g, a, b, x);
    if a.svc[x].prop.require {
      var v :| RequireDone(g, a, v, x) && b == Acked(v, x, REQUIRE);
      forall l | 0 <= l < |b.lnk| && l < |g.from| && g.from[l] != x ensures b.lnk[l] == a.lnk[l] {
        assert v.lnk[l] == a.lnk[l].(holdingAcq := a.lnk[l].holdingAcq || Requires(g, x, l));
      }
    }
    StandingOthers(g, a, b, s, x);
  }

  // ---- releases ----

  lemma ReleasedOthers(g: Graph, a: World, b: World, l: nat, s: nat, x: nat)
    requires g.Valid() && LinkReleased(g, a, b, l) && g.from[l] == x && s < |a.svc|
    ensures StillBlock(g, a, b, s, x) && a.trans <= b.trans && s < |b.svc|
    ensures NoBystander(g, a, s, x) ==> NoBystander(g, b, s, x)
    ensures NoBystander(g, a, s, x) && Alone(g, a, s, x) ==> Alone(g, b, s, x)
  {
    hide Stops;
    if a.lnk[l].holdingAcq {
      var t := g.to[l];
      var u := GivenBack(Unhold(g, a, l), t);
      StandingOthers(g, a, u, s, x);
      if StopsWhenReleased(Unhold(g, a, l).svc[t]) {
        StopOthers(g, u, b, t, false, s, x);
        StopsTrans(g, u, b, t, false, s);
      }
    }
  }

  lemma {:induction false} AllReleasedOthers(g: Graph, trail: seq<World>, x: nat, n: nat, m: nat, s: nat)
    requires g.Valid() && AllReleased(g, trail, x, n) && AllInOrder(g, trail, x) && m <= n && s < |g.rank|
    ensures |trail| == n + 1 && s < |trail[m].svc| && StillBlock(g, trail[0], trail[m], s, x) && trail[0].trans <= trail[m].trans
    ensures NoBystander(g, trail[0], s, x) ==> NoBystander(g, trail[m], s, x)
    ensures NoBystander(g, trail[0], s, x) && Alone(g, trail[0], s, x) ==> Alone(g, trail[m], s, x)
  {
    hide LinkReleased, AllReleased, Order, NoBystander, Alone, BlocksToo;
    TrailAt(g, trail, x, n, m);
    if m > 0 {
      TrailAt(g, trail, x, n, m - 1);
      TrailStep(g, trail, x, n, m - 1);
      AllReleasedOthers(g, trail, x, n, m - 1, s);
      g.DependsOnAt(x, m - 1);
      ReleasedOthers(g, trail[m - 1], trail[m], g.dependsOn[x][m - 1], s, x);
    }
  }

  lemma ReleaseOthers(g: Graph, a: World, b: World, x: nat, s: nat)
    requires g.Valid() && ReleasePassed(g, a, b, x) && Shape(g, b) && s < |a.svc| && s != x
    ensures StillBlock(g, a, b, s, x) && a.trans <= b.trans
    ensures a.svc[x].prop.release && NoBystander(g, a, s, x) ==> NoBystander(g, b, s, x)
    ensures (Harmless(g, a, x) || NoBystander(g, a, s, x)) && Alone(g, a, s, x) ==> Alone(g, b, s, x)
  {
    hide AllReleased, AllInOrder, NoBystander, BlockedBut, Spares;
    if a.svc[x].prop.release {
      if Spares(g, a, x) {
        SparedPass(g, a, b, x);
        StandingOthers(g, a, b, s, x);
      }
      var trail :| ReleaseThrough(g, a, b, x, trail);
      var n := |g.dependsOn[x]|;
      AllReleasedOthers(g, trail, x, n, n, s);
      RecordOthers(g, trail[n], b, s, x);
    } else {
      RecordOthers(g, a, b, s, x);
    }
  }

  // ---- failing and starting ----

  lemma FailOthers(g: Graph, a: World, w: World, b: World, x: nat, immediateStop: bool, s: nat)
    requires g.Valid() && Shape(g, a) && FailDone(g, w, b, x, immediateStop) && s < |a.svc| && s != x
    requires ButFor(a.svc, w.svc, x) && x < |a.svc| && w.lnk == a.lnk && w.trans == a.trans
    ensures StillBlock(g, a, b, s, x) && a.trans <= b.trans && s < |b.svc|
    ensures !immediateStop && NoBystander(g, a, s, x) ==> NoBystander(g, b, s, x)
    ensures !immediateStop && Alone(g, a, s, x) ==> Alone(g, b, s, x)
  {
    hide AllFailed, AllWoken, JoinedAbove, LetGo, LnkStop, Given;
    forall t | 0 <= t < |a.svc| && t != x ensures OnlyFails(w.svc[t], b.svc[t]) {
    }
    forall l: nat
      ensures BlocksToo(g, a, s, x, l) <==> BlocksToo(g, b, s, x, l)
      ensures Bystands(g, b, s, x, l) ==> Bystands(g, a, s, x, l)
    {
      if l < |a.lnk| && g.to[l] == s {
        assert b.lnk[l] == a.lnk[l];
      }
    }
    if !immediateStop && Alone(g, a, s, x) {
      AloneStays(g, a, b, s, x);
    }
  }

  lemma InitiatedOthers(g: Graph, a: World, b: World, x: nat, s: nat)
    requires g.Valid() && Shape(g, a) && Initiated(g, a, b, x) && s < |a.svc| && s != x
    ensures StillBlock(g, a, b, s, x) && a.trans <= b.trans && s < |b.svc|
    ensures NoBystander(g, a, s, x) ==> NoBystander(g, b, s, x)
    ensures Alone(g, a, s, x) ==> Alone(g, b, s, x)
    ensures WaitsToStop(a.svc[s]) ==> !exists l: nat :: Blocks(g, b, s, l) && g.from[l] == x
  {
    forall l: nat
      ensures BlocksToo(g, a, s, x, l) <==> BlocksToo(g, b, s, x, l)
      ensures Bystands(g, b, s, x, l) ==> Bystands(g, a, s, x, l)
      ensures WaitsToStop(a.svc[s]) && l < |b.lnk| && g.from[l] == x ==> !Blocks(g, b, s, l)
    {
      if l < |a.lnk| {
        assert b.lnk[l].waitingOn == (a.lnk[l].waitingOn || MustWaitFor(g, b.svc, x, l) || HeldUpBy(g, b.svc, x, l));
      }
    }
    if Alone(g, a, s, x) {
      AloneStays(g, a, b, s, x);
    }
  }

  lemma RevivedOthers(g: Graph, a: World, b: World, x: nat, s: nat)
    requires Revived(g, a, b, x) && s < |a.svc| && s != x && g.Valid() && Shape(g, a)
    ensures StillBlock(g, a, b, s, x) && a.trans <= b.trans && Shape(g, b) && s < |b.svc|
    ensures NoBystander(g, a, s, x) ==> NoBystander(g, b, s, x)
    ensures Alone(g, a, s, x) ==> Alone(g, b, s, x)
    ensures WaitsToStop(a.svc[s]) == WaitsToStop(b.svc[s])
  {
    hide Reattaches;
    forall l: nat
      ensures BlocksToo(g, a, s, x, l) <==> BlocksToo(g, b, s, x, l)
      ensures Bystands(g, b, s, x, l) ==> Bystands(g, a, s, x, l)
    {
      if l < |a.lnk| {
        NotReattached(g, a, x, l);
        assert b.lnk[l] == a.lnk[l].(holdingAcq := a.lnk[l].holdingAcq || Reattaches(g, a.svc, a.lnk, x, l));
      }
    }
    if Alone(g, a, s, x) {
      AloneStays(g, a, b, s, x);
    }
  }

  lemma NotReattached(g: Graph, w: World, x: nat, l: nat)
    ensures Reattaches(g, w.svc, w.lnk, x, l) ==> l < |g.to| && g.to[l] == x
  {
  }

  lemma StartOthers(g: Graph, a: World, b: World, x: nat, s: nat)
    requires g.Valid() && Shape(g, a) && StartDone(g, a, b, x) && s < |a.svc| && s != x
    ensures StillBlock(g, a, b, s, x) && a.trans <= b.trans && x < |b.svc| && s < |b.svc|
    ensures NoBystander(g, a, s, x) ==> NoBystander(g, b, s, x)
    ensures Alone(g, a, s, x) ==> Alone(g, b, s, x)
    ensures CarriedOut(a.svc[x]) && WaitsToStop(a.svc[s]) ==> !exists l: nat :: Blocks(g, b, s, l) && g.from[l] == x
    ensures CarriedOut(a.svc[x]) ==> b.svc[x].state == Starting && b.svc[x].waitingForDeps
    ensures b.svc[x].prop.stop == a.svc[x].prop.stop
    ensures CarriedOut(a.svc[x]) ==> b.svc[x].pins == a.svc[x].pins
  {
    hide FailDone, Revived, Initiated, Blocks, BlockedBut, NoBystander;
    var w := With(a, x, Wanted(a.svc[x]));
    RecordOthers(g, a, w, s, x);
    if a.svc[x].state == Stopped && a.svc[x].pins.stopped {
      FailOthers(g, w, w, b, x, false, s);
      FailedStop(g, w, b, x, false);
    } else if a.svc[x].state == Stopped {
      var v :| Revived(g, w, v, x) && Initiated(g, v, b, x);
      RevivedOthers(g, w, v, x, s);
      InitiatedOthers(g, v, b, x, s);
      StartedRecord(g, w, v, b, x);
    } else if !CannotStartYet(a.svc[x]) {
      InitiatedOthers(g, w, b, x, s);
      InitiatedRecord(g, w, b, x);
    }
  }

  lemma FailedStop(g: Graph, a: World, b: World, x: nat, immediateStop: bool)
    requires FailDone(g, a, b, x, immediateStop)
    ensures x < |b.svc| && b.svc[x].prop.stop == a.svc[x].prop.stop
  {
  }

  lemma StartedRecord(g: Graph, a: World, v: World, b: World, x: nat)
    requires Revived(g, a, v, x) && Initiated(g, v, b, x)
    ensures x < |b.svc| && b.svc[x].state == Starting && b.svc[x].waitingForDeps && b.svc[x].prop.stop == a.svc[x].prop.stop && b.svc[x].pins == a.svc[x].pins
  {
  }

  lemma InitiatedRecord(g: Graph, a: World, b: World, x: nat)
    requires Initiated(g, a, b, x)
    ensures x < |b.svc| && b.svc[x].state == Starting && b.svc[x].waitingForDeps && b.svc[x].prop.stop == a.svc[x].prop.stop && b.svc[x].pins == a.svc[x].pins
  {
  }

  // ---- the other passes ----

  lemma FailurePassOthers(g: Graph, a: World, b: World, x: nat, s: nat)
    requires g.Valid() && FailurePassed(g, a, b, x) && s < |a.svc| && s != x
    ensures StillBlock(g, a, b, s, x) && a.trans <= b.trans && s < |b.svc|
    ensures !a.svc[x].prop.failure && NoBystander(g, a, s, x) ==> NoBystander(g, b, s, x)
    ensures !a.svc[x].prop.failure && Alone(g, a, s, x) ==> Alone(g, b, s, x)
    ensures a.svc[x].prop.failure && Needs(g, x, s) && WaitsToStop(b.svc[s]) ==> s in b.trans
  {
    hide FailDone, NoBystander, BlockedBut;
    if a.svc[x].prop.failure {
      FailOthers(g, a, Fallen(a, x), b, x, true, s);
      if l: nat :| NeedsBy(g, x, s, l) {
        FailureWakes(g, Fallen(a, x), b, x, s, l);
      }
    } else {
      RecordOthers(g, a, b, s, x);
    }
  }

  lemma FailureWakes(g: Graph, a: World, b: World, x: nat, s: nat, l: nat)
    requires g.Valid() && FailDone(g, a, b, x, true) && NeedsBy(g, x, s, l) && s < |b.svc|
    ensures WaitsToStop(b.svc[s]) ==> s in b.trans
  {
    hide AllFailed, JoinedAbove, LetGo, AllWoken;
    if WaitsToStop(b.svc[s]) {
      TargetWoken(g, b, x, s, l);
    }
  }

  lemma StartPassOthers(g: Graph, a: World, b: World, x: nat, s: nat)
    requires g.Valid() && StartPassed(g, a, b, x) && s < |a.svc| && s != x
    ensures StillBlock(g, a, b, s, x) && a.trans <= b.trans && x < |b.svc| && s < |b.svc|
    ensures NoBystander(g, a, s, x) ==> NoBystander(g, b, s, x)
    ensures Alone(g, a, s, x) ==> Alone(g, b, s, x)
    ensures b.svc[x].prop.stop == a.svc[x].prop.stop
    ensures a.svc[x].prop.start && CarriedOut(a.svc[x]) ==>
              && b.svc[x].state == Starting && b.svc[x].waitingForDeps && b.svc[x].pins == a.svc[x].pins
              && (WaitsToStop(a.svc[s]) ==> !exists l: nat :: Blocks(g, b, s, l) && g.from[l] == x)
    ensures !a.svc[x].prop.start ==> b.svc[x] == a.svc[x].(prop := b.svc[x].prop) && b.lnk == a.lnk
  {
    hide StartDone, NoBystander, BlockedBut, Blocks;
    var w := Acked(a, x, START);
    RecordOthers(g, a, w, s, x);
    if a.svc[x].prop.start {
      StartOthers(g, w, b, x, s);
    }
  }

  lemma StopPassOthers(g: Graph, a: World, b: World, x: nat, s: nat)
    requires StopPassed(g, a, b, x) && s < |a.svc| && s != x
    ensures StillBlock(g, a, b, s, x) && a.trans <= b.trans && x < |b.svc| && s < |b.svc|
    ensures (a.svc[x].prop.stop && !a.svc[x].IsStartPinned() ==> NoBystander(g, a, s, x)) && Alone(g, a, s, x) ==> Alone(g, b, s, x)
    ensures !a.svc[x].prop.stop || a.svc[x].IsStartPinned() ==> b.svc[x] == a.svc[x].(prop := b.svc[x].prop) && b.lnk == a.lnk
  {
    hide NoBystander, BlockedBut, StopRel;
    var w := Acked(a, x, STOP);
    RecordOthers(g, a, w, s, x);
    if a.svc[x].prop.stop {
      StopOthers(g, w, b, x, a.svc[x].inUserRestart, s, x);
      StopsTrans(g, w, b, x, a.svc[x].inUserRestart, s);
    }
  }

  lemma PinPassOthers(g: Graph, a: World, b: World, x: nat, s: nat)
    requires g.Valid() && PinPassed(g, a, b, x) && s < |a.svc| && s != x
    ensures StillBlock(g, a, b, s, x) && a.trans <= b.trans && |b.svc| == |a.svc|
    ensures a.svc[x].state != Started && Alone(g, a, s, x) ==> Alone(g, b, s, x)
    ensures a.svc[x].state != Started ==>
              x < |b.svc| && b.svc[x].state == a.svc[x].state && b.svc[x].waitingForDeps == a.svc[x].waitingForDeps && b.lnk == a.lnk
  {
    hide Stops, PinTold, NoBystander, BlockedBut;
    var dept := DependentPinned(g, a.svc, a.lnk, x);
    if a.svc[x].prop.pinDpt && dept != a.svc[x].pins.dept {
      var w := Repinned(a, x, a.svc[x].pins.(dept := dept));
      var v :| PinTold(g, w, v, x, dept) && StopIfDue(g, v, b, x);
      RecordOthers(g, a, w, s, x);
      ToldShape(g, w, v, x, dept);
      ToldKeeps(g, w, v, x, dept);
      ToldTrans(g, w, v, x, dept);
      StandingOthers(g, w, v, s, x);
      if b != v {
        StopOthers(g, v, b, x, false, s, x);
        StopsTrans(g, v, b, x, false, s);
      }
    }
  }

  lemma ToldTrans(g: Graph, a: World, b: World, x: nat, d: bool)
    requires PinTold(g, a, b, x, d)
    ensures b.trans == a.trans
  {
  }

  // ---- whole passes ----

  // x, by what it passes on, lets s down: it is all that s waits for, and it either starts, or, being down, lets go of s
  ghost predicate LetsDown(g: Graph, w: World, x: nat, s: nat) {
    && x < |w.svc| && s != x && Alone(g, w, s, x) && !w.svc[x].prop.failure
    && if w.svc[x].prop.start && CarriedOut(w.svc[x]) then !w.svc[x].prop.stop || w.svc[x].IsStartPinned()
       else w.svc[x].prop.release && StaysDown(w.svc[x])
  }

  // x has stopped, or waits to start and is not about to stop
  predicate StaysDown(s: Service) {
    s.state == Stopped || (s.state == Starting && s.waitingForDeps && (!s.prop.stop || s.IsStartPinned()))
  }

  // nothing that x's pass brings down makes a difference to x, or to s
  ghost predicate Foreseeable(g: Graph, w: World, x: nat, s: nat) {
    && (Harmless(g, w, x) || (x < |w.svc| && w.svc[x].state == Stopped && NoBystander(g, w, s, x)))
    && (x < |w.svc| && w.svc[x].prop.release && w.svc[x].prop.stop ==> NoBystander(g, w, s, x))
  }

  // ... or may do so: it brings down services that it releases, or dependents of its own, and whether these bring down in turn
  // x itself, or another dependent of s that waits to start, decides
  ghost predicate InDoubt(g: Graph, w: World, x: nat, s: nat) {
    && x < |w.svc| && s < |w.svc| && s != x && Needs(g, x, s) && s !in w.trans && !BlockedBut(g, w, s, x)
    && w.svc[x].prop.release && !w.svc[x].prop.failure
    && (w.svc[x].prop.start || (WaitsToStop(w.svc[s]) && w.svc[x].IsFundamentallyStopped()))
    && !Foreseeable(g, w, x, s)
  }

  // the worlds of a pass
  ghost predicate PassOf(g: Graph, a: World, b: World, x: nat, t: seq<World>) {
    && Kept(g, a) && g.Valid() && x < |a.svc| && |t| == 6 && t[0] == TakenUp(a, x)
    && (forall i :: 0 <= i < 6 ==> Shape(g, t[i]) && Order(g, t[i]) && |t[i].svc| == |a.svc|)
    && RequirePassed(g, t[0], t[1], x) && ReleasePassed(g, t[1], t[2], x) && FailurePassed(g, t[2], t[3], x)
    && StartPassed(g, t[3], t[4], x) && StopPassed(g, t[4], t[5], x) && PinPassed(g, t[5], b, x)
  }

  lemma PassesOf(g: Graph, a: World, b: World, x: nat, trail: seq<World>)
    requires Kept(g, a) && x < |a.svc| && Passes(g, trail, x) && trail[0] == TakenUp(a, x) && trail[6] == b
    ensures |trail| == 7 && PassOf(g, a, b, x, trail[..6])
  {
    hide Order, RequirePassed, ReleasePassed, FailurePassed, StartPassed, StopPassed, PinPassed;
    GraphValid(g, a);
    PassShapes(g, trail, x);
    assert forall i :: 0 <= i < 6 ==> trail[..6][i] == trail[i];
  }

  lemma OthersUntilRelease(g: Graph, a: World, b: World, x: nat, t: seq<World>, s: nat)
    requires PassOf(g, a, b, x, t) && s < |a.svc| && s != x
    ensures StillBlock(g, a, t[2], s, x) && a.trans <= t[2].trans
    ensures a.svc[x].prop.release && NoBystander(g, a, s, x) ==> NoBystander(g, t[2], s, x)
    ensures (Harmless(g, a, x) || NoBystander(g, a, s, x)) && Alone(g, a, s, x) ==> Alone(g, t[2], s, x)
  {
    hide Order, RequirePassed, ReleasePassed, FailurePassed, StartPassed, StopPassed, PinPassed, NoBystander, BlockedBut, BlocksToo, Harmless;
    if Harmless(g, a, x) {
      HarmlessStill(g, a, t[1], x);
    }
    RecordOthers(g, a, t[0], s, x);
    RequireOwn(g, t[0], t[1], x);
    RequireOthers(g, t[0], t[1], x, s);
    ReleaseOthers(g, t[1], t[2], x, s);
  }

  // whatever x does, s is not forgotten if it is queued, or blocked by others
  lemma BackedFrom(g: Graph, a: World, b: World, x: nat, t: seq<World>, s: nat, k: nat)
    requires PassOf(g, a, b, x, t) && s < |a.svc| && s != x && 2 <= k <= 3 && (s in t[k].trans || BlockedBut(g, t[k], s, x)) && s < |b.svc|
    ensures Woken(g, b, s)
  {
    hide Order, RequirePassed, ReleasePassed, FailurePassed, StartPassed, StopPassed, PinPassed, NoBystander, BlockedBut, Alone, StillBlock;
    if k == 2 {
      FailurePassOthers(g, t[2], t[3], x, s);
      BackedStays(g, t[2], t[3], s, x);
    }
    StartPassOthers(g, t[3], t[4], x, s);
    BackedStays(g, t[3], t[4], s, x);
    StopPassOthers(g, t[4], t[5], x, s);
    BackedStays(g, t[4], t[5], s, x);
    PinPassOthers(g, t[5], b, x, s);
    BackedStays(g, t[5], b, s, x);
    BackedIsWoken(g, b, s, x);
  }

  lemma BackedIsWoken(g: Graph, w: World, s: nat, x: nat)
    requires s < |w.svc| && (s in w.trans || BlockedBut(g, w, s, x))
    ensures Woken(g, w, s)
  {
    hide Blocks;
    if s !in w.trans {
      var l: nat :| BlocksToo(g, w, s, x, l);
      assert Blocks(g, w, s, l);
    }
  }

  lemma BackedPass(g: Graph, a: World, b: World, x: nat, t: seq<World>, s: nat)
    requires PassOf(g, a, b, x, t) && s < |a.svc| && s != x && (s in a.trans || BlockedBut(g, a, s, x)) && s < |b.svc|
    ensures Woken(g, b, s)
  {
    hide Order, RequirePassed, ReleasePassed, FailurePassed, StartPassed, StopPassed, PinPassed, NoBystander, BlockedBut, Alone, StillBlock;
    OthersUntilRelease(g, a, b, x, t, s);
    BackedStays(g, a, t[2], s, x);
    BackedFrom(g, a, b, x, t, s, 2);
  }

  // the end of a pass, from the start message on, if s does not wait, or x's start is not carried out
  lemma WokenFrom(g: Graph, a: World, b: World, x: nat, t: seq<World>, s: nat)
    requires PassOf(g, a, b, x, t) && Woken(g, t[3], s) && (WaitsToStop(t[3].svc[s]) && Needs(g, x, s) && t[3].svc[x].prop.start ==> !CarriedOut(t[3].svc[x]))
    ensures Woken(g, b, s)
  {
    hide Order, RequirePassed, ReleasePassed, FailurePassed, StartPassed, StopPassed, PinPassed, Blocked, Needs;
    StartPassWoken(g, t[3], t[4], x, s);
    StopPassWoken(g, t[4], t[5], x, s);
    PinPassWoken(g, t[5], b, x, s);
  }

  // a service that fails wakes those that wait for it to stop
  lemma FailureStrandsNone(g: Graph, a: World, b: World, x: nat, t: seq<World>, s: nat)
    requires PassOf(g, a, b, x, t) && s < |a.svc| && s != x && Needs(g, x, s) && t[2].svc[x].prop.failure && s < |b.svc|
    ensures Woken(g, b, s)
  {
    hide Order, RequirePassed, ReleasePassed, FailurePassed, StartPassed, StopPassed, PinPassed, Blocked, Needs, NoBystander, Alone, StillBlock, BlockedBut;
    FailurePassOthers(g, t[2], t[3], x, s);
    if WaitsToStop(t[3].svc[s]) {
      BackedFrom(g, a, b, x, t, s, 3);
    } else {
      WokenFrom(g, a, b, x, t, s);
    }
  }

  // what matters of x when it comes to its start message
  predicate SameStart(a: Service, b: Service) {
    && b.state == a.state && b.waitingForDeps == a.waitingForDeps && b.forceStop == a.forceStop && b.pins == a.pins
    && b.prop.start == a.prop.start && b.prop.stop == a.prop.stop
  }

  lemma ReachesStartAsWas(g: Graph, a: World, b: World, x: nat, t: seq<World>)
    requires PassOf(g, a, b, x, t) && (Harmless(g, a, x) || a.svc[x].state == Stopped)
    ensures t[2].svc[x].prop.failure == a.svc[x].prop.failure && t[1].svc[x].state == a.svc[x].state
    ensures t[1].svc[x].prop.release == a.svc[x].prop.release && SameStart(a.svc[x], t[2].svc[x])
    ensures !a.svc[x].prop.failure ==> SameStart(a.svc[x], t[3].svc[x]) && t[3].lnk == t[2].lnk
  {
    hide Order, RequirePassed, ReleasePassed, FailurePassed, StartPassed, StopPassed, PinPassed, Shape, SameStanding, SameStart, Cleared, Harmless;
    if Harmless(g, a, x) {
      HarmlessStill(g, a, t[1], x);
    }
    RequireOwn(g, t[0], t[1], x);
    RecordsSame(a.svc[x], t[1].svc[x], t[2].svc[x], t[3].svc[x]);
    ReleaseStopped(g, t[1], t[2], x);
    if !a.svc[x].prop.failure {
      NotFailing(g, t[2], t[3], x);
    }
  }

  lemma RecordsSame(a: Service, b: Service, c: Service, d: Service)
    requires b == a.(prop := Cleared(a.prop, REQUIRE))
    ensures b.state == a.state && b.prop.release == a.prop.release
    ensures c == b.(desired := c.desired, prop := Cleared(b.prop, RELEASE)) ==> c.prop.failure == a.prop.failure && SameStart(a, c)
    ensures c == b.(desired := c.desired, prop := Cleared(b.prop, RELEASE)) && d == c.(prop := Cleared(c.prop, FAILURE)) ==> SameStart(a, d)
  {
  }

  lemma NotFailing(g: Graph, a: World, b: World, x: nat)
    requires FailurePassed(g, a, b, x) && !a.svc[x].prop.failure
    ensures x < |b.svc| && b.svc[x] == a.svc[x].(prop := Cleared(a.svc[x].prop, FAILURE)) && b.lnk == a.lnk
  {
  }

  lemma ReleaseStopped(g: Graph, a: World, b: World, x: nat)
    requires g.Valid() && ReleasePassed(g, a, b, x) && (Harmless(g, a, x) || a.svc[x].state == Stopped)
    ensures x < |b.svc| && b.svc[x] == a.svc[x].(desired := b.svc[x].desired, prop := Cleared(a.svc[x].prop, RELEASE))
    ensures a.svc[x].prop.release ==> forall l: nat :: l < |b.lnk| && l < |g.from| && g.from[l] == x ==> !b.lnk[l].holdingAcq
  {
    hide AllReleased, AllInOrder, Spares;
    if a.svc[x].prop.release {
      if Spares(g, a, x) {
        SparedPass(g, a, b, x);
      }
      var trail :| ReleaseThrough(g, a, b, x, trail);
      AllReleasedAside(g, trail, x, |g.dependsOn[x]|, |g.dependsOn[x]|, x);
      forall l: nat | l < |b.lnk| && l < |g.from| && g.from[l] == x ensures !b.lnk[l].holdingAcq {
        assert l in g.dependsOn[x];
        var i :| 0 <= i < |g.dependsOn[x]| && g.dependsOn[x][i] == l;
        assert g.dependsOn[x][i] < |b.lnk| && !b.lnk[g.dependsOn[x][i]].holdingAcq;
      }
    }
  }

  // x blocks s
  ghost predicate BlocksItself(g: Graph, w: World, x: nat, s: nat) {
    exists l: nat :: BlocksOwn(g, w, x, s, l)
  }

  predicate BlocksOwn(g: Graph, w: World, x: nat, s: nat, l: nat) {
    Blocks(g, w, s, l) && g.from[l] == x
  }

  lemma AloneIsStranded(g: Graph, w: World, x: nat, s: nat)
    requires s < |w.svc| && Alone(g, w, s, x)
    ensures Woken(g, w, s) <==> BlocksItself(g, w, x, s)
  {
    hide Blocks;
    if l: nat :| Blocks(g, w, s, l) {
      assert BlocksToo(g, w, s, x, l) || BlocksOwn(g, w, x, s, l);
    }
    if l: nat :| BlocksOwn(g, w, x, s, l) {
      assert Blocks(g, w, s, l);
    }
  }

  // x starts, and goes on doing so: s is stranded
  lemma StartedStrands(g: Graph, a: World, b: World, x: nat, t: seq<World>, s: nat)
    requires PassOf(g, a, b, x, t) && s < |a.svc| && s != x && Alone(g, t[3], s, x) && s < |b.svc|
    requires t[3].svc[x].prop.start && CarriedOut(t[3].svc[x]) && (!t[3].svc[x].prop.stop || t[3].svc[x].IsStartPinned())
    ensures !Woken(g, b, s)
  {
    hide Order, RequirePassed, ReleasePassed, FailurePassed, StartPassed, StopPassed, PinPassed, NoBystander, BlockedBut, Blocks, CarriedOut;
    StartPassOthers(g, t[3], t[4], x, s);
    StopPassOthers(g, t[4], t[5], x, s);
    PinPassOthers(g, t[5], b, x, s);
    forall l: nat ensures !BlocksOwn(g, b, x, s, l) {
      SameBlock(g, t[4], b, x, s, l);
    }
    AloneIsStranded(g, b, x, s);
  }

  lemma SameBlock(g: Graph, a: World, b: World, x: nat, s: nat, l: nat)
    requires b.lnk == a.lnk && x < |a.svc| == |b.svc| && b.svc[x].state == a.svc[x].state && b.svc[x].waitingForDeps == a.svc[x].waitingForDeps
    ensures BlocksOwn(g, b, x, s, l) <==> BlocksOwn(g, a, x, s, l)
  {
  }

  // x, which is down, lets go of s
  ghost predicate LetsGo(g: Graph, w: World, x: nat, s: nat) {
    && x < |w.svc| && w.svc[x].IsFundamentallyStopped()
    && forall l: nat :: l < |w.lnk| && l < |g.from| && l < |g.to| && g.from[l] == x && g.to[l] == s ==> !w.lnk[l].holdingAcq
  }

  lemma LetsGoNotBlocks(g: Graph, w: World, x: nat, s: nat)
    requires LetsGo(g, w, x, s)
    ensures !BlocksItself(g, w, x, s)
  {
  }

  lemma StartLetsGo(g: Graph, a: World, b: World, x: nat, s: nat)
    requires StartPassed(g, a, b, x) && LetsGo(g, a, x, s) && s != x && (a.svc[x].prop.start ==> !CarriedOut(a.svc[x]))
    ensures LetsGo(g, b, x, s)
  {
    hide AllFailed, JoinedAbove, LetGo, Given;
    if a.svc[x].prop.start {
      forall l: nat | l < |b.lnk| && l < |g.from| && l < |g.to| && g.from[l] == x && g.to[l] == s ensures !b.lnk[l].holdingAcq {
        assert b.lnk[l] == a.lnk[l];
      }
    }
  }

  lemma StartStaysDown(g: Graph, a: World, b: World, x: nat)
    requires StartPassed(g, a, b, x) && StaysDown(a.svc[x]) && (a.svc[x].prop.start ==> !CarriedOut(a.svc[x]))
    ensures x < |b.svc| && StaysDown(b.svc[x])
    ensures a.svc[x].state == Starting ==> b.svc[x].state == Starting && b.svc[x].waitingForDeps && b.svc[x].pins == a.svc[x].pins && b.lnk == a.lnk
  {
    hide AllFailed, JoinedAbove, LetGo, Given, OnlyInto, AllFail;
  }

  lemma StopLetsGo(g: Graph, a: World, b: World, x: nat, s: nat)
    requires StopPassed(g, a, b, x) && LetsGo(g, a, x, s) && StaysDown(a.svc[x])
    ensures LetsGo(g, b, x, s)
  {
    if a.svc[x].prop.stop {
      var w, r := Acked(a, x, STOP), a.svc[x].inUserRestart;
      var q :| StopDone(g, w, b, x, r, q);
      StopSizes(g, w, b, x);
      StopAt(g, w, b, x, x);
      forall l: nat | l < |b.lnk| && l < |g.from| && l < |g.to| && g.from[l] == x && g.to[l] == s ensures !b.lnk[l].holdingAcq {
        StopLinkAt(g, w, b, x, l);
      }
    }
  }

  lemma ReleasedStrands(g: Graph, a: World, b: World, x: nat, t: seq<World>, s: nat)
    requires PassOf(g, a, b, x, t) && s < |a.svc| && s != x && Alone(g, t[3], s, x) && s < |b.svc|
    requires t[3].svc[x].prop.stop ==> NoBystander(g, t[3], s, x)
    requires LetsGo(g, t[3], x, s) && StaysDown(t[3].svc[x]) && (t[3].svc[x].prop.start ==> !CarriedOut(t[3].svc[x]))
    ensures !Woken(g, b, s)
  {
    hide Order, RequirePassed, ReleasePassed, FailurePassed, StartPassed, StopPassed, PinPassed, NoBystander, BlockedBut, CarriedOut;
    StartPassOthers(g, t[3], t[4], x, s);
    StartLetsGo(g, t[3], t[4], x, s);
    StartStaysDown(g, t[3], t[4], x);
    StopPassOthers(g, t[4], t[5], x, s);
    StopLetsGo(g, t[4], t[5], x, s);
    PinPassOthers(g, t[5], b, x, s);
    assert LetsGo(g, b, x, s);
    LetsGoNotBlocks(g, b, x, s);
    AloneIsStranded(g, b, x, s);
  }

  // x waits to start, and is to stop in the same pass: s waits for it as before
  lemma StopsAgain(g: Graph, a: World, b: World, x: nat, t: seq<World>, s: nat, l: nat)
    requires PassOf(g, a, b, x, t) && s < |a.svc| && s != x && NeedsBy(g, x, s, l) && l < |t[4].lnk| && g.IsHard(l, t[4].lnk[l]) && s < |b.svc|
    requires t[4].svc[x].state == Starting && t[4].svc[x].waitingForDeps && t[4].svc[x].prop.stop && !t[4].svc[x].IsStartPinned()
    ensures Woken(g, b, s)
  {
    hide Order, RequirePassed, ReleasePassed, FailurePassed, StartPassed, StopPassed, PinPassed, NoBystander, BlockedBut, CarriedOut, Alone;
    StopComesDown(g, t[4], t[5], x, l);
    assert Blocks(g, t[5], s, l);
    PinPassWoken(g, t[5], b, x, s);
  }

  lemma StartHard(g: Graph, a: World, b: World, x: nat, l: nat)
    requires StartPassed(g, a, b, x) && a.svc[x].prop.start && CarriedOut(a.svc[x]) && l < |a.lnk| && l < |g.kind| && g.IsHard(l, a.lnk[l])
    ensures |b.lnk| == |a.lnk| && g.IsHard(l, b.lnk[l])
  {
    hide MustWaitFor, HeldUpBy, Reattaches;
    var w := With(Acked(a, x, START), x, Wanted(Acked(a, x, START).svc[x]));
    if a.svc[x].state == Stopped {
      var v :| Revived(g, w, v, x) && Initiated(g, v, b, x);
      assert v.lnk[l].waitingOn == a.lnk[l].waitingOn;
      assert b.lnk[l].waitingOn || !v.lnk[l].waitingOn;
    } else {
      assert b.lnk[l].waitingOn || !a.lnk[l].waitingOn;
    }
  }

  lemma StopComesDown(g: Graph, a: World, b: World, x: nat, l: nat)
    requires StopPassed(g, a, b, x) && a.svc[x].prop.stop && !a.svc[x].IsStartPinned()
    requires a.svc[x].state == Starting && a.svc[x].waitingForDeps && l < |a.lnk| && l < |g.kind| && g.IsHard(l, a.lnk[l])
    ensures |b.lnk| == |a.lnk| && |b.svc| == |a.svc| && g.IsHard(l, b.lnk[l]) && b.svc[x].state == Stopping
  {
    var w, r := Acked(a, x, STOP), a.svc[x].inUserRestart;
    var q :| StopDone(g, w, b, x, r, q);
    StopSizes(g, w, b, x);
    StopLinkAt(g, w, b, x, l);
  }

  lemma ReleaseWaits(g: Graph, a: World, b: World, x: nat, s: nat)
    requires g.Valid() && ReleasePassed(g, a, b, x) && Harmless(g, a, x) && s < |a.svc|
    ensures s < |b.svc| && (WaitsToStop(b.svc[s]) <==> WaitsToStop(a.svc[s]))
  {
    hide AllReleased, AllInOrder, Spares;
    if a.svc[x].prop.release {
      SparedPass(g, a, b, x);
    }
  }

  // a service that comes to wait in a pass of one that has stopped waits for another
  lemma NewlyWaits(g: Graph, a: World, b: World, x: nat, t: seq<World>, s: nat)
    requires PassOf(g, a, b, x, t) && s < |a.svc| && s != x && (Harmless(g, a, x) || a.svc[x].state == Stopped) && !WaitsToStop(a.svc[s]) && s < |b.svc|
    ensures Woken(g, b, s)
  {
    hide Order, RequirePassed, ReleasePassed, FailurePassed, StartPassed, StopPassed, PinPassed, Alone, NoBystander, BlockedBut, HeldBack, Harmless;
    RequireOwn(g, t[0], t[1], x);
    if Harmless(g, a, x) {
      HarmlessStill(g, a, t[1], x);
      ReleaseWaits(g, t[1], t[2], x, s);
    }
    ReleaseFirst(g, t[1], t[2], x, s);
    ReleaseStopped(g, t[1], t[2], x);
    if WaitsToStop(t[2].svc[s]) {
      FirstIsBacked(g, t[2], s, x);
      BackedFrom(g, a, b, x, t, s, 2);
    } else {
      FailurePassWoken(g, t[2], t[3], x, s);
      WokenFrom(g, a, b, x, t, s);
    }
  }

  lemma ReleaseFirst(g: Graph, a: World, b: World, x: nat, s: nat)
    requires g.Valid() && ReleasePassed(g, a, b, x) && s < |a.svc| && s != x && Shape(g, b) && !WaitsToStop(a.svc[s])
    ensures WokenFirst(g, b, s)
  {
    hide AllReleased, AllInOrder, HeldBack;
    if a.svc[x].prop.release {
      var trail :| ReleaseThrough(g, a, b, x, trail);
      var n := |g.dependsOn[x]|;
      ThroughLength(g, a, b, x, trail);
      AllReleasedWoken(g, trail, x, n, n, s);
      HeldBackOwn(g, trail[n], b, x, s);
    }
  }

  // x's own messages make no difference
  lemma HeldBackOwn(g: Graph, a: World, b: World, x: nat, s: nat)
    requires x < |a.svc| && b.lnk == a.lnk && ButFor(a.svc, b.svc, x) && b.svc[x] == a.svc[x].(prop := b.svc[x].prop)
    ensures HeldBack(g, a, s) ==> HeldBack(g, b, s)
  {
    if l: nat :| HeldBackBy(g, a, s, l) {
      assert HeldBackBy(g, b, s, l);
    }
  }

  lemma FirstIsBacked(g: Graph, w: World, s: nat, x: nat)
    requires WokenFirst(g, w, s) && WaitsToStop(w.svc[s]) && x < |w.svc| && w.svc[x].state == Stopped
    ensures s in w.trans || BlockedBut(g, w, s, x)
  {
    if l: nat :| HeldBackBy(g, w, s, l) {
      assert BlocksToo(g, w, s, x, l);
    }
  }

  // A pass strands a service exactly if it lets it down, or may do so and does
  lemma PassStrands(g: Graph, a: World, b: World, x: nat, trail: seq<World>, s: nat)
    requires Kept(g, a) && x < |a.svc| && Passes(g, trail, x) && trail[0] == TakenUp(a, x) && trail[6] == b && Woken(g, a, s) && s < |b.svc|
    ensures !Woken(g, b, s) ==> LetsDown(g, a, x, s) || InDoubt(g, a, x, s)
    ensures LetsDown(g, a, x, s) && !InDoubt(g, a, x, s) ==> !Woken(g, b, s)
  {
    hide Order, Passes, PassOf, Woken, LetsDown, InDoubt;
    PassesOf(g, a, b, x, trail);
    if !Woken(g, b, s) {
      PassWoken(g, a, b, x, trail, s);
      MustLetDown(g, a, b, x, trail[..6], s);
    }
    if LetsDown(g, a, x, s) && !InDoubt(g, a, x, s) {
      DoesLetDown(g, a, b, x, trail[..6], s);
    }
  }

  lemma MustLetDown(g: Graph, a: World, b: World, x: nat, t: seq<World>, s: nat)
    requires PassOf(g, a, b, x, t) && Woken(g, a, s) && s < |b.svc| && !Woken(g, b, s) && Forgets(g, a, x, s)
    ensures LetsDown(g, a, x, s) || InDoubt(g, a, x, s)
  {
    hide Order, RequirePassed, ReleasePassed, FailurePassed, StartPassed, StopPassed, PinPassed, NoBystander, BlockedBut, Blocked, CarriedOut, Needs;
    NotItself(g, x, s);
    if s in a.trans || BlockedBut(g, a, s, x) {
      BackedPass(g, a, b, x, t, s);
    }
    if Harmless(g, a, x) || a.svc[x].state == Stopped {
      ReachesStartAsWas(g, a, b, x, t);
      if a.svc[x].prop.failure {
        FailureStrandsNone(g, a, b, x, t, s);
      }
      if !WaitsToStop(a.svc[s]) {
        NewlyWaits(g, a, b, x, t, s);
      } else if Foreseeable(g, a, x, s) {
        StartMatters(g, a, b, x, t, s);
      } else {
        NotForeseen(g, a, x, s);
      }
    } else {
      FailureReaches(g, a, b, x, t);
      if a.svc[x].prop.failure {
        FailureStrandsNone(g, a, b, x, t, s);
      }
    }
  }

  lemma NotForeseen(g: Graph, w: World, x: nat, s: nat)
    requires x < |w.svc| && !Foreseeable(g, w, x, s)
    ensures w.svc[x].prop.release
  {
  }

  // s waits for x alone, and has been forgotten after the pass
  lemma StartMatters(g: Graph, a: World, b: World, x: nat, t: seq<World>, s: nat)
    requires PassOf(g, a, b, x, t) && Woken(g, a, s) && s != x && !a.svc[x].prop.failure && Foreseeable(g, a, x, s)
    requires Alone(g, a, s, x) && s < |b.svc| && !Woken(g, b, s)
    ensures LetsDown(g, a, x, s)
  {
    hide Order, RequirePassed, ReleasePassed, FailurePassed, StartPassed, StopPassed, PinPassed, NoBystander, BlockedBut, Blocked, Harmless;
    ReachesStartAsWas(g, a, b, x, t);
    var l := BlockedByOwn(g, a, s, x);
    StaysHard(g, a, b, x, t, l);
    if a.svc[x].prop.start && CarriedOut(a.svc[x]) {
      if a.svc[x].prop.stop && !a.svc[x].IsStartPinned() {
        StartPassOthers(g, t[3], t[4], x, s);
        StartHard(g, t[3], t[4], x, l);
        StopsAgain(g, a, b, x, t, s, l);
      }
    } else {
      StandingWoken(g, a, t[0], s);
      RequirePassWoken(g, t[0], t[1], x, s);
      ReleasePassWoken(g, t[1], t[2], x, s);
      if Woken(g, t[2], s) {
        FailurePassWoken(g, t[2], t[3], x, s);
        WokenFrom(g, a, b, x, t, s);
      } else if !StaysDown(a.svc[x]) {
        StartIdles(g, t[3], t[4], x);
        StopsAgain(g, a, b, x, t, s, l);
      }
    }
  }

  // a service that starts already is not started
  lemma StartIdles(g: Graph, a: World, b: World, x: nat)
    requires StartPassed(g, a, b, x) && a.svc[x].state == Starting
    ensures b.lnk == a.lnk && x < |b.svc| && b.svc[x].state == Starting && b.svc[x].waitingForDeps == a.svc[x].waitingForDeps
    ensures b.svc[x].pins == a.svc[x].pins && b.svc[x].prop.stop == a.svc[x].prop.stop
  {
    hide FailDone, Revived, Initiated;
  }

  lemma BlockedByOwn(g: Graph, w: World, s: nat, x: nat) returns (l: nat)
    requires Woken(g, w, s) && Alone(g, w, s, x)
    ensures NeedsBy(g, x, s, l) && l < |w.lnk| && g.IsHard(l, w.lnk[l])
  {
    l :| Blocks(g, w, s, l);
    assert !BlocksToo(g, w, s, x, l);
  }

  lemma StaysHard(g: Graph, a: World, b: World, x: nat, t: seq<World>, l: nat)
    requires PassOf(g, a, b, x, t) && (Harmless(g, a, x) || a.svc[x].state == Stopped) && !a.svc[x].prop.failure && l < |a.lnk| && l < |g.kind|
    ensures l < |t[3].lnk| && g.IsHard(l, t[3].lnk[l]) == g.IsHard(l, a.lnk[l])
  {
    hide Order, RequirePassed, ReleasePassed, FailurePassed, StartPassed, StopPassed, PinPassed;
    ReachesStartAsWas(g, a, b, x, t);
    RequireOwn(g, t[0], t[1], x);
    assert t[1].lnk[l].waitingOn == a.lnk[l].waitingOn;
    ReleaseHard(g, t[1], t[2], x, l);
  }

  lemma DoesLetDown(g: Graph, a: World, b: World, x: nat, t: seq<World>, s: nat)
    requires PassOf(g, a, b, x, t) && Woken(g, a, s) && s < |b.svc| && LetsDown(g, a, x, s) && !InDoubt(g, a, x, s)
    ensures !Woken(g, b, s)
  {
    hide Order, RequirePassed, ReleasePassed, FailurePassed, StartPassed, StopPassed, PinPassed, NoBystander, BlockedBut, Blocked;
    var l := BlockedByOwn(g, a, s, x);
    assert Needs(g, x, s);
    if Harmless(g, a, x) {
      HarmlessStill(g, a, t[1], x);
    }
    ReachesStartAsWas(g, a, b, x, t);
    OthersUntilRelease(g, a, b, x, t, s);
    FailurePassOthers(g, t[2], t[3], x, s);
    if a.svc[x].prop.start && CarriedOut(a.svc[x]) {
      StartedStrands(g, a, b, x, t, s);
    } else {
      ReleaseStopped(g, t[1], t[2], x);
      ReleasedStrands(g, a, b, x, t, s);
    }
  }

  lemma NotItself(g: Graph, x: nat, s: nat)
    requires g.Valid() && Needs(g, x, s)
    ensures s != x
  {
    var l: nat :| NeedsBy(g, x, s, l);
    g.Ends(l);
  }

  lemma FailureReaches(g: Graph, a: World, b: World, x: nat, t: seq<World>)
    requires PassOf(g, a, b, x, t)
    ensures t[2].svc[x].prop.failure == a.svc[x].prop.failure
  {
    hide Order, RequirePassed, ReleasePassed, FailurePassed, StartPassed, StopPassed, PinPassed;
    RequireOwn(g, t[0], t[1], x);
    ReleaseOwn(g, t[1], t[2], x, x);
  }

  // ---- events ----

  // a start on request is carried out, and x was all that s waited for
  ghost predicate LetsDownAtOnce(g: Graph, w: World, x: nat, s: nat) {
    x < |w.svc| && s != x && Alone(g, w, s, x) && CarriedOut(w.svc[x])
  }

  // A start on request strands exactly those that wait to stop, are not queued, and have nothing to wait for but the service
  // that starts
  lemma StartStrands(g: Graph, a: World, b: World, x: nat, s: nat)
    requires Kept(g, a) && StartHandled(g, a, b, x) && Woken(g, a, s) && s < |b.svc|
    ensures !Woken(g, b, s) <==> LetsDownAtOnce(g, a, x, s)
  {
    hide Order, StartDone, Needs, NoBystander, BlockedBut, Blocked;
    GraphValid(g, a);
    if !a.svc[x].pins.stopped {
      var w := With(a, x, Activated(a.svc[x]));
      RecordWoken(g, a, w, x, s);
      StartWoken(g, w, b, x, s);
      if s == x {
        if Needs(g, x, x) {
          NotItself(g, x, x);
        }
      } else {
        RecordOthers(g, a, w, s, x);
        StartOthers(g, w, b, x, s);
        if s in a.trans || BlockedBut(g, a, s, x) {
          BackedStays(g, a, w, s, x);
          BackedStays(g, w, b, s, x);
          BackedIsWoken(g, b, s, x);
        } else if LetsDownAtOnce(g, a, x, s) {
          forall l: nat ensures !BlocksOwn(g, b, x, s, l) {
          }
          AloneIsStranded(g, b, x, s);
        }
      }
    }
  }

  // A service that others wait for starts, or lets go of them, without their being told
  ghost predicate Strands(g: Graph, w: World, e: Event, s: nat) {
    match e
    case StartIt(x) => LetsDownAtOnce(g, w, x, s)
    case Process(x, outcome, downAtOnce) => x in w.prop && (LetsDown(g, w, x, s) || InDoubt(g, w, x, s))
    case _ => false
  }

  // No event strands a service that is queued or blocked, but such, and they do
  lemma EventStrands(g: Graph, a: World, b: World, e: Event, s: nat)
    requires Kept(g, a) && Kept(g, b) && Handled(g, a, b, e) && Woken(g, a, s)
    ensures s < |b.svc| && (!Woken(g, b, s) ==> Strands(g, a, e, s))
    ensures Strands(g, a, e, s) && !(e.Process? && InDoubt(g, a, e.x, s)) ==> !Woken(g, b, s)
  {
    hide Order, ServiceHandled, AttachHandled, Attachable, Passes, Transitioned, LetsDown, LetsDownAtOnce, InDoubt, Blocked;
    SameSizes(g, a, b);
    match e
    case Attach(l) =>
      if Attachable(g, a, l) {
        AttachWoken(g, a, b, l, s);
      }
    case Process(x, outcome, downAtOnce) =>
      if Due(a, x) {
        var trail :| Processed(g, a, b, x, trail, outcome, downAtOnce);
        if a.prop != {} {
          PassStrands(g, a, b, x, trail, s);
        } else {
          TransitionWoken(g, a, b, x, outcome, downAtOnce, s);
        }
      }
    case StartIt(x) =>
      if x < |a.svc| {
        StartedBy(g, a, b, x);
        StartStrands(g, a, b, x, s);
      } else {
        NotThere(g, a, x, s);
      }
    case _ =>
      if e.x < |a.svc| {
        ServiceEventWoken(g, a, b, e, s);
      }
  }

  lemma SameSizes(g: Graph, a: World, b: World)
    requires Kept(g, a) && Kept(g, b)
    ensures |b.svc| == |a.svc|
  {
    hide Order;
  }

  lemma StartedBy(g: Graph, a: World, b: World, x: nat)
    requires x < |a.svc| && ServiceHandled(g, a, b, StartIt(x))
    ensures StartHandled(g, a, b, x)
  {
    hide StartHandled;
  }

  lemma NotThere(g: Graph, w: World, x: nat, s: nat)
    requires x >= |w.svc|
    ensures !LetsDownAtOnce(g, w, x, s)
  {
  }

  // ---- histories ----

  // s was stranded between k and k + 1, and has been waiting to stop since then, unqueued and for nothing
  ghost predicate StrandedSince(g: Graph, history: seq<World>, events: seq<Event>, i: nat, s: nat, k: nat) {
    && k < i < |history| && k < |events| && Strands(g, history[k], events[k], s)
    && forall j :: k < j <= i ==> s < |history[j].svc| && !Woken(g, history[j], s)
  }

  lemma {:induction false} WokenOrStranded(g: Graph, history: seq<World>, events: seq<Event>, i: nat, s: nat)
    requires FromTheStart(g, history, events) && i < |history| && s < |history[i].svc|
    ensures !Woken(g, history[i], s) <==> exists k: nat :: StrandedSince(g, history, events, i, s, k)
  {
    hide Handled, Kept, Strands, Blocked;
    HistoryAt(g, history, events, i);
    if !Woken(g, history[i], s) && i > 0 {
      var a, e := history[i - 1], events[i - 1];
      HistoryAt(g, history, events, i - 1);
      WokenOrStranded(g, history, events, i - 1, s);
      if Woken(g, a, s) {
        EventStrands(g, a, history[i], e, s);
        assert StrandedSince(g, history, events, i, s, i - 1);
      } else {
        var k: nat :| StrandedSince(g, history, events, i - 1, s, k);
        assert StrandedSince(g, history, events, i, s, k);
      }
    }
  }

  // No stop is forgotten: when no transition is queued, a service that waits to stop has a hard dependent that has not stopped,
  // or has yet to let go of it, exactly unless one that it waited for started again, or let go of it, in its stead
  lemma StopsNotLost(g: Graph, history: seq<World>, events: seq<Event>, i: nat, s: nat)
    requires FromTheStart(g, history, events) && i < |history| && history[i].trans == {}
    requires s < |history[i].svc| && WaitsToStop(history[i].svc[s])
    ensures (exists l: nat :: Blocks(g, history[i], s, l)) <==> !exists k: nat :: StrandedSince(g, history, events, i, s, k)
  {
    hide StrandedSince;
    WokenOrStranded(g, history, events, i, s);
  }
}
