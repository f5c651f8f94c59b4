// What a stop order issued to one service may change, and where.
module ServiceStops {
  import opened ServiceRecords
  import opened ServiceBooks

  // a service that runs has to stop again
  predicate MustStop(s: Service) {
    s.forceStop || s.desired == Stopped
  }

  // ---- what services keep to, from one operation to the next ----

  // a running service that must stop has been told to, unless a pin holds it
  predicate Obeys(s: Service) {
    s.state == Started && MustStop(s) && !s.IsStartPinned() ==> s.prop.stop
  }

  // a service that nothing requires is not wanted
  predicate Asked(s: Service) {
    s.requiredBy == 0 ==> s.desired == Stopped
  }

  // launched, or running
  predicate IsLaunched(s: Service) {
    s.state == Started || (s.state == Starting && !s.waitingForDeps)
  }

  // Of a service that is not pinned: one that is to stop while it waits has been told so; if one that is launched is told to
  // stop although nothing forces it, it is to restart with its dependents; it is not told to start
  predicate Sound(s: Service) {
    !s.IsStartPinned() ==>
      && (s.state == Starting && s.waitingForDeps && s.desired == Stopped ==> s.prop.stop || s.prop.failure)
      && (IsLaunched(s) && s.prop.stop && !MustStop(s) ==> s.inUserRestart)
      && (IsLaunched(s) ==> !s.prop.start)
  }

  // the service is going to start once its dependencies have
  predicate AwaitsStart(s: Service) {
    s.state == Starting && s.waitingForDeps && !s.IsStartPinned() && !s.prop.stop && !s.prop.failure
  }

  // ... and waits on the regular dependency l, or that runs
  predicate Ready(g: Graph, svc: seq<Service>, lnk: seq<Link>, l: nat) {
    l < |lnk| && l < |g.from| && l < |g.to| && l < |g.kind| && g.from[l] < |svc| && g.to[l] < |svc|
    && (g.kind[l] == Regular && AwaitsStart(svc[g.from[l]]) ==> lnk[l].waitingOn || svc[g.to[l]].state == Started)
  }

  predicate Minds(a: Service, b: Service) {
    (Obeys(a) ==> Obeys(b)) && (Sound(a) ==> Sound(b))
  }

  predicate KeepsReady(g: Graph, a: World, b: World, l: nat) {
    l < |g.from| && g.from[l] < |a.svc| && Sound(a.svc[g.from[l]]) && Ready(g, a.svc, a.lnk, l) ==> Ready(g, b.svc, b.lnk, l)
  }

  // every link at either end of which is y
  ghost predicate ReadyAround(g: Graph, a: World, b: World, y: nat) {
    |g.from| == |g.to| && forall l :: 0 <= l < |g.from| && (g.from[l] == y || g.to[l] == y) ==> KeepsReady(g, a, b, l)
  }

  // every link to x
  ghost predicate ReadyInto(g: Graph, a: World, b: World, x: nat) {
    |g.from| == |g.to| && forall l :: 0 <= l < |g.from| && g.to[l] == x ==> KeepsReady(g, a, b, l)
  }

  // ---- the bound ----

  ghost predicate SvcStop(a: Service, b: Service) {
    && ((b.state == a.state && b.waitingForDeps == a.waitingForDeps) || b.state == Stopping)
    && (a.state == Stopped ==> b.state == Stopped)
    && (a.state == Stopping ==> b.state == Stopping && b.waitingForDeps == a.waitingForDeps)
    && (b.desired == a.desired || b.desired == Stopped)
    && b.requiredBy <= a.requiredBy
    && (b.startExplicit ==> a.startExplicit)
    && (a.forceStop ==> b.forceStop)
    && (a.prop.stop ==> b.prop.stop)
    && (b.prop.require ==> a.prop.require) && (a.prop.release && !a.prop.require ==> b.prop.release)
    && b.pins == a.pins
    && b.prop.start == a.prop.start && b.prop.failure == a.prop.failure && b.prop.pinDpt == a.prop.pinDpt
    && (Asked(a) ==> Asked(b))
  }

  // a service that is no longer wanted has been told to stop, unless a pin holds it
  ghost predicate Told(a: Service, b: Service) {
    && (b.desired == a.desired || b.prop.stop || (b.forceStop && b.IsStartPinned()) || a.state == Stopped)
    && Minds(a, b) && Unmoved(a, b)
  }

  // only a service that was started explicitly is brought to a stop at once, and loses a requirement; one that has stopped
  // is told nothing
  predicate Unmoved(a: Service, b: Service) {
    && (!a.startExplicit ==> b.state == a.state && b.waitingForDeps == a.waitingForDeps && b.requiredBy == a.requiredBy)
    && (a.state == Stopped ==> b == a.(desired := b.desired))
  }

  ghost predicate LnkStop(kind: DepType, a: Link, b: Link) {
    && (b.waitingOn ==> a.waitingOn) && (b.holdingAcq ==> a.holdingAcq)
    && (kind == Milestone || kind == Regular ==> b.waitingOn == a.waitingOn)
  }

  // links only let go, and soft ones alone cease to wait
  ghost predicate LetGo(kind: seq<DepType>, a: seq<Link>, b: seq<Link>) {
    |a| == |b| == |kind| && forall l {:trigger b[l]} :: 0 <= l < |a| ==> LnkStop(kind[l], a[l], b[l])
  }

  // some hard dependent of x has not stopped
  ghost predicate HeldBack(g: Graph, w: World, x: nat) {
    exists l :: HeldBackBy(g, w, x, l)
  }

  predicate HeldBackBy(g: Graph, w: World, x: nat, l: nat) {
    && l < |w.lnk| && l < |g.from| && l < |g.to| && l < |g.kind| && g.to[l] == x && g.from[l] < |w.svc|
    && g.IsHard(l, w.lnk[l]) && !w.svc[g.from[l]].IsFundamentallyStopped()
  }

  // a service that has come to wait with its stop has a dependent to wait for
  ghost predicate NewlyHeld(g: Graph, a: World, b: World, s: nat) {
    && s < |a.svc| == |b.svc|
    && (b.svc[s].state == Stopping && b.svc[s].waitingForDeps ==>
          (a.svc[s].state == Stopping && a.svc[s].waitingForDeps) || HeldBack(g, b, s))
  }

  ghost predicate AllNewlyHeld(g: Graph, a: World, b: World, x: nat) {
    forall s: nat :: s < |a.svc| && s != x ==> NewlyHeld(g, a, b, s)
  }

  // services that are stopping already are not queued
  ghost predicate QueuedAnew(a: World, b: World) {
    forall s :: s in b.trans && s !in a.trans ==> s < |a.svc| && a.svc[s].state != Stopping
  }

  // hard links are left alone
  ghost predicate HardSame(g: Graph, a: seq<Link>, b: seq<Link>) {
    |a| == |b| == |g.kind| && forall l {:trigger b[l]} :: 0 <= l < |a| && g.IsHard(l, a[l]) ==> b[l] == a[l]
  }

  // x and the services that depend on it, directly or not, have rank above x's
  ghost predicate StopRel(g: Graph, a: World, b: World, x: nat) {
    && Shape(g, a) && Shape(g, b) && x < |g.rank|
    && b.notes == a.notes
    && a.prop <= b.prop && a.trans <= b.trans && QueuedAnew(a, b)
    && (forall s {:trigger b.svc[s]} :: 0 <= s < |a.svc| ==> SvcStop(a.svc[s], b.svc[s]))
    && (forall s {:trigger b.svc[s]} :: 0 <= s < |a.svc| && s != x ==> Told(a.svc[s], b.svc[s]))
    && AllNewlyHeld(g, a, b, x)
    && LetGo(g.kind, a.lnk, b.lnk) && HardSame(g, a.lnk, b.lnk)
    && (forall s {:trigger b.svc[s]} :: 0 <= s < |a.svc| && s != x && g.rank[s] <= g.rank[x] ==> b.svc[s] == a.svc[s])
    && (forall l {:trigger b.lnk[l]} :: 0 <= l < |a.lnk| && g.to[l] < |g.rank| && g.to[l] != x && g.rank[g.to[l]] <= g.rank[x] ==> b.lnk[l] == a.lnk[l])
    && (forall l :: 0 <= l < |g.from| && g.from[l] != x && g.to[l] != x ==> KeepsReady(g, a, b, l))
  }

  lemma StopRefl(g: Graph, a: World, x: nat)
    requires Shape(g, a) && x < |g.rank|
    ensures StopRel(g, a, a, x)
  {
  }

  lemma KeepsTrans(g: Graph, a: World, b: World, c: World, l: nat)
    requires KeepsReady(g, a, b, l) && KeepsReady(g, b, c, l) && |a.svc| == |b.svc|
    requires l < |g.from| && g.from[l] < |a.svc| ==> Minds(a.svc[g.from[l]], b.svc[g.from[l]])
    ensures KeepsReady(g, a, c, l)
  {
    hide Sound, Obeys, Ready;
  }

  lemma StopTrans(g: Graph, a: World, b: World, c: World, x: nat)
    requires StopRel(g, a, b, x) && StopRel(g, b, c, x)
    ensures StopRel(g, a, c, x)
  {
    hide SvcStop, Told, KeepsReady, LetGo, HardSame, NewlyHeld, QueuedAnew;
    QueuedTrans(a, b, c);
    HardTrans(g, a.lnk, b.lnk, c.lnk);
    forall s: nat | s < |a.svc| && s != x ensures NewlyHeld(g, a, c, s) {
      assert NewlyHeld(g, a, b, s) && NewlyHeld(g, b, c, s);
      HeldBackStays(g, b, c, s, x);
      HeldTrans(g, a, b, c, s);
    }
    forall s | 0 <= s < |a.svc| ensures SvcStop(a.svc[s], c.svc[s]) && (s != x ==> Told(a.svc[s], c.svc[s])) {
      assert SvcStop(a.svc[s], b.svc[s]) && SvcStop(b.svc[s], c.svc[s]);
      SvcTrans(a.svc[s], b.svc[s], c.svc[s]);
    }
    forall l | 0 <= l < |g.from| && g.from[l] != x && g.to[l] != x ensures KeepsReady(g, a, c, l) {
      if g.from[l] < |a.svc| {
        assert Told(a.svc[g.from[l]], b.svc[g.from[l]]);
        ToldMinds(a.svc[g.from[l]], b.svc[g.from[l]]);
      }
      KeepsTrans(g, a, b, c, l);
    }
    LetGoTrans(g.kind, a.lnk, b.lnk, c.lnk);
  }

  lemma QueuedTrans(a: World, b: World, c: World)
    requires QueuedAnew(a, b) && QueuedAnew(b, c) && |a.svc| == |b.svc|
    requires forall s {:trigger b.svc[s]} :: 0 <= s < |a.svc| ==> SvcStop(a.svc[s], b.svc[s])
    ensures QueuedAnew(a, c)
  {
    forall s | s in c.trans && s !in a.trans ensures s < |a.svc| && a.svc[s].state != Stopping {
      if s !in b.trans {
        assert SvcStop(a.svc[s], b.svc[s]);
      }
    }
  }

  lemma HeldTrans(g: Graph, a: World, b: World, c: World, s: nat)
    requires NewlyHeld(g, a, b, s) && NewlyHeld(g, b, c, s) && (HeldBack(g, b, s) ==> HeldBack(g, c, s))
    ensures NewlyHeld(g, a, c, s)
  {
    hide HeldBack;
  }

  lemma HardTrans(g: Graph, a: seq<Link>, b: seq<Link>, c: seq<Link>)
    requires HardSame(g, a, b) && HardSame(g, b, c)
    ensures HardSame(g, a, c)
  {
    forall l {:trigger c[l]} | 0 <= l < |a| && g.IsHard(l, a[l]) ensures c[l] == a[l] {
      assert b[l] == a[l];
    }
  }

  lemma ToldMinds(a: Service, b: Service)
    requires Told(a, b)
    ensures Minds(a, b)
  {
  }

  lemma LetGoTrans(kind: seq<DepType>, a: seq<Link>, b: seq<Link>, c: seq<Link>)
    requires LetGo(kind, a, b) && LetGo(kind, b, c)
    ensures LetGo(kind, a, c)
  {
    forall l | 0 <= l < |a| ensures LnkStop(kind[l], a[l], c[l]) {
      assert LnkStop(kind[l], a[l], b[l]) && LnkStop(kind[l], b[l], c[l]);
    }
  }

  // a stop order to y, which depends on x, is part of a stop order to x once y has been told
  lemma StopLift(g: Graph, a: World, b: World, x: nat, y: nat)
    requires StopRel(g, a, b, y) && x < |g.rank| && g.rank[x] < g.rank[y] && Told(a.svc[y], b.svc[y]) && ReadyAround(g, a, b, y)
    requires NewlyHeld(g, a, b, y)
    ensures StopRel(g, a, b, x)
  {
    hide SvcStop, Told, KeepsReady, LetGo, HardSame, NewlyHeld;
  }

  lemma SvcTrans(a: Service, b: Service, c: Service)
    requires SvcStop(a, b) && SvcStop(b, c)
    ensures SvcStop(a, c)
    ensures Told(a, b) && Told(b, c) ==> Told(a, c)
  {
  }

  // one service's own record changes
  lemma StopOne(g: Graph, a: World, b: World, x: nat)
    requires Shape(g, a) && Differs(a, b, x) && b.notes == a.notes && x < |g.rank|
    requires SvcStop(a.svc[x], b.svc[x]) && QueuedAnew(a, b)
    ensures StopRel(g, a, b, x)
    ensures a.svc[x].state == b.svc[x].state ==> ReadyInto(g, a, b, x)
  {
    hide Sound, Obeys;
    forall s | 0 <= s < |a.svc| ensures SvcStop(a.svc[s], b.svc[s]) && (s != x ==> Told(a.svc[s], b.svc[s])) {
      assert s != x ==> b.svc[s] == a.svc[s];
    }
    forall l | 0 <= l < |g.from| && g.from[l] != x && (g.to[l] != x || a.svc[x].state == b.svc[x].state) ensures KeepsReady(g, a, b, l) {
    }
  }

  // one link into x is cleared
  lemma StopLink(g: Graph, a: World, b: World, x: nat, l: nat)
    requires Shape(g, a) && Shape(g, b) && l < |a.lnk| && g.to[l] == x < |g.rank|
    requires b.svc == a.svc && b.notes == a.notes && a.prop <= b.prop && a.trans <= b.trans && QueuedAnew(a, b)
    requires b.lnk == a.lnk[l := b.lnk[l]] && LnkStop(g.kind[l], a.lnk[l], b.lnk[l]) && !g.IsHard(l, a.lnk[l])
    ensures StopRel(g, a, b, x) && ReadyInto(g, a, b, x)
  {
    hide Sound, Obeys;
  }

  lemma StopAt(g: Graph, a: World, b: World, x: nat, s: nat)
    requires StopRel(g, a, b, x) && s < |a.svc|
    ensures Shape(g, a) && Shape(g, b) && b.notes == a.notes && a.prop <= b.prop && a.trans <= b.trans
    ensures SvcStop(a.svc[s], b.svc[s])
    ensures s != x ==> Told(a.svc[s], b.svc[s])
    ensures s != x && g.rank[s] <= g.rank[x] ==> b.svc[s] == a.svc[s]
  {
  }

  lemma StopLinkAt(g: Graph, a: World, b: World, x: nat, l: nat)
    requires StopRel(g, a, b, x) && l < |a.lnk|
    ensures Shape(g, a) && Shape(g, b)
    ensures LnkStop(g.kind[l], a.lnk[l], b.lnk[l]) && g.IsHard(l, b.lnk[l]) == g.IsHard(l, a.lnk[l])
  {
    hide KeepsReady, SvcStop, Told;
    assert LnkStop(g.kind[l], a.lnk[l], b.lnk[l]);
  }

  // ---- what a service passes on to a hard dependent when it stops ----

  ghost predicate PassedOn(before: Service, after: Service, forced: bool, unwanted: bool) {
    && (forced && before.state != Stopped ==> after.forceStop && (after.prop.stop || before.IsStartPinned()))
    && (unwanted && before.state != Stopped ==>
          && after.desired == Stopped
          && (after.prop.stop || before.desired == Stopped || (after.forceStop && before.IsStartPinned())))
  }

  // every dependent in the list so far
  ghost predicate AllPassedOn(g: Graph, a: World, b: World, x: nat, n: nat, forced: bool, unwanted: bool) {
    && Shape(g, a) && Shape(g, b) && x < |g.dependents| && n <= |g.dependents[x]|
    && forall i {:trigger g.dependents[x][i]} :: 0 <= i < n ==>
         var l := g.dependents[x][i];
         l < |a.lnk| && g.from[l] < |a.svc| && (g.IsHard(l, a.lnk[l]) ==> PassedOn(a.svc[g.from[l]], b.svc[g.from[l]], forced, unwanted))
  }

  // and soft links are broken
  ghost predicate AllBroken(g: Graph, b: World, x: nat, n: nat) {
    && Shape(g, b) && x < |g.dependents| && n <= |g.dependents[x]|
    && forall i {:trigger g.dependents[x][i]} :: 0 <= i < n ==>
         var l := g.dependents[x][i];
         l < |b.lnk| && (!g.IsHard(l, b.lnk[l]) ==> !b.lnk[l].waitingOn && !b.lnk[l].holdingAcq)
  }

  lemma PassedOnStays(a: Service, b: Service, c: Service, forced: bool, unwanted: bool)
    requires PassedOn(a, b, forced, unwanted) && SvcStop(b, c)
    ensures PassedOn(a, c, forced, unwanted)
  {
  }

  lemma PassedOnSince(a: Service, b: Service, c: Service, forced: bool, unwanted: bool, unwantedSince: bool)
    requires SvcStop(a, b) && Told(a, b) && PassedOn(b, c, forced, unwantedSince) && SvcStop(b, c)
    requires unwanted ==> unwantedSince
    ensures PassedOn(a, c, forced, unwanted)
  {
  }

  lemma AllPassedOnStays(g: Graph, a: World, b: World, c: World, x: nat, y: nat, n: nat, forced: bool, unwanted: bool)
    requires AllPassedOn(g, a, b, x, n, forced, unwanted) && StopRel(g, b, c, y)
    ensures AllPassedOn(g, a, c, x, n, forced, unwanted)
  {
    hide PassedOn, SvcStop, LnkStop;
    forall i {:trigger g.dependents[x][i]} | 0 <= i < n && g.IsHard(g.dependents[x][i], a.lnk[g.dependents[x][i]])
      ensures PassedOn(a.svc[g.from[g.dependents[x][i]]], c.svc[g.from[g.dependents[x][i]]], forced, unwanted)
    {
      var f := g.from[g.dependents[x][i]];
      PassedOnStays(a.svc[f], b.svc[f], c.svc[f], forced, unwanted);
    }
  }

  lemma AllBrokenStays(g: Graph, b: World, c: World, x: nat, y: nat, n: nat)
    requires AllBroken(g, b, x, n) && StopRel(g, b, c, y)
    ensures AllBroken(g, c, x, n)
  {
  }

  lemma AllBrokenNone(g: Graph, b: World, x: nat)
    requires Shape(g, b) && x < |g.dependents|
    ensures AllBroken(g, b, x, 0)
  {
  }

  // up to b only x's own record has changed, and x may have become unwanted
  lemma AllPassedOnSame(g: Graph, a: World, b: World, c: World, x: nat, n: nat, forced: bool, unwanted: bool, unwantedSince: bool)
    requires Order(g, a) && Shape(g, a) && ButFor(a.svc, b.svc, x) && b.lnk == a.lnk && x < |a.svc|
    requires unwanted ==> unwantedSince
    requires AllPassedOn(g, b, c, x, n, forced, unwantedSince)
    ensures AllPassedOn(g, a, c, x, n, forced, unwanted)
  {
    forall i | 0 <= i < n ensures g.dependents[x][i] < |g.from| && g.from[g.dependents[x][i]] != x {
      g.DependentAt(x, i);
      g.Ends(g.dependents[x][i]);
    }
  }

  // a hard dependent that runs has been told to restart with x
  predicate RestartsWith(before: Service, after: Service) {
    before.state == Stopped || before.state == Stopping || (after.prop.stop && after.inUserRestart)
  }

  ghost predicate AllRestarted(g: Graph, a: World, b: World, x: nat, n: nat) {
    && Shape(g, a) && Shape(g, b) && x < |g.dependents| && n <= |g.dependents[x]|
    && forall i {:trigger g.dependents[x][i]} :: 0 <= i < n ==>
         var l := g.dependents[x][i];
         l < |a.lnk| && g.from[l] < |a.svc| && (g.IsHard(l, a.lnk[l]) ==> RestartsWith(a.svc[g.from[l]], b.svc[g.from[l]]))
  }

  lemma AllRestartedMore(g: Graph, a: World, b: World, c: World, x: nat, i: nat, f: nat)
    requires AllRestarted(g, a, b, x, i) && Shape(g, c) && f < |b.svc| && ButFor(b.svc, c.svc, f)
    requires b.svc[f].prop.stop && b.svc[f].inUserRestart ==> c.svc[f].prop.stop && c.svc[f].inUserRestart
    requires i < |g.dependents[x]| && g.dependents[x][i] < |a.lnk| && g.from[g.dependents[x][i]] < |a.svc|
    requires g.IsHard(g.dependents[x][i], a.lnk[g.dependents[x][i]]) ==> RestartsWith(a.svc[g.from[g.dependents[x][i]]], c.svc[g.from[g.dependents[x][i]]])
    ensures AllRestarted(g, a, c, x, i + 1)
  {
    forall k {:trigger g.dependents[x][k]} | 0 <= k < i && g.IsHard(g.dependents[x][k], a.lnk[g.dependents[x][k]])
      ensures RestartsWith(a.svc[g.from[g.dependents[x][k]]], c.svc[g.from[g.dependents[x][k]]])
    {
      assert RestartsWith(a.svc[g.from[g.dependents[x][k]]], b.svc[g.from[g.dependents[x][k]]]);
    }
  }

  // a and d differ from b and c in x's own record at most
  lemma AllRestartedSame(g: Graph, a: World, b: World, c: World, d: World, x: nat, n: nat)
    requires Order(g, a) && Shape(g, a) && x < |a.svc| && ButFor(a.svc, b.svc, x) && b.lnk == a.lnk
    requires AllRestarted(g, b, c, x, n) && ButFor(c.svc, d.svc, x) && Shape(g, d)
    ensures AllRestarted(g, a, d, x, n)
  {
    forall i | 0 <= i < n ensures g.dependents[x][i] < |g.from| && g.from[g.dependents[x][i]] != x {
      g.DependentAt(x, i);
      g.Ends(g.dependents[x][i]);
    }
  }

  lemma HeldBackStays(g: Graph, b: World, c: World, x: nat, y: nat)
    requires StopRel(g, b, c, y)
    ensures HeldBack(g, b, x) ==> HeldBack(g, c, x)
  {
    if l: nat :| HeldBackBy(g, b, x, l) {
      StopLinkAt(g, b, c, y, l);
      StopAt(g, b, c, y, g.from[l]);
      assert HeldBackBy(g, c, x, l);
    }
  }

  // x's own record makes no difference
  lemma HeldBackSame(g: Graph, a: World, b: World, x: nat)
    requires Order(g, a) && Shape(g, a) && ButFor(a.svc, b.svc, x) && b.lnk == a.lnk
    ensures HeldBack(g, a, x) <==> HeldBack(g, b, x)
  {
    forall l: nat ensures HeldBackBy(g, a, x, l) <==> HeldBackBy(g, b, x, l) {
      if l < |g.from| {
        g.Ends(l);
      }
    }
  }

  // nobody has to be told of the stop: there is no soft dependent, and the hard ones have stopped or are to
  ghost predicate Calm(g: Graph, w: World, x: nat) {
    && x < |w.svc| && !w.svc[x].IsStartPinned() && !w.svc[x].forceStop && w.svc[x].desired == Stopped && !w.svc[x].startExplicit
    && forall l: nat {:trigger g.to[l]} :: l < |w.lnk| && l < |g.from| && l < |g.to| && l < |g.kind| && g.to[l] == x ==>
         g.IsHard(l, w.lnk[l]) && g.from[l] < |w.svc| && (w.svc[g.from[l]].state == Stopped || w.svc[g.from[l]].desired == Stopped)
  }

  ghost function StoppedCalmly(g: Graph, w: World, x: nat): World
    requires x < |w.svc|
  {
    w.(svc := w.svc[x := w.svc[x].(inUserRestart := false, state := Stopping, waitingForDeps := HeldBack(g, w, x))],
       trans := w.trans + if HeldBack(g, w, x) then {} else {x})
  }

  predicate MayStop(s: Service) {
    s.state == Started || (s.state == Starting && s.waitingForDeps)
  }

  // do_stop(): what becomes of x, and of its dependents
  ghost predicate StopDone(g: Graph, a: World, b: World, x: nat, withRestart: bool, forRestart: bool) {
    && StopRel(g, a, b, x) && x < |a.svc| && x < |g.dependents|
    && (a.svc[x].IsStartPinned() ==> b == a)
    && (!a.svc[x].IsStartPinned() ==>
          && !b.svc[x].inUserRestart && b.svc[x].prop.stop == a.svc[x].prop.stop
          && (b.svc[x].requiredBy == a.svc[x].requiredBy ==> b.svc[x].desired == a.svc[x].desired)
          && (withRestart ==> forRestart) && (forRestart && !withRestart ==> a.svc[x].desired == Started)
          && (!forRestart ==> !b.svc[x].startExplicit && AllBroken(g, b, x, |g.dependents[x]|))
          && AllPassedOn(g, a, b, x, |g.dependents[x]|, a.svc[x].forceStop, a.svc[x].desired == Stopped)
          && (withRestart && a.svc[x].desired != Stopped ==> AllRestarted(g, a, b, x, |g.dependents[x]|))
          && (if a.svc[x].state == Stopped || a.svc[x].state == Stopping then
                b.svc[x].state == a.svc[x].state && b.svc[x].waitingForDeps == a.svc[x].waitingForDeps
              else if MayStop(a.svc[x]) then
                && b.svc[x].state == Stopping
                && (b.svc[x].waitingForDeps ==> HeldBack(g, b, x)) && (HeldBack(g, a, x) ==> b.svc[x].waitingForDeps)
                && (!b.svc[x].waitingForDeps ==> x in b.trans)
                && (Calm(g, a, x) ==> b == StoppedCalmly(g, a, x))
              else
                b.svc[x].waitingForDeps ==> b.svc[x].state == Stopping && HeldBack(g, b, x)))
  }

  ghost predicate Stops(g: Graph, a: World, b: World, x: nat, withRestart: bool) {
    exists forRestart :: StopDone(g, a, b, x, withRestart, forRestart)
  }

  // a service that runs is stopped for a reason, and so is one that comes up and has yet to be told
  predicate Justified(s: Service, withRestart: bool) {
    && (s.state == Started ==> withRestart || MustStop(s))
    && (s.state == Starting && s.prop.stop ==> MustStop(s))
  }

  // The service is left where nothing more is expected of it; so are its dependents, if they were told
  lemma StopMinds(g: Graph, a: World, b: World, x: nat, withRestart: bool)
    requires g.Valid() && Stops(g, a, b, x, withRestart) && x < |a.svc| && !a.svc[x].IsStartPinned()
    ensures StopRel(g, a, b, x)
    ensures b.svc[x].state != Started && !AwaitsStart(b.svc[x]) && NewlyHeld(g, a, b, x)
    ensures Justified(a.svc[x], withRestart) ==> ReadyInto(g, a, b, x) && ((IsLaunched(a.svc[x]) ==> !a.svc[x].prop.start) ==> Sound(b.svc[x]))
  {
    var forRestart :| StopDone(g, a, b, x, withRestart, forRestart);
    StopAt(g, a, b, x, x);
    if Justified(a.svc[x], withRestart) {
      forall l | 0 <= l < |g.from| && g.to[l] == x ensures KeepsReady(g, a, b, l) {
        StopReadyAt(g, a, b, x, withRestart, forRestart, l);
      }
    }
  }

  lemma StopReadyAt(g: Graph, a: World, b: World, x: nat, withRestart: bool, forRestart: bool, l: nat)
    requires g.Valid() && StopDone(g, a, b, x, withRestart, forRestart) && !a.svc[x].IsStartPinned()
    requires a.svc[x].state == Started ==> withRestart || MustStop(a.svc[x])
    requires l < |g.from| && g.to[l] == x
    ensures KeepsReady(g, a, b, l)
  {
    g.Ends(l);
    var f := g.from[l];
    StopAt(g, a, b, x, f);
    StopAt(g, a, b, x, x);
    StopLinkAt(g, a, b, x, l);
    if g.kind[l] == Regular {
      assert l in g.dependents[x];
      var i :| 0 <= i < |g.dependents[x]| && g.dependents[x][i] == l;
      assert PassedOn(a.svc[f], b.svc[f], a.svc[x].forceStop, a.svc[x].desired == Stopped);
      if withRestart && a.svc[x].desired != Stopped {
        assert RestartsWith(a.svc[f], b.svc[f]);
      }
    }
  }

  lemma DependentEndsOff(g: Graph, w: World, x: nat, i: nat)
    requires OrderOff(g, w, x) && x < |w.svc| && Shape(g, w) && i < |g.dependents[x]|
    ensures g.dependents[x][i] < |w.lnk| && g.to[g.dependents[x][i]] == x && g.from[g.dependents[x][i]] < |w.svc|
  {
    g.DependentAt(x, i);
    g.Ends(g.dependents[x][i]);
  }

  lemma DependentEnds(g: Graph, w: World, x: nat, i: nat)
    requires Order(g, w) && x < |w.svc| && Shape(g, w) && i < |g.dependents[x]|
    ensures g.dependents[x][i] < |w.lnk| && g.to[g.dependents[x][i]] == x && g.from[g.dependents[x][i]] < |w.svc|
    ensures g.rank[x] < g.rank[g.from[g.dependents[x][i]]] <= g.top
  {
    g.DependentAt(x, i);
    g.Ends(g.dependents[x][i]);
  }

  lemma AllBrokenMore(g: Graph, b: World, x: nat, i: nat)
    requires AllBroken(g, b, x, i) && i < |g.dependents[x]| && g.dependents[x][i] < |b.lnk|
    requires !g.IsHard(g.dependents[x][i], b.lnk[g.dependents[x][i]]) ==>
               !b.lnk[g.dependents[x][i]].waitingOn && !b.lnk[g.dependents[x][i]].holdingAcq
    ensures AllBroken(g, b, x, i + 1)
  {
  }

  lemma AllPassedOnMore(g: Graph, a: World, b: World, x: nat, i: nat, forced: bool, unwanted: bool)
    requires AllPassedOn(g, a, b, x, i, forced, unwanted) && i < |g.dependents[x]| && g.dependents[x][i] < |a.lnk|
    requires g.from[g.dependents[x][i]] < |a.svc|
    requires g.IsHard(g.dependents[x][i], a.lnk[g.dependents[x][i]]) ==>
               PassedOn(a.svc[g.from[g.dependents[x][i]]], b.svc[g.from[g.dependents[x][i]]], forced, unwanted)
    ensures AllPassedOn(g, a, b, x, i + 1, forced, unwanted)
  {
    hide PassedOn;
  }

  lemma DependencyEnds(g: Graph, w: World, x: nat, i: nat)
    requires OrderOff(g, w, x) && x < |w.svc| && Shape(g, w) && i < |g.dependsOn[x]|
    ensures g.dependsOn[x][i] < |w.lnk| && g.from[g.dependsOn[x][i]] == x && g.to[g.dependsOn[x][i]] < |w.svc|
    ensures g.rank[g.to[g.dependsOn[x][i]]] < g.rank[x] <= g.top
  {
    g.DependsOnAt(x, i);
    g.Ends(g.dependsOn[x][i]);
  }

  lemma DependencyOnce(g: Graph, w: World, x: nat, i: nat)
    requires OrderOff(g, w, x) && x < |w.svc| && Shape(g, w) && i < |g.dependsOn[x]|
    ensures g.dependsOn[x][i] !in g.dependsOn[x][..i]
  {
    g.DependsOnOnce(x, i);
  }

  lemma Listed(g: Graph, w: World, x: nat, l: nat)
    requires OrderOff(g, w, x) && Shape(g, w) && l < |w.lnk|
    ensures g.from[l] < |w.svc| && l in g.dependsOn[g.from[l]]
    ensures g.to[l] < |w.svc| && l in g.dependents[g.to[l]]
  {
  }

  lemma AllBrokenSame(g: Graph, b: World, c: World, x: nat, n: nat)
    requires AllBroken(g, b, x, n) && Shape(g, c) && c.lnk == b.lnk
    ensures AllBroken(g, c, x, n)
  {
  }

  // links to x alone differ
  ghost predicate OnlyInto(g: Graph, a: seq<Link>, b: seq<Link>, x: nat) {
    |a| == |b| == |g.to| && forall l {:trigger b[l]} :: 0 <= l < |a| && g.to[l] != x ==> b[l] == a[l]
  }

  lemma OnlyIntoMore(g: Graph, a: seq<Link>, b: seq<Link>, c: seq<Link>, x: nat, l: nat)
    requires OnlyInto(g, a, b, x) && ButFor(b, c, l) && l < |b| && g.to[l] == x
    ensures OnlyInto(g, a, c, x)
  {
  }

  lemma OnlyIntoTrans(g: Graph, a: seq<Link>, b: seq<Link>, c: seq<Link>, x: nat)
    requires OnlyInto(g, a, b, x) && OnlyInto(g, b, c, x)
    ensures OnlyInto(g, a, c, x)
  {
  }

  lemma OnlyIntoRefl(g: Graph, w: World, x: nat)
    requires Shape(g, w)
    ensures OnlyInto(g, w.lnk, w.lnk, x)
  {
  }

  // links only let go
  ghost predicate Drops(a: seq<Link>, b: seq<Link>) {
    |a| == |b| && forall l :: 0 <= l < |a| ==> (b[l].waitingOn ==> a[l].waitingOn) && (b[l].holdingAcq ==> a[l].holdingAcq)
  }

  lemma StopDrops(g: Graph, a: World, b: World, x: nat)
    requires StopRel(g, a, b, x)
    ensures Drops(a.lnk, b.lnk) && LetGo(g.kind, a.lnk, b.lnk)
    ensures a.prop <= b.prop && a.trans <= b.trans && b.notes == a.notes
    ensures Shape(g, a) && x < |a.svc| ==> SvcStop(a.svc[x], b.svc[x])
  {
    hide SvcStop, KeepsReady, Told;
  }
}
