// The effects of single steps, as functions and predicates on services, links and the whole set.
module ServiceSteps {
  import opened ServiceRecords
  import opened ServiceBooks
  import opened ServiceStops
  import opened ServicePins

  // release(), up to the point where it may order a stop
  function Released(s: Service): Service {
    var last := s.requiredBy == 1;
    var drop := last && !s.IsStartPinned();
    s.(requiredBy := s.requiredBy - 1,
       desired := if last then Stopped else s.desired,
       prop := s.prop.(release := if drop then !s.prop.require else s.prop.release,
                       require := if drop then false else s.prop.require))
  }

  // forced_stop()
  function Forced(s: Service): Service {
    s.(forceStop := s.forceStop || s.state != Stopped,
       prop := s.prop.(stop := s.prop.stop || (s.state != Stopped && !s.IsStartPinned())))
  }

  // release() is up to its caller to make good: without a stop order, and with one if it was the last
  predicate GivesUp(s: Service) {
    s.requiredBy == 1 && !s.IsStartPinned() && !s.prop.require
  }

  predicate StopsWhenReleased(s: Service) {
    s.requiredBy == 1 && !s.IsStartPinned() && s.state != Stopped && s.state != Stopping
  }

  ghost function GivenBack(w: World, x: nat): World
    requires x < |w.svc|
  {
    w.(svc := w.svc[x := Released(w.svc[x])], prop := w.prop + if GivesUp(w.svc[x]) then {x} else {})
  }

  ghost predicate ReleaseDone(g: Graph, a: World, b: World, x: nat) {
    x < |a.svc| && if StopsWhenReleased(a.svc[x]) then Stops(g, GivenBack(a, x), b, x, false) else b == GivenBack(a, x)
  }

  // The service and the links at it are left as they should be
  lemma ReleaseMinds(g: Graph, a: World, b: World, x: nat)
    requires g.Valid() && Shape(g, a) && x < |a.svc| && ReleaseDone(g, a, b, x)
    ensures Minds(a.svc[x], b.svc[x]) && ReadyAround(g, a, b, x) && NewlyHeld(g, a, b, x)
  {
    var v := GivenBack(a, x);
    if StopsWhenReleased(a.svc[x]) {
      hide StopRel, HeldBack;
      StopMinds(g, v, b, x, false);
      StopAt(g, v, b, x, x);
      forall l | 0 <= l < |g.from| && (g.from[l] == x || g.to[l] == x) ensures KeepsReady(g, a, b, l) {
        g.Ends(l);
        StopLinkAt(g, v, b, x, l);
        if g.to[l] == x {
          assert KeepsReady(g, v, b, l);
        }
      }
    }
  }

  // links to x, by way of b
  lemma ReadyIntoTrans(g: Graph, a: World, b: World, c: World, x: nat)
    requires StopRel(g, a, b, x) && ReadyInto(g, a, b, x) && ReadyInto(g, b, c, x) && g.Valid()
    ensures ReadyInto(g, a, c, x)
  {
    hide KeepsReady, Told, SvcStop, LetGo;
    forall l | 0 <= l < |g.from| && g.to[l] == x ensures KeepsReady(g, a, c, l) {
      g.Ends(l);
      assert Told(a.svc[g.from[l]], b.svc[g.from[l]]);
      ToldMinds(a.svc[g.from[l]], b.svc[g.from[l]]);
      KeepsTrans(g, a, b, c, l);
    }
  }

  // a service told to stop does not start, whatever it waits for
  lemma ToldAround(g: Graph, a: World, b: World, y: nat)
    requires Shape(g, b) && y < |b.svc| && ReadyInto(g, a, b, y) && (b.svc[y].prop.stop || !AwaitsStart(b.svc[y])) && g.Valid()
    ensures ReadyAround(g, a, b, y)
  {
    forall l | 0 <= l < |g.from| && g.from[l] == y ensures Ready(g, b.svc, b.lnk, l) {
      g.Ends(l);
    }
  }

  lemma AroundInto(g: Graph, a: World, b: World, y: nat)
    requires ReadyAround(g, a, b, y)
    ensures ReadyInto(g, a, b, y)
  {
  }

  lemma WithdrawnMinds(a: Service, b: Service)
    requires SvcStop(a, b) && b.desired == Stopped && b.prop.stop && Unmoved(a, b)
    ensures Told(a, b)
  {
  }

  lemma GraphValid(g: Graph, w: World)
    requires Order(g, w)
    ensures g.Valid()
  {
  }

  ghost function ForcedIn(w: World, x: nat): World
    requires x < |w.svc|
  {
    w.(svc := w.svc[x := Forced(w.svc[x])],
       prop := w.prop + if w.svc[x].state != Stopped && !w.svc[x].IsStartPinned() then {x} else {})
  }

  lemma ForcedInOrder(g: Graph, w: World, v: World, y: nat, desired: State)
    requires Shape(g, w) && Order(g, w) && y < |w.svc| && (desired == Stopped || desired == w.svc[y].desired)
    requires Differs(w, v, y) && v.trans == w.trans && v.notes == w.notes && v.svc[y] == Forced(w.svc[y].(desired := desired))
    requires v.svc[y].prop.stop && !w.svc[y].prop.stop ==> y in v.prop
    ensures Order(g, v) && StopRel(g, w, v, y)
    ensures Told(w.svc[y], v.svc[y]) && ReadyAround(g, w, v, y)
  {
    hide Order, OrderOff, StopRel, Graph.Valid, ReadyAround, ReadyInto;
    assert SvcStop(w.svc[y], v.svc[y]) && Told(w.svc[y], v.svc[y]) && !AwaitsStart(v.svc[y]) by {
      hide Entry;
    }
    hide SvcStop, Told;
    StopOne(g, w, v, y);
    Open(g, w, y);
    Touch(g, w, v, y);
    Close(g, v, y);
    GraphValid(g, w);
    ToldAround(g, w, v, y);
  }

  lemma ReleasedInOrder(g: Graph, w: World, v: World, x: nat)
    requires Shape(g, w) && OrderOff(g, w, x) && x < |w.svc| && EntryAt(w, x, 1)
    requires Differs(w, v, x) && v.trans == w.trans && v.notes == w.notes && v.svc[x] == Released(w.svc[x])
    requires v.svc[x].requiredBy == 0 && v.svc[x].prop.release && !v.svc[x].IsStartPinned() ==> x in v.prop
    ensures Order(g, v) && StopRel(g, w, v, x)
  {
    hide Order, OrderOff, StopRel, Graph.Valid;
    Touch(g, w, v, x);
    Close(g, v, x);
    StopOne(g, w, v, x);
  }

  // The messages of a service that has had requirements given back: when the last one goes, and it is not pinned, it is to
  // release its dependencies, unless it has yet to require them
  predicate Given(a: Service, b: Service) {
    if GaveLast(a, b) then
      !b.prop.require && b.prop.release == !a.prop.require
    else b.prop.require == a.prop.require && b.prop.release == a.prop.release
  }

  predicate GaveLast(a: Service, b: Service) {
    b.requiredBy < a.requiredBy && b.requiredBy == 0 && !a.IsStartPinned()
  }

  lemma GivenTrans(a: Service, b: Service, c: Service)
    requires Given(a, b) && Given(b, c) && 0 <= c.requiredBy <= b.requiredBy <= a.requiredBy && b.IsStartPinned() == a.IsStartPinned()
    ensures Given(a, c)
  {
  }

  // nothing more is given back
  lemma GivenSame(a: Service, b: Service, c: Service)
    requires Given(a, b) && c.requiredBy == b.requiredBy && c.prop == b.prop
    ensures Given(a, c)
    ensures forall d: Service :: Given(c, d) && d.requiredBy == c.requiredBy ==> Given(a, d)
  {
  }

  lemma GivenSince(a: Service, b: Service, c: Service)
    requires b.requiredBy == a.requiredBy && b.prop == a.prop && b.IsStartPinned() == a.IsStartPinned()
    ensures Given(a, c) <==> Given(b, c)
  {
  }

  lemma GivenOnce(s: Service)
    ensures Given(s, Released(s)) && Given(s, s)
  {
  }

  lemma CountAt(g: Graph, w: World, x: nat)
    requires Shape(g, w) && Order(g, w) && x < |w.svc|
    ensures w.svc[x].requiredBy >= 0
  {
    assert EntryAt(w, x, 0);
  }

  // ---- do_stop(), step by step ----

  // x keeps all but its requirements, and with them it may cease to be wanted
  predicate SameButReleased(a: Service, b: Service) {
    && b.state == a.state && b.waitingForDeps == a.waitingForDeps && b.startExplicit == a.startExplicit
    && b.inUserRestart == a.inUserRestart && b.forceStop == a.forceStop && b.pins == a.pins && b.prop.stop == a.prop.stop
    && (a.desired == Stopped ==> b.desired == Stopped)
    && b.requiredBy <= a.requiredBy && (b.requiredBy == a.requiredBy ==> b.desired == a.desired)
  }

  ghost predicate ActivationDropped(a: World, b: World, x: nat, restart: bool) {
    && x < |a.svc| == |b.svc| && ButFor(a.svc, b.svc, x) && b.lnk == a.lnk
    && SameButReleased(a.svc[x].(inUserRestart := false, startExplicit := a.svc[x].startExplicit && restart), b.svc[x])
    && (restart || !a.svc[x].startExplicit ==> b == a.(svc := a.svc[x := a.svc[x].(inUserRestart := false)]))
  }

  ghost predicate StoppingEntered(a: World, b: World, x: nat, allDepsStopped: bool) {
    && x < |a.svc| == |b.svc|
    && (if a.svc[x].state == Stopped || a.svc[x].state == Stopping then b == a
        else if MayStop(a.svc[x]) then
          b == a.(svc := a.svc[x := a.svc[x].(state := Stopping, waitingForDeps := !allDepsStopped)],
                  trans := a.trans + if allDepsStopped then {x} else {})
        else
          && ButFor(a.svc, b.svc, x) && b.lnk == a.lnk
          && b.svc[x] == a.svc[x].(state := b.svc[x].state, waitingForDeps := b.svc[x].waitingForDeps)
          && (b.svc[x].waitingForDeps ==> b.svc[x].state == Stopping && !allDepsStopped))
  }

  // the first n dependents of x that are hard have stopped
  ghost predicate NoneHeldBack(g: Graph, w: World, x: nat, n: nat) {
    && x < |g.dependents| && n <= |g.dependents[x]|
    && forall i {:trigger g.dependents[x][i]} :: 0 <= i < n ==> !HeldBackBy(g, w, x, g.dependents[x][i])
  }

  lemma NotHeldBack(g: Graph, w: World, x: nat)
    requires Order(g, w) && Shape(g, w) && x < |w.svc| && NoneHeldBack(g, w, x, |g.dependents[x]|)
    ensures !HeldBack(g, w, x)
  {
    forall l: nat ensures !HeldBackBy(g, w, x, l) {
      if l < |g.from| && g.to[l] == x {
        assert l in g.dependents[x];
      }
    }
  }

  // stop_dependents(), one link: a hard dependent is told, a soft link is broken
  ghost predicate DependentTold(g: Graph, b: World, c: World, x: nat, l: nat, forRestart: bool, restartDeps: bool) {
    && StopRel(g, b, c, x) && x < |b.svc| && l < |b.lnk| && g.from[l] < |b.svc| && SameButReleased(b.svc[x], c.svc[x])
    && (forRestart ==> c.svc[x] == b.svc[x])
    && var f := g.from[l];
       if g.IsHard(l, b.lnk[l]) then
         && PassedOn(b.svc[f], c.svc[f], b.svc[x].forceStop, b.svc[x].desired == Stopped)
         && (b.svc[x].desired != Stopped ==>
               ButFor(b.svc, c.svc, f) && c.svc[f].state == b.svc[f].state && (b.svc[f].inUserRestart ==> c.svc[f].inUserRestart))
         && (b.svc[x].desired != Stopped && restartDeps ==> RestartsWith(b.svc[f], c.svc[f]))
         && (b.svc[x].desired == Stopped && !b.svc[x].forceStop && (b.svc[f].state == Stopped || b.svc[f].desired == Stopped) ==> c == b)
       else
         if forRestart then c == b else !c.lnk[l].waitingOn && !c.lnk[l].holdingAcq
  }

  ghost predicate SameStates(a: seq<Service>, b: seq<Service>) {
    |a| == |b| && forall s {:trigger b[s]} :: 0 <= s < |a| ==> b[s].state == a[s].state
  }

  // ... and the first n of them
  ghost predicate DependentsTold(g: Graph, a: World, b: World, x: nat, n: nat, forRestart: bool, restartDeps: bool, allDepsStopped: bool) {
    && StopRel(g, a, b, x) && x < |a.svc| && SameButReleased(a.svc[x], b.svc[x])
    && (forRestart ==> b.svc[x] == a.svc[x])
    && (!forRestart ==> AllBroken(g, b, x, n))
    && AllPassedOn(g, a, b, x, n, a.svc[x].forceStop, a.svc[x].desired == Stopped)
    && (restartDeps && a.svc[x].desired != Stopped ==> SameStates(a.svc, b.svc) && AllRestarted(g, a, b, x, n))
    && (if allDepsStopped then NoneHeldBack(g, a, x, n) else HeldBack(g, b, x))
    && (Calm(g, a, x) ==> b == a)
  }

  lemma NoDependentsTold(g: Graph, w: World, x: nat, forRestart: bool, restartDeps: bool)
    requires Shape(g, w) && x < |g.dependents|
    ensures DependentsTold(g, w, w, x, 0, forRestart, restartDeps, true)
  {
    StopRefl(g, w, x);
  }

  lemma DependentsToldMore(g: Graph, a: World, b: World, c: World, x: nat, i: nat, forRestart: bool, restartDeps: bool, all: bool, allMore: bool)
    requires DependentsTold(g, a, b, x, i, forRestart, restartDeps, all) && i < |g.dependents[x]| && Shape(g, a) && Order(g, a)
    requires DependentTold(g, b, c, x, g.dependents[x][i], forRestart, restartDeps) && (restartDeps ==> forRestart)
    requires var l := g.dependents[x][i];
      && l < |a.lnk| && g.from[l] < |a.svc| && g.to[l] == x && g.from[l] != x
      && (allMore <==> all && !(g.IsHard(l, b.lnk[l]) && !b.svc[g.from[l]].IsFundamentallyStopped()))
    ensures DependentsTold(g, a, c, x, i + 1, forRestart, restartDeps, allMore)
  {
    hide Order, StopRel, AllBroken, AllPassedOn, AllRestarted, NoneHeldBack, HeldBack, Calm, PassedOn, RestartsWith, SvcStop, Told, LnkStop, ButFor;
    var l := g.dependents[x][i];
    var f, forced, unwanted := g.from[l], a.svc[x].forceStop, a.svc[x].desired == Stopped;
    StopLinkAt(g, a, b, x, l);
    StopAt(g, a, b, x, f);
    StopLinkAt(g, b, c, x, l);
    StopAt(g, b, c, x, f);
    StopTrans(g, a, b, c, x);
    DependentDone(g, a, b, c, x, i, all, allMore);
    AllPassedOnStays(g, a, b, c, x, x, i, forced, unwanted);
    if g.IsHard(l, a.lnk[l]) {
      assert b.svc[x].forceStop == forced;
      assert g.IsHard(l, b.lnk[l]);
      assert PassedOn(b.svc[f], c.svc[f], b.svc[x].forceStop, b.svc[x].desired == Stopped);
      PassedOnSince(a.svc[f], b.svc[f], c.svc[f], forced, unwanted, b.svc[x].desired == Stopped);
    }
    AllPassedOnMore(g, a, c, x, i, forced, unwanted);
    if !forRestart {
      AllBrokenStays(g, b, c, x, x, i);
      AllBrokenMore(g, c, x, i);
    }
    if restartDeps && !unwanted {
      RestartedMore(g, a, b, c, x, i);
    }
    if Calm(g, a, x) {
      CalmAt(g, a, x, i);
    }
  }

  lemma RestartedMore(g: Graph, a: World, b: World, c: World, x: nat, i: nat)
    requires SameStates(a.svc, b.svc) && AllRestarted(g, a, b, x, i) && i < |g.dependents[x]| && x < |a.svc|
    requires DependentTold(g, b, c, x, g.dependents[x][i], true, true) && b.svc[x].desired != Stopped
    requires var l := g.dependents[x][i]; l < |a.lnk| && g.from[l] < |a.svc| && g.IsHard(l, a.lnk[l]) == g.IsHard(l, b.lnk[l])
    ensures SameStates(a.svc, c.svc) && AllRestarted(g, a, c, x, i + 1)
  {
    hide AllRestarted, Told, KeepsReady;
    var f := g.from[g.dependents[x][i]];
    assert b.svc[f].state == a.svc[f].state;
    forall s | 0 <= s < |a.svc| ensures c.svc[s].state == a.svc[s].state {
      assert b.svc[s].state == a.svc[s].state;
      assert g.IsHard(g.dependents[x][i], b.lnk[g.dependents[x][i]]) && s != f ==> c.svc[s] == b.svc[s];
    }
    StopAt(g, b, c, x, f);
    AllRestartedMore(g, a, b, c, x, i, f);
  }

  lemma RestartsSince(a: Service, b: Service, c: Service)
    requires b.state == a.state
    ensures RestartsWith(b, c) ==> RestartsWith(a, c)
  {
  }

  lemma ReleasedSame(s: Service)
    ensures SameButReleased(s, Released(s)) && SameButReleased(s, s)
  {
  }

  lemma CalmAt(g: Graph, w: World, x: nat, i: nat)
    requires Order(g, w) && Shape(g, w) && x < |w.svc| && i < |g.dependents[x]|
    ensures var l := g.dependents[x][i];
      && l < |w.lnk| && g.from[l] < |w.svc|
      && (Calm(g, w, x) ==>
            && g.IsHard(l, w.lnk[l]) && (w.svc[g.from[l]].state == Stopped || w.svc[g.from[l]].desired == Stopped)
            && !w.svc[x].forceStop && w.svc[x].desired == Stopped)
  {
    g.DependentAt(x, i);
    g.Ends(g.dependents[x][i]);
  }

  // one dependent has been looked at: all says whether those before had stopped, and allMore whether it has, too
  lemma DependentDone(g: Graph, a: World, b: World, c: World, x: nat, i: nat, all: bool, allMore: bool)
    requires StopRel(g, a, b, x) && StopRel(g, b, c, x) && i < |g.dependents[x]|
    requires var l := g.dependents[x][i];
      && l < |a.lnk| && g.from[l] < |a.svc| && g.to[l] == x
      && (allMore <==> all && !(g.IsHard(l, b.lnk[l]) && !b.svc[g.from[l]].IsFundamentallyStopped()))
    requires if all then NoneHeldBack(g, a, x, i) else HeldBack(g, b, x)
    ensures if allMore then NoneHeldBack(g, a, x, i + 1) else HeldBack(g, c, x)
  {
    var l := g.dependents[x][i];
    StopLinkAt(g, a, b, x, l);
    StopAt(g, a, b, x, g.from[l]);
    if !allMore {
      if all {
        assert HeldBackBy(g, b, x, l);
      }
      HeldBackStays(g, b, c, x, x);
    }
  }

  // do_stop() by its steps: explicit activation, dependents, state
  lemma StopIsDone(g: Graph, a: World, w1: World, w2: World, b: World, x: nat, withRestart: bool, restart: bool, allDepsStopped: bool)
    requires Shape(g, a) && Order(g, a) && Shape(g, b) && x < |a.svc| && !a.svc[x].IsStartPinned()
    requires Shape(g, w1) && Order(g, w1)
    requires StopRel(g, a, w1, x) && StopRel(g, w2, b, x)
    requires (withRestart ==> restart) && (restart && !withRestart ==> a.svc[x].desired == Started)
    requires ActivationDropped(a, w1, x, restart)
    requires DependentsTold(g, w1, w2, x, |g.dependents[x]|, restart, withRestart, allDepsStopped)
    requires StoppingEntered(w2, b, x, allDepsStopped)
    ensures StopDone(g, a, b, x, withRestart, restart)
    ensures StopRel(g, a, b, x)
  {
    hide Order, StopRel, AllBroken, AllPassedOn, AllRestarted, NoneHeldBack, HeldBack, HeldBackBy, Calm;
    if allDepsStopped {
      NotHeldBack(g, w1, x);
    }
    var n, forced := |g.dependents[x]|, a.svc[x].forceStop;
    StopTrans(g, a, w1, w2, x);
    StopTrans(g, a, w2, b, x);
    AllPassedOnSame(g, a, w1, w2, x, n, forced, a.svc[x].desired == Stopped, w1.svc[x].desired == Stopped);
    AllPassedOnStays(g, a, w2, b, x, x, n, forced, a.svc[x].desired == Stopped);
    if !restart {
      AllBrokenStays(g, w2, b, x, x, n);
    }
    if withRestart && a.svc[x].desired != Stopped {
      AllRestartedSame(g, a, w1, w2, b, x, n);
    }
    HeldBackSame(g, a, w1, x);
    HeldBackStays(g, w2, b, x, x);
    if Calm(g, a, x) {
      CalmExplicit(g, a, x);
      CalmSame(g, a, w1, x);
      if MayStop(a.svc[x]) {
        assert b.svc == StoppedCalmly(g, a, x).svc;
      }
    }
  }

  lemma CalmExplicit(g: Graph, w: World, x: nat)
    requires Calm(g, w, x)
    ensures !w.svc[x].startExplicit
  {
  }

  lemma CalmSame(g: Graph, a: World, b: World, x: nat)
    requires Calm(g, a, x) && ButFor(a.svc, b.svc, x) && b.lnk == a.lnk && b.svc[x] == a.svc[x].(inUserRestart := false)
    ensures Calm(g, b, x)
  {
    forall l: nat {:trigger g.to[l]} | l < |b.lnk| && l < |g.from| && l < |g.to| && l < |g.kind| && g.to[l] == x
      ensures g.IsHard(l, b.lnk[l]) && g.from[l] < |b.svc| && (b.svc[g.from[l]].state == Stopped || b.svc[g.from[l]].desired == Stopped)
    {
      assert g.IsHard(l, a.lnk[l]) && g.from[l] < |a.svc|;
    }
  }

  // start_check_dependencies(): x, STARTING, has to wait on its link l
  predicate MustWaitFor(g: Graph, svc: seq<Service>, x: nat, l: nat) {
    && l < |g.from| == |g.to| == |g.kind| && g.from[l] == x && g.to[l] < |svc|
    && !(g.IsOnlyOrdering(l) && svc[g.to[l]].state != Starting)
    && svc[g.to[l]].state != Started
  }

  // ... and its link l, which only orders, is held up by x starting
  predicate HeldUpBy(g: Graph, svc: seq<Service>, x: nat, l: nat) {
    && l < |g.from| == |g.to| == |g.kind| && g.to[l] == x && g.from[l] < |svc|
    && g.IsOnlyOrdering(l) && svc[g.from[l]].state == Starting
  }

  // the target of link l has been queued if it was waiting to stop
  predicate WokenToStop(g: Graph, svc: seq<Service>, queue: set<nat>, l: nat) {
    l < |g.to| && g.to[l] < |svc| && svc[g.to[l]].state == Stopping && svc[g.to[l]].waitingForDeps ==> g.to[l] in queue
  }

  // a dependent is at most told that it has failed to start
  ghost predicate OnlyFails(a: Service, b: Service) {
    && b == a.(prop := a.prop.(failure := b.prop.failure))
    && (a.prop.failure ==> b.prop.failure) && (b.prop.failure && !a.prop.failure ==> a.state == Starting)
  }

  ghost predicate AllFail(a: seq<Service>, b: seq<Service>, x: nat) {
    |a| == |b| && forall s {:trigger b[s]} :: 0 <= s < |a| && s != x ==> OnlyFails(a[s], b[s])
  }

  lemma AllFailSame(a: seq<Service>, b: seq<Service>, c: seq<Service>, x: nat)
    requires AllFail(a, b, x) && ButFor(b, c, x)
    ensures AllFail(a, c, x)
  {
    hide OnlyFails;
  }

  lemma AllFailSince(a: seq<Service>, b: seq<Service>, c: seq<Service>, x: nat)
    requires ButFor(a, b, x) && AllFail(b, c, x)
    ensures AllFail(a, c, x)
  {
    hide OnlyFails;
  }

  // dependents of a service that failed to start no longer hold it; hard ones that were starting fail in turn
  ghost predicate Failed(g: Graph, w: World, l: nat) {
    && l < |w.lnk| && Shape(g, w) && g.from[l] < |w.svc| && !w.lnk[l].holdingAcq
    && (g.kind[l] == Regular || g.kind[l] == Milestone ==>
          w.svc[g.from[l]].state == Starting ==> w.svc[g.from[l]].prop.failure)
    && (g.kind[l] != Regular && g.kind[l] != Milestone ==> !w.lnk[l].waitingOn)
  }

  ghost predicate AllFailed(g: Graph, w: World, x: nat, n: nat) {
    && x < |g.dependents| && n <= |g.dependents[x]|
    && forall i {:trigger g.dependents[x][i]} :: 0 <= i < n ==> Failed(g, w, g.dependents[x][i])
  }

  // a service that has failed is held by no link any more
  lemma NoneLeft(g: Graph, w: World, x: nat)
    requires Shape(g, w) && Order(g, w) && x < |w.svc| && AllFailed(g, w, x, |g.dependents[x]|) && !w.svc[x].startExplicit
    ensures w.svc[x].requiredBy == w.notes[x].surplus
  {
    assert EntryAt(w, x, 0);
    TiesExact(g, w, x);
    assert w.ties.held[x] == {} by {
      forall l | 0 <= l < |w.lnk| && g.to[l] == x ensures !w.lnk[l].holdingAcq {
        assert l in g.dependents[x];
        var i :| 0 <= i < |g.dependents[x]| && g.dependents[x][i] == l;
        assert Failed(g, w, g.dependents[x][i]);
      }
    }
  }

  lemma SurplusAtMost(g: Graph, w: World, x: nat)
    requires Shape(g, w) && Order(g, w) && x < |w.svc|
    ensures w.svc[x].requiredBy >= w.notes[x].surplus
  {
    assert EntryAt(w, x, 0);
  }

  lemma AllFailRefl(a: seq<Service>, x: nat)
    ensures AllFail(a, a, x)
  {
  }

  lemma AllFailTrans(a: seq<Service>, b: seq<Service>, c: seq<Service>, x: nat)
    requires AllFail(a, b, x) && AllFail(b, c, x)
    ensures AllFail(a, c, x)
  {
    forall s | 0 <= s < |a| && s != x ensures OnlyFails(a[s], c[s]) {
      assert OnlyFails(a[s], b[s]) && OnlyFails(b[s], c[s]);
    }
  }

  lemma AllFailedNone(g: Graph, w: World, x: nat)
    requires Shape(g, w) && x < |w.svc|
    ensures AllFailed(g, w, x, 0)
  {
  }

  lemma AllFailedMore(g: Graph, w: World, x: nat, i: nat)
    requires AllFailed(g, w, x, i) && i < |g.dependents[x]| && Failed(g, w, g.dependents[x][i])
    ensures AllFailed(g, w, x, i + 1)
  {
    hide Failed;
  }

  lemma AllFailedSame(g: Graph, a: World, b: World, x: nat, n: nat)
    requires AllFailed(g, a, x, n) && Order(g, a) && Shape(g, a) && Shape(g, b) && x < |a.svc|
    requires AllFail(a.svc, b.svc, x)
    requires Drops(a.lnk, b.lnk)
    ensures AllFailed(g, b, x, n)
  {
    forall i | 0 <= i < n ensures g.dependents[x][i] < |g.from| && g.from[g.dependents[x][i]] != x && g.to[g.dependents[x][i]] == x {
      g.DependentAt(x, i);
      g.Ends(g.dependents[x][i]);
    }
  }

  // the link no longer waits, and if it did its dependent is queued to look again
  ghost predicate ToldStarted(g: Graph, before: seq<Link>, w: World, l: nat) {
    && Shape(g, w) && l < |w.lnk| == |before| && g.from[l] < |w.svc| && !w.lnk[l].waitingOn
    && (before[l].waitingOn && w.svc[g.from[l]].waitingForDeps ==>
          w.svc[g.from[l]].state == Starting || w.svc[g.from[l]].state == Started ==> g.from[l] in w.trans)
  }

  ghost predicate AllTold(g: Graph, before: seq<Link>, w: World, x: nat, n: nat) {
    && x < |g.dependents| && n <= |g.dependents[x]|
    && forall i {:trigger g.dependents[x][i]} :: 0 <= i < n ==> ToldStarted(g, before, w, g.dependents[x][i])
  }

  lemma AllToldNone(g: Graph, before: seq<Link>, w: World, x: nat)
    requires Shape(g, w) && x < |w.svc|
    ensures AllTold(g, before, w, x, 0)
  {
  }

  lemma AllToldMore(g: Graph, before: seq<Link>, a: World, b: World, x: nat, i: nat)
    requires AllTold(g, before, a, x, i) && Shape(g, b) && i < |g.dependents[x]|
    requires b.svc == a.svc && a.trans <= b.trans && Drops(before, a.lnk) && Drops(a.lnk, b.lnk)
    requires var l := g.dependents[x][i];
      && l < |a.lnk| && g.from[l] < |a.svc| && !b.lnk[l].waitingOn
      && (a.lnk[l].waitingOn ==> ToldStarted(g, a.lnk, b, l))
    requires a.lnk[g.dependents[x][i]] == before[g.dependents[x][i]] || g.dependents[x][i] in g.dependents[x][..i]
    ensures AllTold(g, before, b, x, i + 1)
  {
    var l := g.dependents[x][i];
    if l in g.dependents[x][..i] {
      var k :| 0 <= k < i && g.dependents[x][..i][k] == l;
      assert g.dependents[x][k] == l;
      assert ToldStarted(g, before, a, l);
    }
  }

  lemma AllToldSame(g: Graph, before: seq<Link>, a: World, b: World, x: nat, n: nat)
    requires AllTold(g, before, a, x, n) && Shape(g, b) && b.svc == a.svc && b.lnk == a.lnk && b.trans == a.trans
    ensures AllTold(g, before, b, x, n)
  {
  }

  // what bring_up() does: start at once, launch a process, fail, or fail after reporting success
  datatype BringUp = Up | Launched | Refused | Failing

  lemma WaitingExact(g: Graph, w: World, x: nat)
    requires OrderOff(g, w, x) && Shape(g, w) && x < |w.svc|
    ensures w.ties.waits[x] == {} <==> forall l :: 0 <= l < |w.lnk| && g.from[l] == x ==> !w.lnk[l].waitingOn
    ensures w.ties.waits[x] == {} <==> forall k :: 0 <= k < |g.dependsOn[x]| ==> g.dependsOn[x][k] < |w.lnk| && !w.lnk[g.dependsOn[x][k]].waitingOn
  {
    if w.ties.waits[x] != {} {
      var l :| l in w.ties.waits[x];
      assert g.from[l] == x && w.lnk[l].waitingOn && l in g.dependsOn[x];
    }
  }

  // the dependent at the other end of link l does not keep x from stopping
  predicate Settled(g: Graph, lnk: seq<Link>, l: nat) {
    l < |lnk| && l < |g.kind| && !(g.IsHard(l, lnk[l]) && lnk[l].holdingAcq && !lnk[l].waitingOn)
  }

  // execute_transition() goes on: every dependency has started, or no dependent is in the way
  ghost predicate CanProceed(g: Graph, svc: seq<Service>, lnk: seq<Link>, x: nat) {
    && x < |svc| && |lnk| == |g.from| == |g.to| == |g.kind|
    && (svc[x].state == Starting || svc[x].state == Stopping)
    && (svc[x].state == Starting ==> forall l :: 0 <= l < |lnk| && g.from[l] == x ==> !lnk[l].waitingOn)
    && (svc[x].state == Stopping ==> forall l :: 0 <= l < |lnk| && g.to[l] == x ==> Settled(g, lnk, l))
  }

  // require()
  predicate MustBeStarted(s: Service) {
    s.requiredBy == 0 && s.state != Starting && s.state != Started
  }

  function Required(s: Service): Service {
    s.(requiredBy := s.requiredBy + 1, prop := s.prop.(start := s.prop.start || MustBeStarted(s)))
  }

  // do_start(): the dependent at the other end of soft link l takes x up again
  predicate Reattaches(g: Graph, svc: seq<Service>, lnk: seq<Link>, x: nat, l: nat) {
    && l < |lnk| == |g.from| == |g.to| == |g.kind| && g.to[l] == x && g.from[l] < |svc|
    && !g.IsHard(l, lnk[l])
    && (svc[g.from[l]].state == Started || svc[g.from[l]].state == Starting)
  }

  // do_start(): the service is active and not in a stop that can be interrupted
  predicate CannotStartYet(s: Service) {
    s.state != Stopped && (s.pins.stopped || s.state != Stopping || !s.CanInterruptStop())
  }

  // stop(): explicit activation is withdrawn
  function Unmarked(s: Service, bringDown: bool): Service {
    var n := if s.startExplicit then s.requiredBy - 1 else s.requiredBy;
    s.(startExplicit := false, requiredBy := n, desired := if bringDown || n == 0 then Stopped else s.desired)
  }

  function MaskOf(s: Service): Mask {
    Mask(s.prop.require, s.prop.release, s.prop.failure, s.prop.start, s.prop.stop)
  }

  function Cleared(p: Props, done: Mask): Props {
    p.(require := p.require && !done.require, release := p.release && !done.release, failure := p.failure && !done.failure,
       start := p.start && !done.start, stop := p.stop && !done.stop)
  }

  function Without(m: Mask, done: Mask): Mask {
    Mask(m.require && !done.require, m.release && !done.release, m.failure && !done.failure, m.start && !done.start, m.stop && !done.stop)
  }

  // link l is one on which x acquires its target
  predicate Requires(g: Graph, x: nat, l: nat) {
    l < |g.from| == |g.to| == |g.kind| && g.from[l] == x && !g.IsOnlyOrdering(l)
  }

  // how many of the first n links of x require t
  function Wanting(g: Graph, x: nat, t: nat, n: nat): nat
    requires x < |g.dependsOn| && n <= |g.dependsOn[x]|
  {
    if n == 0 then 0
    else
      var l := g.dependsOn[x][n - 1];
      Wanting(g, x, t, n - 1) + if Requires(g, x, l) && g.to[l] == t then 1 else 0
  }

  // ... and held it already
  function Again(g: Graph, lnk: seq<Link>, x: nat, t: nat, n: nat): nat
    requires x < |g.dependsOn| && n <= |g.dependsOn[x]|
  {
    if n == 0 then 0
    else
      var l := g.dependsOn[x][n - 1];
      Again(g, lnk, x, t, n - 1) + if Requires(g, x, l) && g.to[l] == t && l < |lnk| && lnk[l].holdingAcq then 1 else 0
  }

  // require(), n times: the first time tells the service to start, if it must be started
  function RequiredTimes(s: Service, n: nat): Service {
    if n == 0 then s else s.(requiredBy := s.requiredBy + n, prop := s.prop.(start := s.prop.start || MustBeStarted(s)))
  }

  predicate ToldToStart(g: Graph, svc: seq<Service>, x: nat, t: nat, n: nat)
    requires x < |g.dependsOn| && n <= |g.dependsOn[x]|
  {
    t < |svc| && MustBeStarted(svc[t]) && Wanting(g, x, t, n) > 0
  }

  // each dependency is required once for each of the first n links to it
  ghost predicate AllRequired(g: Graph, a: seq<Service>, b: seq<Service>, x: nat, n: nat) {
    && |a| == |b| && x < |g.dependsOn| && n <= |g.dependsOn[x]|
    && forall s {:trigger b[s]} :: 0 <= s < |a| ==> b[s] == RequiredTimes(a[s], Wanting(g, x, s, n))
  }

  // nothing will ever give back what was acquired through links that held already
  ghost predicate AllAgain(g: Graph, lnk: seq<Link>, a: seq<Note>, b: seq<Note>, x: nat, n: nat) {
    && |a| == |b| && x < |g.dependsOn| && n <= |g.dependsOn[x]|
    && forall s {:trigger b[s]} :: 0 <= s < |a| ==> b[s] == a[s].(surplus := a[s].surplus + Again(g, lnk, x, s, n))
  }

  // one link more
  lemma RequireMore(g: Graph, l0: seq<Link>, a: World, b: World, c: World, x: nat, i: nat)
    requires AllRequired(g, a.svc, b.svc, x, i) && AllAgain(g, l0, a.notes, b.notes, x, i)
    requires i < |g.dependsOn[x]| && forall s :: s in b.prop <==> s in a.prop || ToldToStart(g, a.svc, x, s, i)
    requires Shape(g, a) && Shape(g, b)
    requires var l := g.dependsOn[x][i];
      && l < |g.to| && g.to[l] < |a.svc| && l < |l0| && a.svc[g.to[l]].requiredBy >= 0
      && if Requires(g, x, l) then
           && c.svc == b.svc[g.to[l] := Required(b.svc[g.to[l]])]
           && c.prop == b.prop + (if MustBeStarted(b.svc[g.to[l]]) then {g.to[l]} else {})
           && c.notes == if l0[l].holdingAcq then b.notes[g.to[l] := b.notes[g.to[l]].(surplus := b.notes[g.to[l]].surplus + 1)] else b.notes
         else c.svc == b.svc && c.prop == b.prop && c.notes == b.notes
    ensures AllRequired(g, a.svc, c.svc, x, i + 1) && AllAgain(g, l0, a.notes, c.notes, x, i + 1)
    ensures forall s :: s in c.prop <==> s in a.prop || ToldToStart(g, a.svc, x, s, i + 1)
  {
    hide MustBeStarted, Required;
    var l := g.dependsOn[x][i];
    assert b.svc[g.to[l]] == RequiredTimes(a.svc[g.to[l]], Wanting(g, x, g.to[l], i));
    RequiredOnceMore(a.svc[g.to[l]], Wanting(g, x, g.to[l], i));
    hide RequiredTimes;
    forall s | 0 <= s < |a.svc| ensures c.svc[s] == RequiredTimes(a.svc[s], Wanting(g, x, s, i + 1)) {
      assert b.svc[s] == RequiredTimes(a.svc[s], Wanting(g, x, s, i));
    }
    forall s | 0 <= s < |a.notes| ensures c.notes[s] == a.notes[s].(surplus := a.notes[s].surplus + Again(g, l0, x, s, i + 1)) {
      assert b.notes[s] == a.notes[s].(surplus := a.notes[s].surplus + Again(g, l0, x, s, i));
    }
  }

  lemma RequiredOnceMore(s: Service, n: nat)
    requires s.requiredBy >= 0
    ensures Required(RequiredTimes(s, n)) == RequiredTimes(s, n + 1)
    ensures MustBeStarted(RequiredTimes(s, n)) <==> n == 0 && MustBeStarted(s)
  {
  }

  lemma CountsNonnegative(g: Graph, w: World)
    requires Shape(g, w) && Order(g, w)
    ensures forall s :: 0 <= s < |w.svc| ==> w.svc[s].requiredBy >= 0
  {
    forall s | 0 <= s < |w.svc| ensures w.svc[s].requiredBy >= 0 {
      assert EntryAt(w, s, 0);
    }
  }

  // messages dealt with by x, and no one else's
  ghost predicate MaskDone(a: seq<Note>, b: seq<Note>, x: nat, done: Mask) {
    && x < |a| == |b| && b[x].mask == Without(a[x].mask, done)
    && forall s {:trigger b[s]} :: 0 <= s < |a| && s != x ==> b[s].mask == a[s].mask
  }

  // one of the first n links of x is hard and leads to s, whose flag is not d
  ghost predicate TellsBy(g: Graph, svc: seq<Service>, lnk: seq<Link>, x: nat, d: bool, s: nat, n: nat) {
    && s < |svc| && svc[s].pins.dept != d && x < |g.dependsOn| && n <= |g.dependsOn[x]|
    && exists i {:trigger g.dependsOn[x][i]} :: 0 <= i < n && g.dependsOn[x][i] < |lnk| == |g.to| == |g.kind|
         && g.to[g.dependsOn[x][i]] == s && g.IsHard(g.dependsOn[x][i], lnk[g.dependsOn[x][i]])
  }

  ghost predicate Marked(a: Service, b: Service, told: bool) {
    b == a.(prop := a.prop.(pinDpt := a.prop.pinDpt || told))
  }

  lemma MarkedMore(a: Service, b: Service, c: Service, told: bool, now: bool)
    requires Marked(a, b, told) && c == if now then b.(prop := b.prop.(pinDpt := true)) else b
    ensures Marked(a, c, told || now)
  {
  }

  // the services x tells are marked and queued, and nothing else changes
  ghost predicate PinsPassed(g: Graph, a: seq<Service>, b: seq<Service>, lnk: seq<Link>, q: set<nat>, r: set<nat>, x: nat, d: bool) {
    && |a| == |b|
    && (forall s :: 0 <= s < |b| ==> Marked(a[s], b[s], Tells(g, a, lnk, x, d, s)))
    && (forall s :: s in r <==> s in q || Tells(g, a, lnk, x, d, s))
  }

  ghost predicate PinsPassedBy(g: Graph, a: seq<Service>, b: seq<Service>, lnk: seq<Link>, q: set<nat>, r: set<nat>, x: nat, d: bool, n: nat) {
    && |a| == |b|
    && (forall s :: 0 <= s < |b| ==> Marked(a[s], b[s], TellsBy(g, a, lnk, x, d, s, n)))
    && (forall s :: s in r <==> s in q || TellsBy(g, a, lnk, x, d, s, n))
  }

  lemma PinsPassedNone(g: Graph, a: seq<Service>, lnk: seq<Link>, q: set<nat>, x: nat, d: bool)
    ensures PinsPassedBy(g, a, a, lnk, q, q, x, d, 0)
  {
  }

  lemma PinsPassedAt(g: Graph, a: seq<Service>, b: seq<Service>, lnk: seq<Link>, q: set<nat>, r: set<nat>, x: nat, d: bool, n: nat)
    requires PinsPassedBy(g, a, b, lnk, q, r, x, d, n)
    ensures |a| == |b| && forall s :: 0 <= s < |b| ==> b[s].pins == a[s].pins
  {
    hide TellsBy;
  }

  lemma PinsPassedMore(g: Graph, a: seq<Service>, b: seq<Service>, c: seq<Service>, lnk: seq<Link>, q: set<nat>, r: set<nat>, t: set<nat>, x: nat, d: bool, i: nat)
    requires PinsPassedBy(g, a, b, lnk, q, r, x, d, i) && x < |g.dependsOn| && i < |g.dependsOn[x]|
    requires g.dependsOn[x][i] < |lnk| == |g.to| == |g.kind| && g.to[g.dependsOn[x][i]] < |a|
    requires var y := g.to[g.dependsOn[x][i]];
      if g.IsHard(g.dependsOn[x][i], lnk[g.dependsOn[x][i]]) && a[y].pins.dept != d then
        ButFor(b, c, y) && c[y] == b[y].(prop := b[y].prop.(pinDpt := true)) && t == r + {y}
      else c == b && t == r
    ensures PinsPassedBy(g, a, c, lnk, q, t, x, d, i + 1)
  {
    var y := g.to[g.dependsOn[x][i]];
    forall s: nat ensures TellsBy(g, a, lnk, x, d, s, i + 1) <==>
        TellsBy(g, a, lnk, x, d, s, i) || (s == y && g.IsHard(g.dependsOn[x][i], lnk[g.dependsOn[x][i]]) && a[y].pins.dept != d) {
    }
    hide TellsBy, Marked;
    forall s | 0 <= s < |c| ensures Marked(a[s], c[s], TellsBy(g, a, lnk, x, d, s, i + 1)) {
      MarkedMore(a[s], b[s], c[s], TellsBy(g, a, lnk, x, d, s, i), s == y && g.IsHard(g.dependsOn[x][i], lnk[g.dependsOn[x][i]]) && a[y].pins.dept != d);
    }
  }

  lemma PinsPassedAll(g: Graph, a: seq<Service>, b: seq<Service>, lnk: seq<Link>, q: set<nat>, r: set<nat>, x: nat, d: bool)
    requires x < |g.dependsOn| && PinsPassedBy(g, a, b, lnk, q, r, x, d, |g.dependsOn[x]|)
    requires forall s: nat :: Tells(g, a, lnk, x, d, s) <==> TellsBy(g, a, lnk, x, d, s, |g.dependsOn[x]|)
    ensures PinsPassed(g, a, b, lnk, q, r, x, d)
  {
    hide TellsBy, Tells;
  }

  // only the pins of x and pin messages change
  ghost predicate OnlyPinOf(a: seq<Service>, b: seq<Service>, x: nat) {
    && |a| == |b|
    && forall s {:trigger b[s]} :: 0 <= s < |b| ==>
         b[s] == a[s].(pins := if s == x then b[s].pins else a[s].pins, prop := a[s].prop.(pinDpt := b[s].prop.pinDpt))
  }

  ghost predicate NonePinning(g: Graph, svc: seq<Service>, lnk: seq<Link>, x: nat, n: nat) {
    && x < |g.dependents| && n <= |g.dependents[x]|
    && forall i {:trigger g.dependents[x][i]} :: 0 <= i < n ==> !Pinning(g, svc, lnk, g.dependents[x][i])
  }

  lemma PinningFound(g: Graph, svc: seq<Service>, lnk: seq<Link>, x: nat, l: nat)
    requires l < |lnk| && l < |g.to| && g.to[l] == x && Pinning(g, svc, lnk, l)
    ensures DependentPinned(g, svc, lnk, x)
  {
  }

  lemma NotPinned(g: Graph, w: World, x: nat)
    requires Order(g, w) && Shape(g, w) && x < |w.svc| && NonePinning(g, w.svc, w.lnk, x, |g.dependents[x]|)
    ensures !DependentPinned(g, w.svc, w.lnk, x)
  {
    forall l | 0 <= l < |w.lnk| && g.to[l] == x ensures !Pinning(g, w.svc, w.lnk, l) {
      assert l in g.dependents[x];
    }
  }

  lemma AlreadyUpToDate(g: Graph, w: World, x: nat)
    requires x < |w.svc| && AllUpToDateBut(g, w.svc, w.lnk, w.prop, x)
    requires w.svc[x].pins.dept <==> DependentPinned(g, w.svc, w.lnk, x)
    ensures AllUpToDate(g, w.svc, w.lnk, w.prop)
  {
  }

  // x is not among the services it tells, so its own flag makes no difference to who they are
  lemma TellsOthers(g: Graph, w: World, b: seq<Service>, x: nat, d: bool)
    requires g.Valid() && Shape(g, w) && ButFor(w.svc, b, x)
    ensures forall s: nat :: Tells(g, w.svc, w.lnk, x, d, s) <==> Tells(g, b, w.lnk, x, d, s)
  {
    forall l | 0 <= l < |w.lnk| && g.from[l] == x ensures g.to[l] != x {
      g.Ends(l);
    }
  }

  lemma TellsByAll(g: Graph, w: World, svc: seq<Service>, x: nat, d: bool, s: nat)
    requires OrderOff(g, w, x) && Shape(g, w) && x < |w.svc| == |svc|
    ensures Tells(g, svc, w.lnk, x, d, s) <==> TellsBy(g, svc, w.lnk, x, d, s, |g.dependsOn[x]|)
  {
    if Tells(g, svc, w.lnk, x, d, s) {
      var l :| 0 <= l < |w.lnk| && g.from[l] == x && g.to[l] == s && g.IsHard(l, w.lnk[l]);
      assert l in g.dependsOn[x];
    }
    if TellsBy(g, svc, w.lnk, x, d, s, |g.dependsOn[x]|) {
      var i :| 0 <= i < |g.dependsOn[x]| && g.dependsOn[x][i] < |w.lnk| && g.to[g.dependsOn[x][i]] == s && g.IsHard(g.dependsOn[x][i], w.lnk[g.dependsOn[x][i]]);
      g.DependsOnAt(x, i);
    }
  }

  // nothing but pins to pass on
  predicate OnlyPins(s: Service) {
    MaskOf(s) == NOTHING
  }

  // taking x off the queue puts no flag but its own out of date, and that only if it was told to look again
  lemma TakenUpToDate(g: Graph, a: World, b: World, x: nat)
    requires AllUpToDate(g, a.svc, a.lnk, a.prop) && b.svc == a.svc && b.lnk == a.lnk && b.prop == a.prop - {x}
    ensures AllUpToDateBut(g, b.svc, b.lnk, b.prop, x)
    ensures x < |b.svc| && !b.svc[x].prop.pinDpt ==> AllUpToDate(g, b.svc, b.lnk, b.prop)
  {
    forall s | 0 <= s < |b.svc| && (s != x || !b.svc[x].prop.pinDpt) ensures UpToDate(g, b.svc, b.lnk, b.prop, s) {
      assert UpToDate(g, a.svc, a.lnk, a.prop, s);
    }
  }

  lemma JoinedNone(g: Graph, q: set<nat>, x: nat, n: nat)
    requires x < |g.dependsOn| && n <= |g.dependsOn[x]|
    ensures Joined(g, q, q, x, n)
  {
  }

  lemma JoinedTells(g: Graph, w: World, r: set<nat>, x: nat, d: bool)
    requires g.Valid() && |w.lnk| == |g.from| && x < |g.rank|
    requires forall s :: s in r <==> s in w.prop || Tells(g, w.svc, w.lnk, x, d, s)
    ensures Joined(g, w.prop, r, x, |g.dependsOn[x]|)
  {
    forall t | t in r && t !in w.prop ensures exists i :: 0 <= i < |g.dependsOn[x]| && g.dependsOn[x][i] < |g.to| && g.to[g.dependsOn[x][i]] == t {
      var l :| 0 <= l < |w.lnk| && g.from[l] == x && g.to[l] == t && g.IsHard(l, w.lnk[l]);
      assert l in g.dependsOn[x];
      var i :| 0 <= i < |g.dependsOn[x]| && g.dependsOn[x][i] == l;
    }
  }

  ghost predicate AllDone(notes: seq<Note>) {
    forall s :: 0 <= s < |notes| ==> notes[s].mask == NOTHING
  }

  ghost predicate SameMasks(a: seq<Note>, b: seq<Note>) {
    |a| == |b| && forall s {:trigger b[s]} :: 0 <= s < |a| ==> b[s].mask == a[s].mask
  }

  lemma DoneSame(a: seq<Note>, b: seq<Note>)
    requires AllDone(a) && SameMasks(a, b)
    ensures AllDone(b)
  {
    forall s | 0 <= s < |b| ensures b[s].mask == NOTHING {
      assert b[s].mask == a[s].mask;
    }
  }

  lemma DoneByPass(a: seq<Note>, b: seq<Note>, x: nat)
    requires AllDone(a) && x < |a| == |b| && b[x].mask == NOTHING
    requires forall s {:trigger b[s]} :: 0 <= s < |a| && s != x ==> b[s].mask == a[s].mask
    ensures AllDone(b)
  {
    forall s | 0 <= s < |b| ensures b[s].mask == NOTHING {
      assert s != x ==> b[s].mask == a[s].mask;
    }
  }

  lemma DoneAt(a: seq<Note>, x: nat)
    requires AllDone(a) && x < |a|
    ensures a[x].mask == NOTHING
  {
  }

  // no started service has a stop outstanding that only a pin of its dependents holds back
  ghost predicate NoStopDue(svc: seq<Service>) {
    forall s :: 0 <= s < |svc| && svc[s].state == Started && MustStop(svc[s]) ==> svc[s].pins.started
  }

  // there is nothing to pass on but pins
  ghost predicate AllOnlyPins(svc: seq<Service>) {
    forall s :: 0 <= s < |svc| ==> OnlyPins(svc[s])
  }

  // only pins on account of dependents, and pin messages, differ
  ghost predicate OnlyDept(a: seq<Service>, b: seq<Service>) {
    && |a| == |b|
    && forall s {:trigger b[s]} :: 0 <= s < |b| ==>
         b[s] == a[s].(pins := a[s].pins.(dept := b[s].pins.dept), prop := a[s].prop.(pinDpt := b[s].prop.pinDpt))
  }

  lemma NoStopDueAt(svc: seq<Service>, x: nat)
    requires NoStopDue(svc) && AllOnlyPins(svc) && x < |svc|
    ensures OnlyPins(svc[x])
    ensures svc[x].state == Started && MustStop(svc[x]) ==> svc[x].pins.started
  {
  }

  lemma DeptRefl(a: seq<Service>)
    ensures OnlyDept(a, a)
  {
  }

  lemma DeptStep(a: seq<Service>, b: seq<Service>, c: seq<Service>, x: nat)
    requires OnlyDept(a, b) && OnlyPinOf(b, c, x) && x < |c| && c[x].pins == b[x].pins.(dept := c[x].pins.dept)
    requires NoStopDue(b) && AllOnlyPins(b)
    ensures OnlyDept(a, c) && NoStopDue(c) && AllOnlyPins(c)
  {
    forall s | 0 <= s < |c| ensures c[s].pins.started == b[s].pins.started && c[s].state == b[s].state && MustStop(c[s]) == MustStop(b[s]) {
    }
  }

  lemma NonePending(svc: seq<Service>, queue: set<nat>)
    requires queue == {}
    ensures forall t :: 0 <= t < |svc| ==> !Pending(svc, queue, t)
  {
  }

  lemma ChainsSame(g: Graph, a: seq<Service>, b: seq<Service>, lnk: seq<Link>, s: nat)
    requires OnlyDept(a, b)
    ensures PinnedFromAbove(g, a, lnk, s) <==> PinnedFromAbove(g, b, lnk, s)
  {
    forall p: seq<nat> ensures PinChain(g, a, lnk, p, s) <==> PinChain(g, b, lnk, p, s) {
      ChainSame(g, a, b, lnk, p, s);
    }
  }

  lemma {:induction false} ChainSame(g: Graph, a: seq<Service>, b: seq<Service>, lnk: seq<Link>, p: seq<nat>, s: nat)
    requires OnlyDept(a, b)
    ensures PinChain(g, a, lnk, p, s) <==> PinChain(g, b, lnk, p, s)
    decreases |p|
  {
    if |p| > 0 {
      var l := p[|p| - 1];
      if l < |lnk| == |g.from| {
        ChainSame(g, a, b, lnk, p[..|p| - 1], g.from[l]);
        assert g.from[l] < |a| ==> a[g.from[l]].pins.started == b[g.from[l]].pins.started;
      }
    }
  }

  lemma FailPins(g: Graph, a: World, b: World, x: nat)
    requires g.Valid() && Shape(g, a) && Shape(g, b) && AllUpToDate(g, a.svc, a.lnk, a.prop)
    requires AllFail(a.svc, b.svc, x) && LetGo(g.kind, a.lnk, b.lnk) && x < |a.svc|
    requires a.prop <= b.prop && JoinedAbove(g, a.prop, b.prop, x)
    requires b.svc[x].pins == a.svc[x].pins.(started := false) && b.svc[x].prop.pinDpt == a.svc[x].prop.pinDpt
    ensures AllUpToDate(g, b.svc, b.lnk, b.prop) <==> PinNotMissed(g, a, x)
  {
    forall s | 0 <= s < |a.svc| && s != x ensures b.svc[s].pins == a.svc[s].pins && b.svc[s].prop.pinDpt == a.svc[s].prop.pinDpt {
      assert OnlyFails(a.svc[s], b.svc[s]);
    }
    forall l | 0 <= l < |a.lnk| ensures g.IsHard(l, b.lnk[l]) == g.IsHard(l, a.lnk[l]) {
      assert LnkStop(g.kind[l], a.lnk[l], b.lnk[l]);
    }
    assert PinChange(g, a, b, x, false, false);
    FailedStartPins(g, a, b, x);
  }

  const IDLE := Service(Stopped, Stopped, 0, false, false, false, false, Pins(false, false, false), Props(false, false, false, false, false, false))

  datatype Event =
    | StartIt(x: nat) | StopIt(x: nat, bringDown: bool) | ForceIt(x: nat) | RestartIt(x: nat) | Attach(l: nat)
    | PinStarted(x: nat) | PinStopped(x: nat) | UnpinIt(x: nat)
    | IsUp(x: nat) | IsDown(x: nat) | NotUp(x: nat, immediateStop: bool) | Died(x: nat)
    | Process(x: nat, outcome: BringUp, downAtOnce: bool)

  lemma InitialOrder(g: Graph, w: World)
    requires g.Valid() && Shape(g, w) && w.prop == w.trans == {}
    requires forall s :: 0 <= s < |w.svc| ==> w.svc[s] == IDLE && w.notes[s] == Note(0, false, NOTHING)
    requires forall l :: 0 <= l < |w.lnk| ==> w.lnk[l] == Link(false, false)
    requires forall s :: 0 <= s < |w.svc| ==> w.ties.held[s] == {} && w.ties.waits[s] == {} && w.ties.waiters[s] == {}
    ensures Order(g, w)
  {
    assert Agree(g, w.lnk, w.ties);
    hide Graph.Valid, Holds, Waits;
  }

  lemma InitialPins(g: Graph, w: World)
    requires forall s :: 0 <= s < |w.svc| ==> w.svc[s] == IDLE
    ensures AllUpToDate(g, w.svc, w.lnk, w.prop)
  {
    forall s | 0 <= s < |w.svc| ensures UpToDate(g, w.svc, w.lnk, w.prop, s) {
    }
  }

  lemma RequiredCases(s: Service)
    ensures var t := s.(requiredBy := s.requiredBy + 1);
      if MustBeStarted(s) then Required(s) == t.(prop := t.prop.(start := true)) else Required(s) == t
    ensures MustBeStarted(s) <==> s.requiredBy + 1 == 1 && s.state != Starting && s.state != Started
  {
  }

  lemma RequiredInOrder(g: Graph, w: World, v: World, x: nat)
    requires Shape(g, w) && Order(g, w) && x < |w.svc| && Differs(w, v, x) && v.trans == w.trans && v.notes == w.notes
    requires v.svc[x] == Required(w.svc[x]) && (MustBeStarted(w.svc[x]) ==> x in v.prop)
    ensures Shape(g, v) && OrderOff(g, v, x) && EntryAt(v, x, 1)
  {
    hide Order, OrderOff, Graph.Valid;
    Open(g, w, x);
    Touch(g, w, v, x);
  }

  lemma ReleasedCases(s: Service)
    ensures var t := s.(requiredBy := s.requiredBy - 1);
      Released(s) ==
        if t.requiredBy != 0 then t
        else if s.IsStartPinned() then t.(desired := Stopped)
        else t.(desired := Stopped, prop := t.prop.(release := !t.prop.require, require := false))
  {
  }

  lemma RequiresAt(g: Graph, x: nat, i: nat)
    requires g.Valid() && x < |g.dependsOn| && i < |g.dependsOn[x]|
    ensures g.dependsOn[x][i] < |g.kind| && (Requires(g, x, g.dependsOn[x][i]) <==> !g.IsOnlyOrdering(g.dependsOn[x][i]))
  {
  }

  lemma RequiresListed(g: Graph, w: World, x: nat)
    requires Order(g, w) && Shape(g, w) && x < |w.svc|
    ensures forall l: nat :: Requires(g, x, l) ==> l < |w.lnk| && l in g.dependsOn[x]
  {
  }

  lemma ReattachesAt(g: Graph, svc: seq<Service>, lnk: seq<Link>, x: nat, l: nat)
    requires l < |lnk| == |g.from| == |g.to| == |g.kind| && g.to[l] == x && g.from[l] < |svc|
    ensures Reattaches(g, svc, lnk, x, l) <==>
              !g.IsHard(l, lnk[l]) && (svc[g.from[l]].state == Started || svc[g.from[l]].state == Starting)
  {
  }

  lemma ReattachesListed(g: Graph, w: World, svc: seq<Service>, lnk: seq<Link>, x: nat)
    requires Order(g, w) && Shape(g, w) && x < |w.svc| == |svc|
    requires forall s :: 0 <= s < |svc| ==> svc[s].state == w.svc[s].state
    ensures forall l: nat :: Reattaches(g, svc, lnk, x, l) ==> l in g.dependents[x]
    ensures forall l: nat :: Reattaches(g, svc, lnk, x, l) <==> Reattaches(g, w.svc, lnk, x, l)
  {
  }

  // x is marked, before its dependencies are told
  lemma PinThenPass(g: Graph, a: World, mid: seq<Service>, b: World, x: nat, d: bool)
    requires g.Valid() && Shape(g, a) && Shape(g, b) && x < |a.svc| && b.lnk == a.lnk
    requires ButFor(a.svc, mid, x) && mid[x] == a.svc[x].(pins := mid[x].pins)
    requires PinsPassed(g, mid, b.svc, a.lnk, a.prop, b.prop, x, d)
    ensures PinChange(g, a, b, x, d, true) && PinChange(g, a, b, x, false, false) && OnlyPinOf(a.svc, b.svc, x)
    ensures b.svc[x].pins == mid[x].pins
    ensures forall s :: s in b.prop <==> s in a.prop || Tells(g, a.svc, a.lnk, x, d, s)
  {
    hide Tells;
    TellsOthers(g, a, mid, x, d);
  }

  lemma PassThenPin(g: Graph, a: World, mid: seq<Service>, b: World, x: nat, d: bool)
    requires Shape(g, a) && Shape(g, b) && x < |a.svc| && b.lnk == a.lnk
    requires PinsPassed(g, a.svc, mid, a.lnk, a.prop, b.prop, x, d)
    requires ButFor(mid, b.svc, x) && b.svc[x] == mid[x].(pins := b.svc[x].pins)
    ensures PinChange(g, a, b, x, d, true) && PinChange(g, a, b, x, false, false) && OnlyPinOf(a.svc, b.svc, x)
    ensures mid[x].pins == a.svc[x].pins && a.prop <= b.prop
  {
    hide Tells, Marked;
    forall s | 0 <= s < |mid| ensures MarkedOnly(a.svc[s], mid[s], Tells(g, a.svc, a.lnk, x, d, s)) {
      MarkedIsOnly(a.svc[s], mid[s], Tells(g, a.svc, a.lnk, x, d, s));
    }
    forall s | 0 <= s < |a.svc|
      ensures b.svc[s] == a.svc[s].(pins := if s == x then b.svc[s].pins else a.svc[s].pins, prop := a.svc[s].prop.(pinDpt := b.svc[s].prop.pinDpt))
    {
      assert b.svc[s] == if s == x then mid[s].(pins := b.svc[s].pins) else mid[s];
    }
  }

  ghost predicate MarkedOnly(a: Service, b: Service, told: bool) {
    && b == a.(prop := a.prop.(pinDpt := b.prop.pinDpt))
    && b.pins == a.pins && (a.prop.pinDpt || told ==> b.prop.pinDpt)
  }

  lemma MarkedIsOnly(a: Service, b: Service, told: bool)
    requires Marked(a, b, told)
    ensures MarkedOnly(a, b, told)
  {
  }

  // x's own pin changes while a dependent keeps it pinned anyway
  lemma OwnPin(g: Graph, a: World, b: World, x: nat)
    requires Shape(g, a) && Shape(g, b) && x < |a.svc| && b == a.(svc := b.svc)
    requires ButFor(a.svc, b.svc, x) && b.svc[x] == a.svc[x].(pins := a.svc[x].pins.(started := b.svc[x].pins.started))
    requires a.svc[x].pins.dept
    ensures OnlyPinOf(a.svc, b.svc, x)
    ensures AllUpToDate(g, a.svc, a.lnk, a.prop) ==> AllUpToDate(g, b.svc, b.lnk, b.prop)
  {
    if AllUpToDate(g, a.svc, a.lnk, a.prop) {
      PinsUntouched(g, a, b, x, |a.svc|);
    }
  }
}
