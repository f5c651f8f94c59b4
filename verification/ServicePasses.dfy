// What one step of queue processing does, message by message, and what requests do: as relations between the worlds
// before and after, made up of those of single operations.
module ServicePasses {
  import opened ServiceRecords
  import opened ServiceBooks
  import opened ServiceStops
  import opened ServicePins
  import opened ServiceSteps

  // ---- starting ----

  function Wanted(s: Service): Service {
    s.(desired := Started)
  }

  ghost function With(w: World, x: nat, s: Service): World
    requires x < |w.svc|
  {
    w.(svc := w.svc[x := s])
  }

  ghost predicate Unhindered(g: Graph, svc: seq<Service>, x: nat) {
    forall l: nat :: !MustWaitFor(g, svc, x, l)
  }

  // x waits on all links that it has to wait on; those that only order wait on it
  ghost predicate WaitsSet(g: Graph, a: seq<Link>, svc: seq<Service>, b: seq<Link>, x: nat) {
    |a| == |b| && forall l {:trigger b[l]} :: 0 <= l < |b| ==>
      b[l] == a[l].(waitingOn := a[l].waitingOn || MustWaitFor(g, svc, x, l) || HeldUpBy(g, svc, x, l))
  }

  // soft dependents of x that are up hold it
  ghost predicate Reattached(g: Graph, a: World, lnk: seq<Link>, x: nat) {
    |lnk| == |a.lnk| && forall l {:trigger lnk[l]} :: 0 <= l < |lnk| ==>
      lnk[l] == a.lnk[l].(holdingAcq := a.lnk[l].holdingAcq || Reattaches(g, a.svc, a.lnk, x, l))
  }

  // initiate_start()
  ghost predicate Initiated(g: Graph, a: World, b: World, x: nat) {
    && x < |a.svc| && Shape(g, b) && b.notes == a.notes && b.prop == a.prop
    && b.svc == a.svc[x := a.svc[x].(state := Starting, waitingForDeps := true)]
    && WaitsSet(g, a.lnk, b.svc, b.lnk, x)
    && b.trans == a.trans + if Unhindered(g, b.svc, x) then {x} else {}
  }

  // do_start(), of a service that was stopped, before initiate_start()
  ghost predicate Revived(g: Graph, a: World, b: World, x: nat) {
    && x < |a.svc| == |b.svc| && Shape(g, b) && b.notes == a.notes && b.trans == a.trans
    && b.prop == a.prop + (if a.svc[x].prop.release then {} else {x})
    && b.svc == a.svc[x := a.svc[x].(requiredBy := b.svc[x].requiredBy,
                                     prop := a.svc[x].prop.(require := !a.svc[x].prop.release, release := false))]
    && a.svc[x].requiredBy <= b.svc[x].requiredBy
    && ((forall l: nat :: !Reattaches(g, a.svc, a.lnk, x, l)) ==> b.svc[x].requiredBy == a.svc[x].requiredBy)
    && Reattached(g, a, b.lnk, x)
  }

  // do_start()
  ghost predicate StartDone(g: Graph, a: World, b: World, x: nat) {
    && x < |a.svc|
    && var w := With(a, x, Wanted(a.svc[x]));
       if a.svc[x].state == Stopped && a.svc[x].pins.stopped then FailDone(g, w, b, x, false)
       else if a.svc[x].state == Stopped then exists v :: Revived(g, w, v, x) && Initiated(g, v, b, x)
       else if CannotStartYet(a.svc[x]) then b == w
       else Initiated(g, w, b, x)
  }

  // the targets of the links of x that were waiting to stop are queued
  ghost predicate AllWoken(g: Graph, w: World, x: nat) {
    x < |g.dependsOn| && forall i {:trigger g.dependsOn[x][i]} :: 0 <= i < |g.dependsOn[x]| ==> WokenToStop(g, w.svc, w.trans, g.dependsOn[x][i])
  }

  // failed_to_start()
  ghost predicate FailDone(g: Graph, a: World, b: World, x: nat, immediateStop: bool) {
    && Shape(g, b) && x < |a.svc| == |b.svc| && b.notes == a.notes && LetGo(g.kind, a.lnk, b.lnk) && OnlyInto(g, a.lnk, b.lnk, x)
    && a.prop <= b.prop && a.trans <= b.trans && JoinedAbove(g, a.prop, b.prop, x) && Given(a.svc[x], b.svc[x])
    && (x in b.prop && x !in a.prop ==> GaveLast(a.svc[x], b.svc[x]))
    && b.svc[x] == a.svc[x].(state := if immediateStop then Stopped else a.svc[x].state, desired := Stopped, startExplicit := false,
                             forceStop := a.svc[x].forceStop && !immediateStop, pins := a.svc[x].pins.(started := false),
                             requiredBy := b.svc[x].requiredBy,
                             prop := a.svc[x].prop.(require := b.svc[x].prop.require, release := b.svc[x].prop.release))
    && AllFail(a.svc, b.svc, x) && AllFailed(g, b, x, |g.dependents[x]|)
    && (if immediateStop then AllWoken(g, b, x) else QueuedAnew(a, b))
    && (forall s :: s in b.trans && s !in a.trans ==> Roused(g, a, x, s))
  }

  // ---- up and down ----

  function Late(s: Service): bool {
    MustStop(s) && s.IsStartPinned()
  }

  ghost function NotedLate(w: World, x: nat, late: bool): World
    requires x < |w.notes|
  {
    w.(notes := w.notes[x := w.notes[x].(late := late)])
  }

  // no link waits on x any more, and the dependents that did look again
  ghost predicate WaitersTold(g: Graph, a: World, b: World, x: nat) {
    && |b.lnk| == |a.lnk| && x < |g.dependents| && AllTold(g, a.lnk, b, x, |g.dependents[x]|)
    && (forall l {:trigger b.lnk[l]} :: 0 <= l < |b.lnk| && l < |g.to| ==> b.lnk[l] == if g.to[l] == x then a.lnk[l].(waitingOn := false) else a.lnk[l])
    && a.trans <= b.trans
    && (forall s :: s in b.trans && s !in a.trans ==> exists l: nat :: Listens(g, a, l, s, x))
  }

  // s waits on x by link l, and looks again when that changes
  predicate Listens(g: Graph, w: World, l: nat, s: nat, x: nat) {
    && l < |w.lnk| && l < |g.from| && l < |g.to| && g.from[l] == s && g.to[l] == x && w.lnk[l].waitingOn
    && s < |w.svc| && (w.svc[s].state == Starting || w.svc[s].state == Started) && w.svc[s].waitingForDeps
  }

  predicate SoftListens(g: Graph, w: World, l: nat, s: nat, x: nat) {
    Listens(g, w, l, s, x) && l < |g.kind| && g.kind[l] != Regular && g.kind[l] != Milestone
  }

  // started()
  ghost predicate UpDone(g: Graph, a: World, b: World, x: nat) {
    && x < |a.svc| == |a.notes| && x < |g.dependents| && Shape(g, b)
    && b.notes == NotedLate(a, x, Late(a.svc[x])).notes
    && var w := With(a, x, a.svc[x].(state := Started));
       if !MustStop(a.svc[x]) then b.svc == w.svc && b.prop == a.prop && WaitersTold(g, a, b, x)
       else if a.svc[x].IsStartPinned() then b == NotedLate(w, x, true)
       else Stops(g, NotedLate(w, x, true), NotedLate(b, x, true), x, false)
  }

  // s is told when x stops, or fails: it waits to stop, and x depends on it, or it may start without x
  ghost predicate Roused(g: Graph, a: World, x: nat, s: nat) {
    && s < |a.svc|
    && ((a.svc[s].state == Stopping && a.svc[s].waitingForDeps && exists l :: 0 <= l < |g.from| && l < |g.to| && g.from[l] == x && g.to[l] == s)
        || exists l: nat :: SoftListens(g, a, l, s, x))
  }

  // dependents that may start without x have been queued, and no one else
  ghost predicate QueuedSoftly(g: Graph, a: World, b: World, x: nat) {
    forall s :: s in b.trans && s !in a.trans ==> exists l: nat :: SoftListens(g, a, l, s, x)
  }

  predicate WillRestart(s: Service) {
    s.desired == Started && !s.pins.stopped
  }

  // stopped(), when the service is to start again
  ghost predicate RestartDone(g: Graph, a: World, b: World, x: nat) {
    && x < |a.svc| && Shape(g, b) && b.notes == a.notes && b.prop == a.prop
    && b.svc == a.svc[x := a.svc[x].(forceStop := false, state := Starting, waitingForDeps := true)]
    && WaitsSet(g, a.lnk, b.svc, b.lnk, x)
    && a.trans <= b.trans && (Unhindered(g, b.svc, x) ==> x in b.trans)
    && (forall s :: s in b.trans && s !in a.trans ==> (s == x && Unhindered(g, b.svc, x)) || Roused(g, a, x, s))
  }

  // ... and when it is not
  ghost predicate RestDone(g: Graph, a: World, b: World, x: nat) {
    && x < |a.svc| && x < |g.dependents| && Shape(g, b) && b.notes == a.notes
    && ButFor(a.svc, b.svc, x)
    && b.svc[x] == a.svc[x].(forceStop := false, state := Stopped, startExplicit := false,
                             requiredBy := b.svc[x].requiredBy, desired := b.svc[x].desired,
                             prop := a.svc[x].prop.(require := b.svc[x].prop.require, release := b.svc[x].prop.release))
    && (b.svc[x].desired == a.svc[x].desired || b.svc[x].desired == Stopped) && (Asked(a.svc[x]) ==> Asked(b.svc[x]))
    && LetGo(g.kind, a.lnk, b.lnk) && OnlyInto(g, a.lnk, b.lnk, x) && AllBroken(g, b, x, |g.dependents[x]|)
    && a.prop <= b.prop <= a.prop + {x} && (b.svc[x].requiredBy == a.svc[x].requiredBy ==> b.prop == a.prop)
    && b.svc[x].requiredBy <= a.svc[x].requiredBy && Given(a.svc[x], b.svc[x])
    && a.trans <= b.trans && (forall s :: s in b.trans && s !in a.trans ==> Roused(g, a, x, s))
  }

  // stopped()
  ghost predicate DownDone(g: Graph, a: World, b: World, x: nat) {
    && x < |a.svc| && AllWoken(g, b, x)
    && if WillRestart(a.svc[x]) then RestartDone(g, a, b, x) else RestDone(g, a, b, x)
  }

  // ---- messages ----

  const REQUIRE := NOTHING.(require := true)
  const RELEASE := NOTHING.(release := true)
  const FAILURE := NOTHING.(failure := true)
  const START := NOTHING.(start := true)
  const STOP := NOTHING.(stop := true)

  const ALL := Mask(true, true, true, true, true)

  // service x is taken off the propagation queue, with every message noted
  ghost function TakenUp(w: World, x: nat): World
    requires x < |w.svc| == |w.notes|
  {
    w.(prop := w.prop - {x}, notes := w.notes[x := w.notes[x].(mask := MaskOf(w.svc[x]))])
  }

  // x has passed on the messages done, if it had them
  ghost function Acked(w: World, x: nat, done: Mask): World
    requires x < |w.svc| == |w.notes|
  {
    w.(svc := w.svc[x := w.svc[x].(prop := Cleared(w.svc[x].prop, done))],
       notes := w.notes[x := w.notes[x].(mask := Without(w.notes[x].mask, done))])
  }

  // every dependency that is not just an ordering is required, and held
  ghost predicate RequireDone(g: Graph, a: World, b: World, x: nat) {
    && Shape(g, a) && Shape(g, b) && x < |a.svc| && b.trans == a.trans
    && AllRequired(g, a.svc, b.svc, x, |g.dependsOn[x]|)
    && AllAgain(g, a.lnk, a.notes, b.notes, x, |g.dependsOn[x]|)
    && (forall l {:trigger b.lnk[l]} :: 0 <= l < |a.lnk| ==> b.lnk[l] == a.lnk[l].(holdingAcq := a.lnk[l].holdingAcq || Requires(g, x, l)))
    && (forall s :: s in b.prop <==> s in a.prop || ToldToStart(g, a.svc, x, s, |g.dependsOn[x]|))
  }

  ghost predicate RequirePassed(g: Graph, a: World, b: World, x: nat) {
    && Shape(g, a) && x < |a.svc|
    && if a.svc[x].prop.require then exists v :: RequireDone(g, a, v, x) && b == Acked(v, x, REQUIRE)
       else b == Acked(a, x, REQUIRE)
  }

  // one dependency is released
  ghost predicate LinkReleased(g: Graph, a: World, b: World, l: nat) {
    && Shape(g, a) && Shape(g, b) && l < |a.lnk| && g.to[l] < |a.svc|
    && if a.lnk[l].holdingAcq then ReleaseDone(g, Unhold(g, a, l), b, g.to[l]) else b == a
  }

  ghost predicate AllReleased(g: Graph, trail: seq<World>, x: nat, n: nat) {
    && x < |g.dependsOn| && n <= |g.dependsOn[x]| && |trail| == n + 1
    && forall i {:trigger trail[i]} :: 0 <= i < n ==> LinkReleased(g, trail[i], trail[i + 1], g.dependsOn[x][i])
  }

  // the first n dependencies of x are not held
  ghost predicate NoneHeld(g: Graph, lnk: seq<Link>, x: nat, n: nat) {
    && x < |g.dependsOn| && n <= |g.dependsOn[x]|
    && forall i {:trigger g.dependsOn[x][i]} :: 0 <= i < n ==> g.dependsOn[x][i] < |lnk| && !lnk[g.dependsOn[x][i]].holdingAcq
  }

  // dependencies are released one after the other; then none is held
  ghost predicate ReleaseThrough(g: Graph, a: World, b: World, x: nat, trail: seq<World>) {
    && x < |g.dependsOn| && AllReleased(g, trail, x, |g.dependsOn[x]|) && AllInOrder(g, trail, x) && trail[0] == a
    && Shape(g, trail[|g.dependsOn[x]|]) && x < |trail[|g.dependsOn[x]|].svc|
    && b == Acked(trail[|g.dependsOn[x]|], x, RELEASE)
  }

  ghost predicate ReleasePassed(g: Graph, a: World, b: World, x: nat) {
    && Shape(g, a) && x < |a.svc|
    && if a.svc[x].prop.release then NoneHeld(g, b.lnk, x, |g.dependsOn[x]|) && exists trail :: ReleaseThrough(g, a, b, x, trail)
       else b == Acked(a, x, RELEASE)
  }

  ghost function Fallen(w: World, x: nat): World
    requires x < |w.svc| == |w.notes|
  {
    var v := Acked(w, x, FAILURE);
    With(v, x, v.svc[x].(state := Stopped))
  }

  // the service has failed, and so have the dependents that need it
  ghost predicate FailurePassed(g: Graph, a: World, b: World, x: nat) {
    && Shape(g, a) && x < |a.svc|
    && if a.svc[x].prop.failure then FailDone(g, Fallen(a, x), b, x, true) else b == Acked(a, x, FAILURE)
  }

  // the service starts, or fails because it must not
  ghost predicate StartPassed(g: Graph, a: World, b: World, x: nat) {
    && Shape(g, a) && x < |a.svc|
    && if a.svc[x].prop.start then StartDone(g, Acked(a, x, START), b, x) else b == Acked(a, x, START)
  }

  // the service stops, unless it is pinned, and so do its hard dependents
  ghost predicate StopPassed(g: Graph, a: World, b: World, x: nat) {
    && Shape(g, a) && x < |a.svc|
    && if a.svc[x].prop.stop then Stops(g, Acked(a, x, STOP), b, x, a.svc[x].inUserRestart) else b == Acked(a, x, STOP)
  }

  // ---- pins ----

  ghost function Repinned(w: World, x: nat, pins: Pins): World
    requires x < |w.svc|
  {
    With(w, x, w.svc[x].(pins := pins))
  }

  // the services below x whose flag is not d are told
  ghost predicate PinTold(g: Graph, a: World, b: World, x: nat, d: bool) {
    && b.lnk == a.lnk && b.trans == a.trans && b.ties == a.ties && b.notes == a.notes
    && PinsPassed(g, a.svc, b.svc, a.lnk, a.prop, b.prop, x, d)
  }

  // the pin on account of a dependent is looked up again, and passed on if it has changed
  ghost predicate PinPassed(g: Graph, a: World, b: World, x: nat) {
    && Shape(g, a) && x < |a.svc|
    && if a.svc[x].prop.pinDpt && DependentPinned(g, a.svc, a.lnk, x) != a.svc[x].pins.dept then
         var dept := DependentPinned(g, a.svc, a.lnk, x);
         exists v :: PinTold(g, Repinned(a, x, a.svc[x].pins.(dept := dept)), v, x, dept) && StopIfDue(g, v, b, x)
       else b == a
  }

  // a service that is no longer pinned stops if it has to
  ghost predicate StopIfDue(g: Graph, a: World, b: World, x: nat) {
    && x < |a.svc|
    && if !a.svc[x].IsStartPinned() && a.svc[x].state == Started && MustStop(a.svc[x]) then Stops(g, a, b, x, false) else b == a
  }

  // pin_start()
  ghost predicate PinStartDone(g: Graph, a: World, b: World, x: nat) {
    && x < |a.svc|
    && var pins := a.svc[x].pins.(started := true);
       if a.svc[x].pins.started || a.svc[x].pins.dept then b == Repinned(a, x, pins)
       else exists v :: PinTold(g, a, v, x, true) && x < |v.svc| && b == Repinned(v, x, pins)
  }

  // unpin(): the start pin goes
  ghost predicate PinDropped(g: Graph, a: World, b: World, x: nat) {
    && x < |a.svc|
    && var w := Repinned(a, x, a.svc[x].pins.(started := false));
       if a.svc[x].pins.dept then b == w else PinTold(g, w, b, x, false)
  }

  // ---- steps on the way ----

  // x may have had requirements given back, and no more
  ghost predicate SoftReleased(a: Service, b: Service, q: set<nat>, r: set<nat>, x: nat) {
    && b == a.(requiredBy := b.requiredBy, desired := b.desired, prop := a.prop.(require := b.prop.require, release := b.prop.release))
    && (b.desired == a.desired || b.desired == Stopped) && b.requiredBy <= a.requiredBy && q <= r <= q + {x}
    && (b.requiredBy == a.requiredBy ==> b == a && r == q) && Given(a, b)
  }

  lemma SoftReleasedRefl(a: Service, q: set<nat>, x: nat)
    ensures SoftReleased(a, a, q, q, x)
  {
  }

  // stopped(), up to the decision to restart
  ghost predicate CameToRest(g: Graph, a: World, b: World, x: nat, willRestart: bool) {
    && x < |a.svc| == |b.svc| && x < |g.dependents| && b.notes == a.notes && ButFor(a.svc, b.svc, x)
    && LetGo(g.kind, a.lnk, b.lnk) && OnlyInto(g, a.lnk, b.lnk, x)
    && SoftReleased(a.svc[x].(forceStop := false, state := Stopped), b.svc[x], a.prop, b.prop, x) && (Asked(a.svc[x]) ==> Asked(b.svc[x]))
    && (if willRestart then b.svc[x] == a.svc[x].(forceStop := false, state := Stopped) && b.lnk == a.lnk && b.prop == a.prop
        else AllBroken(g, b, x, |g.dependents[x]|))
    && a.trans <= b.trans && AllWoken(g, b, x)
    && (forall s :: s in b.trans && s !in a.trans ==> s != x && Roused(g, a, x, s))
  }

  // s waits to stop, and x depends on it
  ghost predicate AwaitsStopOf(g: Graph, svc: seq<Service>, x: nat, s: nat) {
    && s < |svc| && svc[s].state == Stopping && svc[s].waitingForDeps && x < |svc| && s != x
    && exists l :: 0 <= l < |g.from| && l < |g.to| && g.from[l] == x && g.to[l] == s
  }

  lemma AskedStays(a: Service, b: Service)
    requires SvcStop(a, b)
    ensures Asked(a) ==> Asked(b)
  {
  }

  lemma RousedAtRest(g: Graph, o: World, a: World, b: World, c: World, x: nat)
    requires Shape(g, a) && x < |a.svc| && Order(g, a)
    requires ButFor(o.svc, a.svc, x) && o.lnk == a.lnk && o.trans == a.trans
    requires ButFor(a.svc, b.svc, x) && ButFor(b.svc, c.svc, x) && a.trans <= b.trans <= c.trans
    requires forall s :: s in b.trans && s !in a.trans ==> exists l: nat :: SoftListens(g, a, l, s, x)
    requires forall s :: s in c.trans && s !in b.trans ==> AwaitsStopOf(g, b.svc, x, s)
    ensures forall s :: s in c.trans && s !in o.trans ==> s != x && Roused(g, o, x, s)
  {
    forall s | s in c.trans && s !in o.trans ensures s != x && Roused(g, o, x, s) {
      if s in b.trans {
        var l: nat :| SoftListens(g, a, l, s, x);
        g.Ends(l);
        assert SoftListens(g, o, l, s, x);
      } else {
        assert AwaitsStopOf(g, b.svc, x, s);
      }
    }
  }

  lemma WokenSame(g: Graph, a: World, b: World, x: nat)
    requires Order(g, a) && Shape(g, a) && AllWoken(g, a, x) && ButFor(a.svc, b.svc, x) && a.trans <= b.trans && x < |a.svc|
    ensures AllWoken(g, b, x)
  {
    forall i {:trigger g.dependsOn[x][i]} | 0 <= i < |g.dependsOn[x]| ensures WokenToStop(g, b.svc, b.trans, g.dependsOn[x][i]) {
      g.DependsOnAt(x, i);
      g.Ends(g.dependsOn[x][i]);
      assert WokenToStop(g, a.svc, a.trans, g.dependsOn[x][i]);
    }
  }

  lemma LetGoDrops(kind: seq<DepType>, a: seq<Link>, b: seq<Link>)
    requires LetGo(kind, a, b)
    ensures Drops(a, b)
  {
  }

  // failed_to_start() by its steps: explicit activation, dependents, pin
  lemma FailSteps(g: Graph, a: World, w1: World, w2: World, b: World, x: nat)
    requires Shape(g, a) && Shape(g, w1) && Shape(g, w2) && Shape(g, b) && Order(g, w2) && x < |a.svc|
    requires ButFor(a.svc, w1.svc, x) && w1.lnk == a.lnk && w1.trans == a.trans && w1.notes == a.notes
    requires SoftReleased(a.svc[x].(desired := Stopped, startExplicit := false), w1.svc[x], a.prop, w1.prop, x)
    requires w2.notes == w1.notes && LetGo(g.kind, w1.lnk, w2.lnk) && OnlyInto(g, w1.lnk, w2.lnk, x)
    requires SoftReleased(w1.svc[x], w2.svc[x], {}, {}, x) && w1.trans <= w2.trans && QueuedSoftly(g, w1, w2, x)
    requires w1.prop <= w2.prop && JoinedAbove(g, w1.prop, w2.prop, x)
    requires x in w1.prop && x !in a.prop ==> GaveLast(a.svc[x], w1.svc[x])
    requires x in w2.prop && x !in w1.prop ==> GaveLast(w1.svc[x], w2.svc[x])
    requires AllFail(w1.svc, w2.svc, x) && AllFailed(g, w2, x, |g.dependents[x]|)
    requires ButFor(w2.svc, b.svc, x) && b.svc[x] == w2.svc[x].(pins := w2.svc[x].pins.(started := false))
    requires b.lnk == w2.lnk && b.trans == w2.trans && b.notes == w2.notes && b.prop == w2.prop
    ensures FailDone(g, a, b, x, false)
  {
    hide Order, AllFailed, LetGo, OnlyInto, OnlyFails, Given, JoinedAbove, Drops;
    CountAt(g, w2, x);
    GivenSince(a.svc[x], a.svc[x].(desired := Stopped, startExplicit := false), w1.svc[x]);
    GivenTrans(a.svc[x], w1.svc[x], w2.svc[x]);
    GivenSame(a.svc[x], w2.svc[x], b.svc[x]);
    AllFailSince(a.svc, w1.svc, w2.svc, x);
    AllFailSame(a.svc, w2.svc, b.svc, x);
    AllFailRefl(w2.svc, x);
    AllFailSame(w2.svc, w2.svc, b.svc, x);
    DropsRefl(w2.lnk);
    AllFailedSame(g, w2, b, x, |g.dependents[x]|);
    JoinedOne(g, a.prop, w1.prop, w2.prop, x);
    SoftlySince(g, a, w1, w2, x);
  }

  lemma SoftlyRefl(g: Graph, w: World, x: nat)
    ensures QueuedSoftly(g, w, w, x)
  {
  }

  lemma SoftListensBack(g: Graph, a: World, b: World, l: nat, s: nat, x: nat)
    requires SoftListens(g, b, l, s, x) && |a.svc| == |b.svc| && LetGo(g.kind, a.lnk, b.lnk)
    requires b.svc[s].state == a.svc[s].state && b.svc[s].waitingForDeps == a.svc[s].waitingForDeps
    ensures SoftListens(g, a, l, s, x)
  {
    assert LnkStop(g.kind[l], a.lnk[l], b.lnk[l]);
  }

  lemma SoftlyTrans(g: Graph, a: World, b: World, c: World, x: nat)
    requires QueuedSoftly(g, a, b, x) && QueuedSoftly(g, b, c, x) && AllFail(a.svc, b.svc, x) && LetGo(g.kind, a.lnk, b.lnk)
    requires x < |a.svc| && b.svc[x].state == a.svc[x].state && b.svc[x].waitingForDeps == a.svc[x].waitingForDeps
    ensures QueuedSoftly(g, a, c, x)
  {
    hide SoftListens, LetGo;
    forall s | s in c.trans && s !in a.trans ensures exists l: nat :: SoftListens(g, a, l, s, x) {
      if s !in b.trans {
        var l: nat :| SoftListens(g, b, l, s, x);
        SoftListener(g, b, l, s, x);
        assert s != x ==> OnlyFails(a.svc[s], b.svc[s]);
        SoftListensBack(g, a, b, l, s, x);
      }
    }
  }

  lemma SoftListener(g: Graph, w: World, l: nat, s: nat, x: nat)
    requires SoftListens(g, w, l, s, x)
    ensures s < |w.svc| && w.svc[s].state != Stopping
  {
  }

  // up to b only x's record has changed, and not its state
  lemma SoftlySince(g: Graph, a: World, b: World, c: World, x: nat)
    requires ButFor(a.svc, b.svc, x) && b.lnk == a.lnk && b.trans == a.trans && QueuedSoftly(g, b, c, x)
    requires x < |a.svc| && b.svc[x].state == a.svc[x].state && b.svc[x].waitingForDeps == a.svc[x].waitingForDeps
    ensures QueuedAnew(a, c) && forall s :: s in c.trans && s !in a.trans ==> Roused(g, a, x, s)
  {
    forall s | s in c.trans && s !in a.trans ensures s < |a.svc| && a.svc[s].state != Stopping && Roused(g, a, x, s) {
      var l: nat :| SoftListens(g, b, l, s, x);
      assert SoftListens(g, a, l, s, x);
    }
  }

  lemma RousedBack(g: Graph, a: World, b: World, x: nat, s: nat)
    requires |a.svc| == |b.svc| && LetGo(g.kind, a.lnk, b.lnk)
    requires s < |a.svc| ==> b.svc[s].state == a.svc[s].state && b.svc[s].waitingForDeps == a.svc[s].waitingForDeps
    ensures Roused(g, b, x, s) ==> Roused(g, a, x, s)
  {
    hide LetGo;
    if s < |a.svc| {
      if l: nat :| SoftListens(g, b, l, s, x) {
        SoftListensBack(g, a, b, l, s, x);
      }
    }
  }

  lemma DropsRefl(a: seq<Link>)
    ensures Drops(a, a)
  {
  }

  // a record whose service comes to rest
  lemma RestRecord(a: Service, b: Service, c: Service, d: Service)
    requires b == a.(forceStop := false) && d == c.(state := Stopped)
    ensures (Asked(b) ==> Asked(c)) ==> (Asked(a) ==> Asked(d))
    ensures Given(b, c) ==> Given(a.(forceStop := false, state := Stopped), d)
  {
  }

  lemma RestSteps(g: Graph, a: World, w1: World, w2: World, w3: World, b: World, x: nat, willRestart: bool)
    requires Shape(g, a) && x < |a.svc| && w1 == With(a, x, a.svc[x].(forceStop := false)) && Shape(g, w3) && Order(g, w3) && Shape(g, b)
    requires w2.notes == w1.notes && ButFor(w1.svc, w2.svc, x) && LetGo(g.kind, w1.lnk, w2.lnk) && OnlyInto(g, w1.lnk, w2.lnk, x)
    requires SoftReleased(w1.svc[x], w2.svc[x], w1.prop, w2.prop, x) && (Asked(w1.svc[x]) ==> Asked(w2.svc[x]))
    requires if willRestart then w2 == w1 else AllBroken(g, w2, x, |g.dependents[x]|)
    requires w1.trans <= w2.trans <= w3.trans && w3 == w2.(trans := w3.trans) && AllWoken(g, w3, x) && b == With(w3, x, w3.svc[x].(state := Stopped))
    requires forall s :: s in w3.trans && s !in a.trans ==> s != x && Roused(g, a, x, s)
    ensures CameToRest(g, a, b, x, willRestart)
  {
    hide Order, AllBroken, LetGo, OnlyInto, Roused, Asked, AllWoken, Given;
    GivenOnce(w1.svc[x]);
    RestRecord(a.svc[x], w1.svc[x], w2.svc[x], b.svc[x]);
    WokenSame(g, w3, b, x);
    if !willRestart {
      AllBrokenSame(g, w2, b, x, |g.dependents[x]|);
    }
  }

  // a service that has failed comes to rest at once
  lemma FailThenRest(g: Graph, a: World, w: World, b: World, x: nat)
    requires FailDone(g, a, w, x, false) && DownDone(g, w, b, x) && Shape(g, w) && Order(g, w) && Order(g, b)
    ensures FailDone(g, a, b, x, true)
  {
    hide Order, AllFailed, AllBroken, AllWoken, LetGo, LnkStop, OnlyInto, OnlyFails, Given, Roused, Drops;
    NoneLeft(g, w, x);
    SurplusAtMost(g, b, x);
    GivenSame(a.svc[x], w.svc[x], w.svc[x]);
    AllFailRefl(w.svc, x);
    AllFailSame(w.svc, w.svc, b.svc, x);
    AllFailSame(a.svc, w.svc, b.svc, x);
    LetGoDrops(g.kind, w.lnk, b.lnk);
    AllFailedSame(g, w, b, x, |g.dependents[x]|);
    LetGoTrans(g.kind, a.lnk, w.lnk, b.lnk);
    OnlyIntoTrans(g, a.lnk, w.lnk, b.lnk, x);
    JoinedMore(g, a.prop, w.prop, b.prop, x);
    forall s | s in b.trans && s !in a.trans ensures Roused(g, a, x, s) {
      assert s < |a.svc| && s != x ==> OnlyFails(a.svc[s], w.svc[s]);
      SameWaits(a, w, x, s);
      RousedBack(g, a, w, x, s);
    }
  }

  lemma SameWaits(a: World, b: World, x: nat, s: nat)
    requires |a.svc| == |b.svc| && x < |a.svc| && AllFail(a.svc, b.svc, x)
    requires b.svc[x].state == a.svc[x].state && b.svc[x].waitingForDeps == a.svc[x].waitingForDeps
    ensures s < |a.svc| ==> b.svc[s].state == a.svc[s].state && b.svc[s].waitingForDeps == a.svc[s].waitingForDeps
  {
    assert s < |a.svc| && s != x ==> OnlyFails(a.svc[s], b.svc[s]);
  }

  lemma LetGoRefl(g: Graph, w: World)
    requires Shape(g, w)
    ensures LetGo(g.kind, w.lnk, w.lnk)
  {
  }

  // x joins, and then those above it
  lemma JoinedOne(g: Graph, q: set<nat>, r: set<nat>, t: set<nat>, x: nat)
    requires JoinedAbove(g, r, t, x) && q <= r <= q + {x}
    ensures JoinedAbove(g, q, t, x)
  {
  }

  lemma JoinedMore(g: Graph, q: set<nat>, r: set<nat>, t: set<nat>, x: nat)
    requires JoinedAbove(g, q, r, x) && r <= t <= r + {x}
    ensures JoinedAbove(g, q, t, x)
  {
  }

  lemma ListedExactly(g: Graph, w: World, x: nat, l: nat)
    requires OrderOff(g, w, x) && Shape(g, w) && l < |w.lnk| && x < |w.svc|
    ensures l in g.dependents[x] <==> g.to[l] == x
  {
    if l in g.dependents[x] {
      var i :| 0 <= i < |g.dependents[x]| && g.dependents[x][i] == l;
      g.DependentAt(x, i);
    }
  }

  // the note of x is put in order, and it is as if it had started at the beginning
  lemma WaitersToldSame(g: Graph, a: World, b: World, c: World, d: World, x: nat)
    requires Shape(g, a) && x < |a.svc| && b.svc == a.svc[x := a.svc[x].(state := Started)] && b.lnk == a.lnk && b.trans == a.trans
    requires WaitersTold(g, b, c, x) && c.svc == b.svc && Shape(g, d) && d.svc == c.svc && d.lnk == c.lnk && d.trans == c.trans
    requires g.Valid()
    ensures WaitersTold(g, a, d, x)
  {
    AllToldSame(g, a.lnk, c, d, x, |g.dependents[x]|);
    forall s | s in d.trans && s !in a.trans ensures exists l: nat :: Listens(g, a, l, s, x) {
      var l: nat :| Listens(g, b, l, s, x);
      g.Ends(l);
      assert Listens(g, a, l, s, x);
    }
  }

  lemma NoWaiters(g: Graph, a: World, w: World, x: nat)
    requires Order(g, w) && Shape(g, w) && x < |w.svc| && WaitersTold(g, a, w, x)
    ensures w.ties.waiters[x] == {}
  {
    TiesExact(g, w, x);
  }

  // who is told changes no pin but x's
  lemma PassedSame(g: Graph, a: World, b: World, x: nat, d: bool)
    requires PinTold(g, a, b, x, d) && x < |a.svc|
    ensures |b.svc| == |a.svc| && b.svc[x].pins == a.svc[x].pins && a.prop <= b.prop
    ensures PinsPassed(g, a.svc, b.svc, a.lnk, a.prop, b.prop, x, d) && b.lnk == a.lnk
  {
    assert Marked(a.svc[x], b.svc[x], Tells(g, a.svc, a.lnk, x, d, x));
  }

  lemma RequireNone(g: Graph, w: World, x: nat)
    requires Shape(g, w) && x < |w.svc|
    ensures AllRequired(g, w.svc, w.svc, x, 0) && AllAgain(g, w.lnk, w.notes, w.notes, x, 0)
    ensures forall s :: !ToldToStart(g, w.svc, x, s, 0)
  {
  }

  lemma AgainMasks(g: Graph, lnk: seq<Link>, a: seq<Note>, b: seq<Note>, x: nat, n: nat)
    requires AllAgain(g, lnk, a, b, x, n)
    ensures SameMasks(a, b)
  {
  }

  lemma NoneHeldMore(g: Graph, a: seq<Link>, b: seq<Link>, x: nat, i: nat)
    requires NoneHeld(g, a, x, i) && Drops(a, b) && i < |g.dependsOn[x]| && g.dependsOn[x][i] < |b| && !b[g.dependsOn[x][i]].holdingAcq
    ensures NoneHeld(g, b, x, i + 1)
  {
  }

  lemma NothingReleased(g: Graph, w: World, x: nat)
    requires x < |w.svc| && Shape(g, w) && Order(g, w)
    ensures NoneHeld(g, w.lnk, x, 0) && AllReleased(g, [w], x, 0) && AllInOrder(g, [w], x)
  {
    hide Order;
  }

  lemma InOrderMore(g: Graph, trail: seq<World>, w: World, x: nat)
    requires AllInOrder(g, trail, x) && Shape(g, w) && Order(g, w) && x < |w.svc|
    ensures AllInOrder(g, trail + [w], x)
  {
    hide Order, Shape;
  }

  lemma ReleasedMore(g: Graph, trail: seq<World>, w: World, x: nat, i: nat)
    requires AllReleased(g, trail, x, i) && i < |g.dependsOn[x]| && LinkReleased(g, trail[i], w, g.dependsOn[x][i])
    ensures AllReleased(g, trail + [w], x, i + 1)
  {
    hide LinkReleased;
    forall k {:trigger (trail + [w])[k]} | 0 <= k < i + 1 ensures LinkReleased(g, (trail + [w])[k], (trail + [w])[k + 1], g.dependsOn[x][k]) {
      assert k < i ==> LinkReleased(g, trail[k], trail[k + 1], g.dependsOn[x][k]);
    }
  }

  lemma StartNotes(g: Graph, a: World, b: World, x: nat)
    requires StartDone(g, a, b, x)
    ensures b.notes == a.notes
  {
  }

  lemma StillThere(a: seq<Note>, b: seq<Note>, x: nat, done: Mask)
    requires MaskDone(a, b, x, done)
    ensures x < |a| == |b|
    ensures b[x].mask == Without(a[x].mask, done)
  {
  }

  lemma AllMasksDone(n0: seq<Note>, n1: seq<Note>, n2: seq<Note>, n3: seq<Note>, n4: seq<Note>, n5: seq<Note>, x: nat)
    requires MaskDone(n0, n1, x, REQUIRE) && MaskDone(n1, n2, x, RELEASE) && MaskDone(n2, n3, x, FAILURE)
    requires MaskDone(n3, n4, x, START) && MaskDone(n4, n5, x, STOP)
    ensures MaskDone(n0, n5, x, ALL)
  {
    forall s {:trigger n5[s]} | 0 <= s < |n0| && s != x ensures n5[s].mask == n0[s].mask {
      assert n1[s].mask == n0[s].mask && n2[s].mask == n1[s].mask && n3[s].mask == n2[s].mask && n4[s].mask == n3[s].mask;
    }
  }

  // ---- passes and transitions ----

  ghost predicate AllInOrder(g: Graph, trail: seq<World>, x: nat) {
    forall i :: 0 <= i < |trail| ==> Shape(g, trail[i]) && Order(g, trail[i]) && x < |trail[i].svc|
  }

  // the worlds between the messages, in the order in which these are passed on
  ghost predicate MessagesPassed(g: Graph, trail: seq<World>, x: nat) {
    && |trail| == 6 && AllInOrder(g, trail, x)
    && RequirePassed(g, trail[0], trail[1], x)
    && ReleasePassed(g, trail[1], trail[2], x)
    && FailurePassed(g, trail[2], trail[3], x)
    && StartPassed(g, trail[3], trail[4], x)
    && StopPassed(g, trail[4], trail[5], x)
  }

  ghost predicate Passes(g: Graph, trail: seq<World>, x: nat) {
    |trail| == 7 && MessagesPassed(g, trail[..6], x) && PinPassed(g, trail[5], trail[6], x)
  }

  lemma MessagesKeep(g: Graph, trail: seq<World>, x: nat)
    requires MessagesPassed(g, trail, x) && OnlyPins(trail[0].svc[x])
    ensures trail[5].svc == trail[0].svc && trail[5].lnk == trail[0].lnk && trail[5].prop == trail[0].prop && trail[5].trans == trail[0].trans
  {
    NothingAcked(trail[0], x, REQUIRE);
    NothingAcked(trail[1], x, RELEASE);
    NothingAcked(trail[2], x, FAILURE);
    NothingAcked(trail[3], x, START);
    NothingAcked(trail[4], x, STOP);
  }

  lemma NothingAcked(w: World, x: nat, done: Mask)
    requires x < |w.svc| == |w.notes|
    ensures OnlyPins(w.svc[x]) ==> Acked(w, x, done).svc == w.svc
  {
  }

  lemma PassesAll(g: Graph, trail: seq<World>, w: World, x: nat)
    requires MessagesPassed(g, trail, x) && PinPassed(g, trail[5], w, x)
    ensures Passes(g, trail + [w], x)
  {
    assert (trail + [w])[..6] == trail;
  }

  ghost function Proceeding(w: World, x: nat): World
    requires x < |w.svc|
  {
    With(w, x, w.svc[x].(waitingForDeps := false))
  }

  ghost function Cancelled(w: World, x: nat): World
    requires x < |w.svc|
  {
    With(w, x, w.svc[x].(state := Stopping))
  }

  // execute_transition(): a transition runs once nothing more has to be waited for; what happens then depends on how
  // bringing up or down goes
  ghost predicate Transitioned(g: Graph, a: World, b: World, x: nat, outcome: BringUp, downAtOnce: bool) {
    && x < |a.svc|
    && var w := a.(trans := a.trans - {x});
       var v := Proceeding(w, x);
       if !CanProceed(g, a.svc, a.lnk, x) then b == w
       else if a.svc[x].state == Starting then
         && (outcome == Launched ==> b == v)
         && (outcome == Up ==> UpDone(g, v, b, x))
         && (outcome == Refused ==> FailDone(g, Cancelled(v, x), b, x, true))
         && (outcome == Failing ==> FailDone(g, v, b, x, true))
       else if downAtOnce then DownDone(g, v, b, x)
       else b == v
  }

  // one step of queue processing: a service passes its messages on or, when there are none, makes a transition
  ghost predicate Processed(g: Graph, a: World, b: World, x: nat, trail: seq<World>, outcome: BringUp, downAtOnce: bool) {
    if a.prop != {} then
      x < |a.svc| == |a.notes| && x in a.prop && Passes(g, trail, x) && trail[0] == TakenUp(a, x) && trail[6] == b
    else x in a.trans && Transitioned(g, a, b, x, outcome, downAtOnce)
  }

  // With pins as the only message, and no stop due, only pins change, and exactly the services told join the queue
  lemma OnlyPinsPassed(g: Graph, a: World, trail: seq<World>, x: nat)
    requires x < |a.svc| == |a.notes| && Passes(g, trail, x) && trail[0] == TakenUp(a, x) && g.Valid() && Shape(g, a)
    requires OnlyPins(a.svc[x]) && !(a.svc[x].state == Started && MustStop(a.svc[x]) && !a.svc[x].pins.started)
    ensures var b := trail[6];
            && OnlyPinOf(a.svc, b.svc, x) && b.svc[x].pins == a.svc[x].pins.(dept := b.svc[x].pins.dept) && b.lnk == a.lnk
            && b.trans == a.trans && Joined(g, a.prop - {x}, b.prop, x, |g.dependsOn[x]|)
  {
    hide DependentPinned, MessagesPassed, Joined, Tells, Stops;
    MessagesKeep(g, trail[..6], x);
    var w, b := trail[5], trail[6];
    JoinedNone(g, w.prop, x, |g.dependsOn[x]|);
    var dept := DependentPinned(g, w.svc, w.lnk, x);
    if w.svc[x].prop.pinDpt && dept != w.svc[x].pins.dept {
      var v := Repinned(w, x, w.svc[x].pins.(dept := dept));
      var u :| PinTold(g, v, u, x, dept) && StopIfDue(g, u, b, x);
      ToldOnlyPins(g, w, v, u, x, dept);
      JoinedTells(g, v, u.prop, x, dept);
    }
  }

  lemma ToldOnlyPins(g: Graph, a: World, v: World, b: World, x: nat, dept: bool)
    requires x < |a.svc| && v == Repinned(a, x, a.svc[x].pins.(dept := dept)) && PinTold(g, v, b, x, dept)
    ensures OnlyPinOf(a.svc, b.svc, x) && b.svc[x].pins == a.svc[x].pins.(dept := dept)
    ensures b.svc[x].state == a.svc[x].state && MustStop(b.svc[x]) == MustStop(a.svc[x])
    ensures forall s :: s in b.prop <==> s in v.prop || Tells(g, v.svc, v.lnk, x, dept, s)
  {
    hide Tells;
    forall s | 0 <= s < |b.svc| ensures Marked(v.svc[s], b.svc[s], Tells(g, v.svc, v.lnk, x, dept, s)) {
    }
  }

  // ---- requests, and news of processes ----

  function Activated(s: Service): Service {
    s.(startExplicit := true, requiredBy := s.requiredBy + if s.startExplicit then 0 else 1)
  }

  // start()
  ghost predicate StartHandled(g: Graph, a: World, b: World, x: nat) {
    x < |a.svc| && if a.svc[x].pins.stopped then b == a else StartDone(g, With(a, x, Activated(a.svc[x])), b, x)
  }

  // a service no longer required releases its dependencies, unless it has yet to require them
  ghost function ReleaseQueued(w: World, x: nat): World
    requires x < |w.svc|
  {
    With(w, x, w.svc[x].(prop := w.svc[x].prop.(release := !w.svc[x].prop.require)))
      .(prop := w.prop + if w.svc[x].prop.require then {} else {x})
  }

  // stop(): a service that nothing requires is brought down in any case
  ghost predicate StopHandled(g: Graph, a: World, b: World, x: nat, bringDown: bool) {
    && x < |a.svc|
    && var s := Unmarked(a.svc[x], bringDown);
       var w := With(a, x, s);
       var v := if s.requiredBy == 0 then ReleaseQueued(w, x) else w;
       if s.IsStartPinned() then b == w
       else if (bringDown || s.requiredBy == 0) && s.state != Stopped then Stops(g, v, b, x, false)
       else b == v
  }

  // a process has ended, or the service is to be restarted: it stops, by force, unless it is pinned
  ghost predicate TerminationHandled(g: Graph, a: World, b: World, x: nat, withRestart: bool) {
    x < |a.svc| && Stops(g, With(a, x, a.svc[x].(forceStop := true)), b, x, withRestart)
  }

  // a link comes to hold the dependency it is of
  ghost predicate AttachHandled(g: Graph, a: World, b: World, l: nat) {
    && Shape(g, a) && l < |a.lnk| && g.to[l] < |a.svc|
    && var t := g.to[l];
       if a.lnk[l].holdingAcq then b == a
       else
         b == Hold(g, With(a, t, Required(a.svc[t])).(prop := a.prop + if MustBeStarted(a.svc[t]) then {t} else {}), l)
  }

  // unpin(), a started service: what it has put off
  ghost predicate UnwantedDone(g: Graph, a: World, b: World, x: nat) {
    && x < |a.svc|
    && var w := if a.svc[x].requiredBy == 0 then
                  With(a, x, a.svc[x].(prop := a.svc[x].prop.(release := true))).(prop := a.prop + {x})
                else a;
       if a.svc[x].state == Started then (if MustStop(a.svc[x]) then Stops(g, w, b, x, false) else b == w) else b == a
  }

  // unpin(), short of the queue processing it ends with; the stop pin stays if a dependent keeps the service pinned
  ghost predicate UnpinHandled(g: Graph, a: World, b: World, x: nat) {
    && x < |a.svc|
    && if !a.svc[x].pins.started then b == Repinned(a, x, a.svc[x].pins.(stopped := false))
       else exists v, u ::
         && PinDropped(g, a, v, x) && x < |v.svc|
         && if a.svc[x].pins.dept then u == v && b == v
            else UnwantedDone(g, v, u, x) && x < |u.svc| && b == Repinned(u, x, u.svc[x].pins.(stopped := false))
  }

  // what an event leads to; one that does not apply changes nothing
  ghost predicate Handled(g: Graph, a: World, b: World, e: Event) {
    match e
    case Attach(l) => if Attachable(g, a, l) then AttachHandled(g, a, b, l) else b == a
    case Process(x, outcome, downAtOnce) =>
      if Due(a, x) then exists trail :: Processed(g, a, b, x, trail, outcome, downAtOnce) else b == a
    case _ => if e.x < |a.svc| then ServiceHandled(g, a, b, e) else b == a
  }

  // x may be picked from the queues: messages come first
  predicate Due(w: World, x: nat) {
    x in w.prop || (w.prop == {} && x in w.trans)
  }

  ghost predicate ServiceHandled(g: Graph, a: World, b: World, e: Event)
    requires !e.Attach? && !e.Process? && e.x < |a.svc|
  {
    match e
    case StartIt(x) => StartHandled(g, a, b, x)
    case StopIt(x, bringDown) => StopHandled(g, a, b, x, bringDown)
    case ForceIt(x) => b == ForcedIn(a, x)
    case RestartIt(x) => if a.svc[x].state == Started then TerminationHandled(g, a, b, x, true) else b == a
    case PinStarted(x) => PinStartDone(g, a, b, x)
    case PinStopped(x) => b == Repinned(a, x, a.svc[x].pins.(stopped := true))
    case UnpinIt(x) => UnpinHandled(g, a, b, x)
    case IsUp(x) => if a.svc[x].state == Starting && !a.svc[x].waitingForDeps then UpDone(g, a, b, x) else b == a
    case IsDown(x) => if a.svc[x].state == Stopping then DownDone(g, a, b, x) else b == a
    case NotUp(x, immediateStop) =>
      if a.svc[x].state == Starting && !a.svc[x].waitingForDeps then
        FailDone(g, if immediateStop then a else Cancelled(a, x), b, x, immediateStop)
      else b == a
    case Died(x) => if a.svc[x].state == Started then TerminationHandled(g, a, b, x, false) else b == a
    case _ => true
  }

  lemma TransitionNotes(g: Graph, a: World, b: World, x: nat, outcome: BringUp, downAtOnce: bool)
    requires Transitioned(g, a, b, x, outcome, downAtOnce) && Shape(g, a)
    ensures SameMasks(a.notes, b.notes)
  {
  }

  lemma HandledNotes(g: Graph, a: World, b: World, e: Event)
    requires Handled(g, a, b, e) && !e.Process? && Shape(g, a)
    ensures SameMasks(a.notes, b.notes)
  {
    hide Shape;
  }

  // the service at the link's near end is up or coming up
  ghost predicate Attachable(g: Graph, a: World, l: nat) {
    && l < |a.lnk| == |g.from| == |g.kind| && g.from[l] < |a.svc| && !g.IsOnlyOrdering(l)
    && (a.svc[g.from[l]].state == Started || a.svc[g.from[l]].state == Starting)
  }

  // the set is in order, and no propagation pass is under way
  ghost predicate Kept(g: Graph, w: World) {
    Shape(g, w) && Order(g, w) && AllDone(w.notes)
  }

  // a loaded set of services, none of them active yet
  ghost predicate Initial(g: Graph, w: World) {
    && Shape(g, w) && w.prop == {} && w.trans == {}
    && (forall s :: 0 <= s < |w.svc| ==> w.svc[s] == IDLE && w.notes[s] == Note(0, false, NOTHING))
    && (forall l :: 0 <= l < |w.lnk| ==> w.lnk[l] == Link(false, false))
  }

  // the worlds between events
  ghost predicate IsHistory(g: Graph, history: seq<World>, events: seq<Event>) {
    && |history| == |events| + 1
    && (forall i :: 0 <= i < |history| ==> Kept(g, history[i]))
    && (forall i :: 0 <= i < |events| ==> Handled(g, history[i], history[i + 1], events[i]))
  }

  lemma HistoryOn(g: Graph, history: seq<World>, events: seq<Event>, i: nat, w: World)
    requires i < |events| && IsHistory(g, history, events[..i]) && Handled(g, history[i], w, events[i]) && Kept(g, w)
    ensures IsHistory(g, history + [w], events[..i + 1])
  {
    hide Handled, Kept;
    forall k | 0 <= k <= i ensures Handled(g, (history + [w])[k], (history + [w])[k + 1], events[..i + 1][k]) {
      if k < i {
        assert events[..i][k] == events[..i + 1][k];
      }
    }
  }
}
