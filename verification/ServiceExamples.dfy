// Histories that show what a service set does not promise: each is the only one for its events, from a set just loaded.
module ServiceExamples {
  import opened ServiceRecords
  import opened ServiceBooks
  import opened ServiceStops
  import opened ServicePins
  import opened ServiceSteps
  import opened ServicePasses
  import opened ServiceUpkeep
  import opened ServiceHistories
  import opened ServiceWaking
  import opened ServiceStranding
  import opened ServiceGuarantees

  ghost predicate Looks(w: World, svc: seq<Service>, lnk: seq<Link>, prop: set<nat>, trans: set<nat>) {
    w.svc == svc && w.lnk == lnk && w.prop == prop && w.trans == trans
  }

  ghost predicate Like(a: World, b: World) {
    Looks(b, a.svc, a.lnk, a.prop, a.trans)
  }

  // ---- what single events lead to, when little is going on ----

  // nothing is passed on that there is not
  lemma NothingPassed(g: Graph, a: World, b: World, x: nat)
    requires Shape(g, a) && x < |a.svc|
    ensures RequirePassed(g, a, b, x) && !a.svc[x].prop.require ==> Like(a, b)
    ensures ReleasePassed(g, a, b, x) && !a.svc[x].prop.release ==> Like(a, b)
    ensures FailurePassed(g, a, b, x) && !a.svc[x].prop.failure ==> Like(a, b)
    ensures StartPassed(g, a, b, x) && !a.svc[x].prop.start ==> Like(a, b)
    ensures StopPassed(g, a, b, x) && !a.svc[x].prop.stop ==> Like(a, b)
    ensures PinPassed(g, a, b, x) && !a.svc[x].prop.pinDpt ==> b == a
  {
    hide RequireDone, ReleaseThrough, FailDone, StartDone, Stops, StopIfDue, PinTold;
    var p := a.svc[x].prop;
    if !p.require {
      assert Acked(a, x, REQUIRE).svc[x] == a.svc[x];
    }
    if !p.release {
      assert Acked(a, x, RELEASE).svc[x] == a.svc[x];
    }
    if !p.failure {
      assert Acked(a, x, FAILURE).svc[x] == a.svc[x];
    }
    if !p.start {
      assert Acked(a, x, START).svc[x] == a.svc[x];
    }
    if !p.stop {
      assert Acked(a, x, STOP).svc[x] == a.svc[x];
    }
  }

  // the steps of a pass
  lemma PassSteps(g: Graph, a: World, b: World, x: nat, outcome: BringUp, down: bool) returns (t: seq<World>)
    requires Kept(g, a) && Handled(g, a, b, Process(x, outcome, down)) && x in a.prop && x < |a.svc|
    ensures |t| == 7 && t[0] == TakenUp(a, x) && t[6] == b && g.Valid()
    ensures forall i :: 0 <= i < 6 ==> Shape(g, t[i]) && Order(g, t[i]) && x < |t[i].svc|
    ensures RequirePassed(g, t[0], t[1], x) && ReleasePassed(g, t[1], t[2], x) && FailurePassed(g, t[2], t[3], x)
    ensures StartPassed(g, t[3], t[4], x) && StopPassed(g, t[4], t[5], x) && PinPassed(g, t[5], t[6], x)
  {
    hide Order, RequirePassed, ReleasePassed, FailurePassed, StartPassed, StopPassed, PinPassed, AllInOrder;
    GraphValid(g, a);
    t :| Processed(g, a, b, x, t, outcome, down);
    var m := t[..6];
    PassShapes(g, t, x);
    assert m[0] == t[0] && m[1] == t[1] && m[2] == t[2] && m[3] == t[3] && m[4] == t[4] && m[5] == t[5];
  }

  function Just(require: bool, start: bool, pinDpt: bool): Props {
    Props(require, false, false, start, false, pinDpt)
  }

  // a pass that has to require dependencies and nothing else, up to the look at pins
  lemma RequirePass(g: Graph, a: World, b: World, x: nat, outcome: BringUp, down: bool) returns (v: World, u: World)
    requires Kept(g, a) && Handled(g, a, b, Process(x, outcome, down)) && x in a.prop && x < |a.svc|
    requires a.svc[x].prop == Just(true, false, a.svc[x].prop.pinDpt)
    ensures g.Valid() && RequireDone(g, TakenUp(a, x), v, x) && x < |v.svc| && v.svc[x] == a.svc[x]
    ensures Looks(u, v.svc[x := a.svc[x].(prop := Just(false, false, a.svc[x].prop.pinDpt))], v.lnk, v.prop, v.trans) && PinPassed(g, u, b, x)
  {
    hide Order, Handled, Kept, ReleasePassed, FailurePassed, StartPassed, StopPassed, PinPassed, AllAgain;
    var t := PassSteps(g, a, b, x, outcome, down);
    v :| RequireDone(g, t[0], v, x) && t[1] == Acked(v, x, REQUIRE);
    WantsNotItself(g, x, |g.dependsOn[x]|);
    assert v.svc[x] == RequiredTimes(t[0].svc[x], Wanting(g, x, x, |g.dependsOn[x]|));
    hide RequireDone;
    NothingPassed(g, t[1], t[2], x);
    NothingPassed(g, t[2], t[3], x);
    NothingPassed(g, t[3], t[4], x);
    NothingPassed(g, t[4], t[5], x);
    u := t[5];
  }

  // a pass with no message but to start, up to the look at pins
  lemma StartPass(g: Graph, a: World, b: World, x: nat, outcome: BringUp, down: bool) returns (w: World, v: World, u: World)
    requires Kept(g, a) && Handled(g, a, b, Process(x, outcome, down)) && x in a.prop && x < |a.svc|
    requires a.svc[x].prop == Just(false, true, a.svc[x].prop.pinDpt) && a.svc[x].state == Stopped && !a.svc[x].pins.stopped
    ensures g.Valid() && Shape(g, w) && StartDone(g, w, v, x) && Like(v, u) && PinPassed(g, u, b, x)
    ensures Looks(w, a.svc[x := a.svc[x].(prop := Just(false, false, a.svc[x].prop.pinDpt))], a.lnk, a.prop - {x}, a.trans)
  {
    hide Order, Handled, Kept, RequirePassed, ReleasePassed, FailurePassed, StopPassed, PinPassed, Initiated, Revived, FailDone;
    var t := PassSteps(g, a, b, x, outcome, down);
    NothingPassed(g, t[0], t[1], x);
    NothingPassed(g, t[1], t[2], x);
    NothingPassed(g, t[2], t[3], x);
    w, v := Acked(t[3], x, START), t[4];
    StartedNoStop(g, w, v, x);
    NothingPassed(g, t[4], t[5], x);
    u := t[5];
  }

  lemma StartedNoStop(g: Graph, w: World, v: World, x: nat)
    requires StartDone(g, w, v, x) && w.svc[x].state == Stopped && !w.svc[x].pins.stopped
    ensures x < |v.svc| && v.svc[x].prop.stop == w.svc[x].prop.stop && v.svc[x].prop.pinDpt == w.svc[x].prop.pinDpt
  {
    var u := With(w, x, Wanted(w.svc[x]));
    var r :| Revived(g, u, r, x) && Initiated(g, r, v, x);
  }

  // a pass with no message but about pins
  lemma PinPass(g: Graph, a: World, b: World, x: nat, outcome: BringUp, down: bool) returns (u: World)
    requires Kept(g, a) && Handled(g, a, b, Process(x, outcome, down)) && x in a.prop && x < |a.svc|
    requires a.svc[x].prop == Just(false, false, true)
    ensures Looks(u, a.svc, a.lnk, a.prop - {x}, a.trans) && PinPassed(g, u, b, x)
  {
    hide Order, Handled, Kept, RequirePassed, ReleasePassed, FailurePassed, StartPassed, StopPassed, PinPassed;
    var t := PassSteps(g, a, b, x, outcome, down);
    NothingPassed(g, t[0], t[1], x);
    NothingPassed(g, t[1], t[2], x);
    NothingPassed(g, t[2], t[3], x);
    NothingPassed(g, t[3], t[4], x);
    NothingPassed(g, t[4], t[5], x);
    u := t[5];
  }

  // a service that was stopped starts, and no soft link of a dependent is taken up again
  lemma Begins(g: Graph, a: World, b: World, x: nat)
    requires Shape(g, a) && StartDone(g, a, b, x) && a.svc[x].state == Stopped && !a.svc[x].pins.stopped && !a.svc[x].prop.release
    requires forall l: nat :: !Reattaches(g, a.svc, a.lnk, x, l)
    ensures b.svc == a.svc[x := a.svc[x].(desired := Started, state := Starting, waitingForDeps := true, prop := a.svc[x].prop.(require := true))]
    ensures WaitsSet(g, a.lnk, b.svc, b.lnk, x)
    ensures b.prop == a.prop + {x} && b.trans == a.trans + if Unhindered(g, b.svc, x) then {x} else {}
  {
    var w := With(a, x, Wanted(a.svc[x]));
    hide MustWaitFor, HeldUpBy;
    forall l: nat ensures !Reattaches(g, w.svc, w.lnk, x, l) {
      assert !Reattaches(g, a.svc, a.lnk, x, l);
    }
    var v :| Revived(g, w, v, x) && Initiated(g, v, b, x);
    hide Reattaches;
    assert v.lnk == w.lnk;
  }

  // what an event is handled by
  lemma HandledBy(g: Graph, a: World, b: World, e: Event)
    requires Handled(g, a, b, e) && !e.Attach? && !e.Process? && e.x < |a.svc|
    ensures e.StartIt? ==> StartHandled(g, a, b, e.x)
    ensures e.StopIt? ==> StopHandled(g, a, b, e.x, e.bringDown)
    ensures e.PinStarted? ==> PinStartDone(g, a, b, e.x)
    ensures e.PinStopped? ==> b == Repinned(a, e.x, a.svc[e.x].pins.(stopped := true))
    ensures e.IsUp? && a.svc[e.x].state == Starting && !a.svc[e.x].waitingForDeps ==> UpDone(g, a, b, e.x)
    ensures e.NotUp? && e.immediateStop && a.svc[e.x].state == Starting && !a.svc[e.x].waitingForDeps ==> FailDone(g, a, b, e.x, true)
  {
    hide StartHandled, StopHandled, PinStartDone, UpDone, DownDone, FailDone, TerminationHandled, UnpinHandled;
  }

  lemma TransitionedBy(g: Graph, a: World, b: World, x: nat, outcome: BringUp, down: bool)
    requires Handled(g, a, b, Process(x, outcome, down)) && a.prop == {} && x in a.trans
    ensures Transitioned(g, a, b, x, outcome, down)
  {
    hide Transitioned;
  }

  // ---- services in a row, each depending on the next ----

  ghost predicate Row(g: Graph, n: nat) {
    && n > 0 && |g.from| == |g.to| == |g.kind| == n - 1 && |g.dependsOn| == |g.dependents| == |g.rank| == n
    && (forall l {:trigger g.from[l]} {:trigger g.to[l]} {:trigger g.kind[l]} :: 0 <= l < n - 1 ==> g.from[l] == l && g.to[l] == l + 1 && g.kind[l] == Regular)
    && (forall s {:trigger g.dependsOn[s]} :: 0 <= s < n ==> g.dependsOn[s] == if s < n - 1 then [s] else [])
    && (forall s {:trigger g.dependents[s]} :: 0 <= s < n ==> g.dependents[s] == if s > 0 then [s - 1] else [])
    && (forall s {:trigger g.rank[s]} :: 0 <= s < n ==> g.rank[s] == n - 1 - s) && g.top == n - 1
  }

  function PairGraph(): Graph {
    Graph([0], [1], [Regular], [[0], []], [[], [0]], [1, 0], 1)
  }

  function ChainGraph(): Graph {
    Graph([0, 1], [1, 2], [Regular, Regular], [[0], [1], []], [[], [0], [1]], [2, 1, 0], 2)
  }

  lemma PairIsRow()
    ensures Row(PairGraph(), 2)
  {
  }

  lemma ChainIsRow()
    ensures Row(ChainGraph(), 3)
  {
  }

  lemma RowValid(g: Graph, n: nat)
    requires Row(g, n)
    ensures g.Valid()
  {
    forall l | 0 <= l < n - 1 ensures l in g.dependsOn[g.from[l]] && l in g.dependents[g.to[l]] {
      assert g.dependsOn[l] == [l] && g.dependents[l + 1] == [l];
    }
  }

  // what a service is told about pins comes to nothing
  predicate PinRight(w: World, x: nat)
    requires x < |w.svc|
  {
    w.svc[x].prop.pinDpt ==> (w.svc[x].pins.dept <==> x > 0 && w.svc[x - 1].IsStartPinned())
  }

  lemma RowPinStays(g: Graph, n: nat, u: World, b: World, x: nat)
    requires Row(g, n) && x < n && PinPassed(g, u, b, x) && PinRight(u, x)
    ensures b == u
  {
    RowDependentPinned(g, n, u, x);
  }

  lemma RowDependentPinned(g: Graph, n: nat, w: World, x: nat)
    requires Row(g, n) && Shape(g, w) && x < n
    ensures DependentPinned(g, w.svc, w.lnk, x) <==> x > 0 && w.svc[x - 1].IsStartPinned()
  {
    if x > 0 {
      assert Pinning(g, w.svc, w.lnk, x - 1) <==> w.svc[x - 1].IsStartPinned();
    }
  }

  // service x waits for the next one to run
  predicate MustWait(w: World, n: nat, x: nat) {
    x < n - 1 && x + 1 < |w.svc| && w.svc[x + 1].state != Started
  }

  ghost predicate Begun(w: World, b: World, n: nat, x: nat) {
    && x < n == |w.svc| && |w.lnk| == n - 1
    && var s := w.svc[x].(desired := Started, state := Starting, waitingForDeps := true, prop := w.svc[x].prop.(require := true));
       Looks(b, w.svc[x := s], if MustWait(w, n, x) then w.lnk[x := w.lnk[x].(waitingOn := true)] else w.lnk,
             w.prop + {x}, w.trans + if MustWait(w, n, x) then {} else {x})
  }

  lemma RowBegins(g: Graph, n: nat, w: World, b: World, x: nat)
    requires Row(g, n) && Shape(g, w) && x < n && StartDone(g, w, b, x)
    requires w.svc[x].state == Stopped && !w.svc[x].pins.stopped && !w.svc[x].prop.release
    ensures Begun(w, b, n, x)
  {
    forall l: nat ensures !Reattaches(g, w.svc, w.lnk, x, l) {
    }
    Begins(g, w, b, x);
    forall l: nat ensures (MustWaitFor(g, b.svc, x, l) <==> l == x && MustWait(w, n, x)) && !HeldUpBy(g, b.svc, x, l) {
    }
    var lnk := if MustWait(w, n, x) then w.lnk[x := w.lnk[x].(waitingOn := true)] else w.lnk;
    hide MustWaitFor, HeldUpBy;
    forall l | 0 <= l < n - 1 ensures b.lnk[l] == lnk[l] {
      assert b.lnk[l] == w.lnk[l].(waitingOn := w.lnk[l].waitingOn || MustWaitFor(g, b.svc, x, l) || HeldUpBy(g, b.svc, x, l));
    }
    assert b.lnk == lnk;
    assert MustWaitFor(g, b.svc, x, x) <==> MustWait(w, n, x);
  }

  // a start on request
  lemma RowStarts(g: Graph, n: nat, a: World, b: World, x: nat)
    requires Row(g, n) && Shape(g, a) && x < n && StartHandled(g, a, b, x)
    requires a.svc[x].state == Stopped && !a.svc[x].pins.stopped && !a.svc[x].startExplicit && !a.svc[x].prop.release
    ensures Begun(With(a, x, Activated(a.svc[x])), b, n, x)
  {
    RowBegins(g, n, With(a, x, Activated(a.svc[x])), b, x);
  }

  // x has passed on that it requires the next one
  ghost predicate RowRequired(a: World, b: World, n: nat, x: nat) {
    && x < n == |a.svc| && |a.lnk| == n - 1
    && var s := a.svc[x].(prop := Just(false, false, a.svc[x].prop.pinDpt));
       if x < n - 1 then
         Looks(b, a.svc[x := s][x + 1 := Required(a.svc[x + 1])], a.lnk[x := a.lnk[x].(holdingAcq := true)],
               a.prop - {x} + (if MustBeStarted(a.svc[x + 1]) then {x + 1} else {}), a.trans)
       else Looks(b, a.svc[x := s], a.lnk, a.prop - {x}, a.trans)
  }

  lemma RowRequires(g: Graph, n: nat, a: World, b: World, x: nat, outcome: BringUp, down: bool)
    requires Row(g, n) && Kept(g, a) && x < n && Handled(g, a, b, Process(x, outcome, down)) && x in a.prop
    requires a.svc[x].prop == Just(true, false, a.svc[x].prop.pinDpt) && PinRight(a, x)
    ensures RowRequired(a, b, n, x)
  {
    hide Handled, Order, PinPassed, RequireDone;
    var v, u := RequirePass(g, a, b, x, outcome, down);
    RowRequireDone(g, n, TakenUp(a, x), v, x);
    assert PinRight(u, x);
    RowPinStays(g, n, u, b, x);
  }

  lemma RowRequireDone(g: Graph, n: nat, a: World, v: World, x: nat)
    requires Row(g, n) && RequireDone(g, a, v, x) && x < n
    ensures v.trans == a.trans
    ensures if x < n - 1 then
              && v.svc == a.svc[x + 1 := Required(a.svc[x + 1])] && v.lnk == a.lnk[x := a.lnk[x].(holdingAcq := true)]
              && v.prop == a.prop + (if MustBeStarted(a.svc[x + 1]) then {x + 1} else {})
            else v.svc == a.svc && v.lnk == a.lnk && v.prop == a.prop
  {
    hide AllAgain, MustBeStarted;
    var m := |g.dependsOn[x]|;
    forall t: nat | t < n ensures Wanting(g, x, t, m) == if x < n - 1 && t == x + 1 then 1 else 0 {
      if x < n - 1 {
        assert Wanting(g, x, t, 0) == 0;
      }
    }
    forall s | 0 <= s < n ensures v.svc[s] == RequiredTimes(a.svc[s], Wanting(g, x, s, m)) {
    }
    forall s ensures s in v.prop <==> s in a.prop || (x < n - 1 && s == x + 1 && MustBeStarted(a.svc[x + 1])) {
      assert s in v.prop <==> s in a.prop || ToldToStart(g, a.svc, x, s, m);
    }
  }

  // a service is told to start, by the one before it
  lemma RowToldToStart(g: Graph, n: nat, a: World, b: World, x: nat, outcome: BringUp, down: bool)
    requires Row(g, n) && Kept(g, a) && x < n && Handled(g, a, b, Process(x, outcome, down)) && x in a.prop
    requires a.svc[x].prop == Just(false, true, a.svc[x].prop.pinDpt) && a.svc[x].state == Stopped && !a.svc[x].pins.stopped && PinRight(a, x)
    ensures Begun(TookUp(a, x), b, n, x)
  {
    hide Handled, Order, PinPassed, StartDone;
    var w, v, u := StartPass(g, a, b, x, outcome, down);
    RowBegins(g, n, w, v, x);
    assert PinRight(u, x);
    RowPinStays(g, n, u, b, x);
  }

  // x has acted on its start message, and has to look at its pins
  ghost function TookUp(w: World, x: nat): World
    requires x < |w.svc|
  {
    w.(svc := w.svc[x := w.svc[x].(prop := Just(false, false, w.svc[x].prop.pinDpt))], prop := w.prop - {x})
  }

  // a process has been launched, or not been needed
  lemma RowLaunches(g: Graph, n: nat, a: World, b: World, x: nat)
    requires Row(g, n) && Shape(g, a) && x < n && Transitioned(g, a, b, x, Launched, false)
    requires a.svc[x].state == Starting && (x < n - 1 ==> !a.lnk[x].waitingOn)
    ensures Looks(b, a.svc[x := a.svc[x].(waitingForDeps := false)], a.lnk, a.prop, a.trans - {x})
  {
    assert CanProceed(g, a.svc, a.lnk, x);
  }

  // x has come up, and the one before it, if it waits, is told
  ghost predicate CameUp(a: World, b: World, n: nat, x: nat) {
    && x < n == |a.svc| && |a.lnk| == n - 1
    && Looks(b, a.svc[x := a.svc[x].(waitingForDeps := false, state := Started)], if x > 0 then a.lnk[x - 1 := a.lnk[x - 1].(waitingOn := false)] else a.lnk,
             a.prop, a.trans - {x} + if x > 0 && a.lnk[x - 1].waitingOn then {x - 1} else {})
  }

  lemma RowUp(g: Graph, n: nat, a: World, b: World, x: nat)
    requires Row(g, n) && Shape(g, a) && x < n && Transitioned(g, a, b, x, Up, false)
    requires a.svc[x].state == Starting && !MustStop(a.svc[x]) && (x < n - 1 ==> !a.lnk[x].waitingOn)
    requires x > 0 && a.lnk[x - 1].waitingOn ==> a.svc[x - 1].state == Starting && a.svc[x - 1].waitingForDeps
    ensures CameUp(a, b, n, x)
  {
    assert CanProceed(g, a.svc, a.lnk, x);
    var v := Proceeding(a.(trans := a.trans - {x}), x);
    assert UpDone(g, v, b, x);
    hide Transitioned, CanProceed, UpDone;
    RowUpDone(g, n, v, b, x);
  }

  lemma RowUpDone(g: Graph, n: nat, a: World, b: World, x: nat)
    requires Row(g, n) && Shape(g, a) && x < n && UpDone(g, a, b, x) && !MustStop(a.svc[x])
    requires x > 0 && a.lnk[x - 1].waitingOn ==> a.svc[x - 1].state == Starting && a.svc[x - 1].waitingForDeps
    ensures b.svc == a.svc[x := a.svc[x].(state := Started)] && b.prop == a.prop
    ensures b.lnk == if x > 0 then a.lnk[x - 1 := a.lnk[x - 1].(waitingOn := false)] else a.lnk
    ensures b.trans == a.trans + if x > 0 && a.lnk[x - 1].waitingOn then {x - 1} else {}
  {
    if x > 0 {
      assert g.dependents[x] == [x - 1];
      assert ToldStarted(g, a.lnk, b, g.dependents[x][0]);
    }
    hide Stops, AllTold, ToldStarted;
    forall s | s in b.trans && s !in a.trans ensures x > 0 && s == x - 1 && a.lnk[x - 1].waitingOn {
      var l: nat :| Listens(g, a, l, s, x);
    }
  }

  const QUIET := Just(false, false, false)
  const FREE := Link(false, false)
  const HELD := Link(false, true)

  // pins on the last service change no one else
  lemma RowPins(g: Graph, n: nat, a: World, b: World)
    requires Row(g, n) && Shape(g, a) && PinStartDone(g, a, b, n - 1)
    ensures Looks(b, a.svc[n - 1 := a.svc[n - 1].(pins := a.svc[n - 1].pins.(started := true))], a.lnk, a.prop, a.trans)
  {
    var x := n - 1;
    if !(a.svc[x].pins.started || a.svc[x].pins.dept) {
      var v :| PinTold(g, a, v, x, true) && x < |v.svc| && b == Repinned(v, x, a.svc[x].pins.(started := true));
      forall s: nat ensures !Tells(g, a.svc, a.lnk, x, true, s) {
      }
      forall s | 0 <= s < n ensures v.svc[s] == a.svc[s] {
        assert Marked(a.svc[s], v.svc[s], Tells(g, a.svc, a.lnk, x, true, s));
      }
      assert v.prop == a.prop;
    }
  }

  // ---- a start that goes unreported ----

  // a service that is pinned, and starting, is released: it comes up all the same, and does not say so
  const LATE: seq<Event> := [
    PinStarted(1), StartIt(1), Process(1, Launched, false), Process(1, Launched, false), StopIt(1, false),
    StartIt(0), Process(0, Launched, false), IsUp(1)]

  const PINNED := IDLE.(pins := Pins(false, true, false))

  // service 1, launched
  const LATE_1 := PINNED.(startExplicit := true, requiredBy := 1, desired := Started, state := Starting)

  lemma LateBegins(h: seq<World>)
    requires FromTheStart(PairGraph(), h, LATE)
    ensures Looks(h[2], [IDLE, LATE_1.(waitingForDeps := true, prop := QUIET.(require := true))], [FREE], {1}, {1})
  {
    hide Order, Handled, PinStartDone, StartHandled, Row;
    var g := PairGraph();
    PairIsRow();
    assert h[0].svc == [IDLE, IDLE] && h[0].lnk == [FREE];
    HandledBy(g, h[0], h[1], LATE[0]);
    RowPins(g, 2, h[0], h[1]);
    HandledBy(g, h[1], h[2], LATE[1]);
    RowStarts(g, 2, h[1], h[2], 1);
    assert h[2].svc == [IDLE, LATE_1.(waitingForDeps := true, prop := QUIET.(require := true))];
  }

  lemma LateLaunches(h: seq<World>)
    requires IsHistory(PairGraph(), h, LATE)
    requires Looks(h[2], [IDLE, LATE_1.(waitingForDeps := true, prop := QUIET.(require := true))], [FREE], {1}, {1})
    ensures Looks(h[4], [IDLE, LATE_1], [FREE], {}, {})
  {
    hide Order, Handled, Transitioned, Row;
    var g := PairGraph();
    PairIsRow();
    RowRequires(g, 2, h[2], h[3], 1, Launched, false);
    TransitionedBy(g, h[3], h[4], 1, Launched, false);
    RowLaunches(g, 2, h[3], h[4], 1);
  }

  // service 1, no longer wanted
  const LATE_2 := LATE_1.(startExplicit := false, requiredBy := 0, desired := Stopped)

  // service 0, waiting
  const WAITING := IDLE.(startExplicit := true, requiredBy := 1, desired := Started, state := Starting, waitingForDeps := true)

  lemma LateReleased(h: seq<World>)
    requires IsHistory(PairGraph(), h, LATE) && Looks(h[4], [IDLE, LATE_1], [FREE], {}, {})
    ensures Looks(h[7], [WAITING, LATE_2.(requiredBy := 1)], [Link(true, true)], {}, {})
  {
    hide Order, Handled, StopHandled, StartHandled, Row;
    var g := PairGraph();
    PairIsRow();
    HandledBy(g, h[4], h[5], LATE[4]);
    PinnedStops(h[4], h[5]);
    HandledBy(g, h[5], h[6], LATE[5]);
    RowStarts(g, 2, h[5], h[6], 0);
    assert h[6].svc == [WAITING.(prop := QUIET.(require := true)), LATE_2] && h[6].lnk == [Link(true, false)];
    RowRequires(g, 2, h[6], h[7], 0, Launched, false);
    assert h[7].svc == [WAITING, LATE_2.(requiredBy := 1)] && h[7].lnk == [Link(true, true)];
  }

  lemma PinnedStops(a: World, b: World)
    requires StopHandled(PairGraph(), a, b, 1, false) && |a.svc| == 2 && a.svc[1] == LATE_1
    ensures Looks(b, [a.svc[0], LATE_2], a.lnk, a.prop, a.trans)
  {
    hide Stops;
    assert Unmarked(LATE_1, false) == LATE_2;
    assert a.svc[1 := LATE_2] == [a.svc[0], LATE_2];
  }

  // Service 0 waits for service 1, which runs, and with empty queues nothing is ever going to tell it
  lemma LateExample(h: seq<World>)
    requires FromTheStart(PairGraph(), h, LATE)
    ensures var w := h[|LATE|];
      && w.prop == {} && w.trans == {} && w.svc[0].state == Starting && w.svc[0].waitingForDeps
      && w.lnk == [Link(true, true)] && w.svc[1].state == Started && w.notes[1].late
  {
    hide Order, Handled, UpDone;
    LateBegins(h);
    LateLaunches(h);
    LateReleased(h);
    HandledBy(PairGraph(), h[7], h[8], LATE[7]);
    LateUp(h[7], h[8]);
  }

  lemma LateUp(a: World, b: World)
    requires Shape(PairGraph(), a) && UpDone(PairGraph(), a, b, 1) && a.svc[1] == LATE_2.(requiredBy := 1)
    ensures b.svc == a.svc[1 := a.svc[1].(state := Started)] && b.lnk == a.lnk && b.prop == a.prop && b.trans == a.trans
    ensures |b.notes| == 2 && b.notes[1].late
  {
    hide Stops, WaitersTold;
  }

  // ---- a service that runs while it is pinned, or the one above is ----

  // a pinned service starts its dependency, which comes up
  const PINNED_UP: seq<Event> := [
    PinStarted(0), Process(1, Launched, false), StartIt(0), Process(0, Launched, false), Process(1, Launched, false),
    Process(1, Launched, false), Process(1, Up, false)]

  // service 1, pinned on account of service 0
  const BELOW := IDLE.(pins := Pins(false, false, true), prop := QUIET.(pinDpt := true))

  const PINNED_WAITING := WAITING.(pins := Pins(false, true, false))

  // service 1, once required: starting, and started
  const BELOW_STARTING := BELOW.(requiredBy := 1, desired := Started, state := Starting, waitingForDeps := true)
  const BELOW_STARTED := BELOW.(requiredBy := 1, desired := Started, state := Started)

  lemma PinnedBegins(h: seq<World>, events: seq<Event>)
    requires FromTheStart(PairGraph(), h, events) && |events| >= 7 && events[..7] == PINNED_UP
    ensures Looks(h[2], [PINNED, BELOW], [FREE], {}, {})
  {
    hide Order, Handled, PinStartDone, PinPassed;
    var g := PairGraph();
    assert forall i :: 0 <= i < 7 ==> events[i] == events[..7][i];
    assert h[0].svc == [IDLE, IDLE] && h[0].lnk == [FREE];
    HandledBy(g, h[0], h[1], events[0]);
    PairPinsBelow(h[0], h[1]);
    var u := PinPass(g, h[1], h[2], 1, Launched, false);
    PairPinReaches(u, h[2]);
  }

  lemma PairPinsBelow(a: World, b: World)
    requires Shape(PairGraph(), a) && PinStartDone(PairGraph(), a, b, 0) && a.svc == [IDLE, IDLE]
    ensures Looks(b, [PINNED, IDLE.(prop := QUIET.(pinDpt := true))], a.lnk, a.prop + {1}, a.trans)
  {
    var g := PairGraph();
    var v :| PinTold(g, a, v, 0, true) && 0 < |v.svc| && b == Repinned(v, 0, a.svc[0].pins.(started := true));
    forall s: nat ensures Tells(g, a.svc, a.lnk, 0, true, s) <==> s == 1 {
      assert g.from[0] == 0 && g.to[0] == 1 && g.IsHard(0, a.lnk[0]);
    }
    forall s | 0 <= s < 2 ensures v.svc[s] == a.svc[s].(prop := a.svc[s].prop.(pinDpt := s == 1)) {
      assert Marked(a.svc[s], v.svc[s], Tells(g, a.svc, a.lnk, 0, true, s));
    }
    assert v.svc == [v.svc[0], v.svc[1]];
    assert v.prop == a.prop + {1};
  }

  lemma PairPinReaches(u: World, b: World)
    requires PinPassed(PairGraph(), u, b, 1) && Looks(u, [PINNED, IDLE.(prop := QUIET.(pinDpt := true))], [FREE], {}, {})
    ensures Looks(b, [PINNED, BELOW], [FREE], {}, {})
  {
    var g := PairGraph();
    PairIsRow();
    RowDependentPinned(g, 2, u, 1);
    var w := Repinned(u, 1, u.svc[1].pins.(dept := true));
    var v :| PinTold(g, w, v, 1, true) && StopIfDue(g, v, b, 1);
    forall s: nat ensures !Tells(g, w.svc, w.lnk, 1, true, s) {
    }
    forall s | 0 <= s < 2 ensures v.svc[s] == w.svc[s] {
      assert Marked(w.svc[s], v.svc[s], Tells(g, w.svc, w.lnk, 1, true, s));
    }
    assert v.svc == [v.svc[0], v.svc[1]] && v.prop == w.prop;
  }

  lemma PinnedComesUp(h: seq<World>, events: seq<Event>)
    requires IsHistory(PairGraph(), h, events) && |events| >= 7 && events[..7] == PINNED_UP && Looks(h[2], [PINNED, BELOW], [FREE], {}, {})
    ensures Looks(h[7], [PINNED_WAITING, BELOW_STARTED], [HELD], {}, {0})
  {
    hide Order, Handled, StartHandled, Transitioned, Row;
    var g := PairGraph();
    PairIsRow();
    assert forall i :: 0 <= i < 7 ==> events[i] == events[..7][i];
    HandledBy(g, h[2], h[3], events[2]);
    RowStarts(g, 2, h[2], h[3], 0);
    assert h[3].svc == [PINNED_WAITING.(prop := QUIET.(require := true)), BELOW] && h[3].lnk == [Link(true, false)];
    RowRequires(g, 2, h[3], h[4], 0, Launched, false);
    assert h[4].svc == [PINNED_WAITING, BELOW.(requiredBy := 1, prop := Just(false, true, true))] && h[4].lnk == [Link(true, true)];
    PinnedComesUpThen(h, events);
  }

  lemma PinnedComesUpThen(h: seq<World>, events: seq<Event>)
    requires IsHistory(PairGraph(), h, events) && |events| >= 7 && events[..7] == PINNED_UP
    requires Looks(h[4], [PINNED_WAITING, BELOW.(requiredBy := 1, prop := Just(false, true, true))], [Link(true, true)], {1}, {})
    ensures Looks(h[7], [PINNED_WAITING, BELOW_STARTED], [HELD], {}, {0})
  {
    hide Order, Handled, Transitioned, Row;
    var g := PairGraph();
    PairIsRow();
    assert forall i :: 0 <= i < 7 ==> events[i] == events[..7][i];
    RowToldToStart(g, 2, h[4], h[5], 1, Launched, false);
    assert h[5].svc == [PINNED_WAITING, BELOW_STARTING.(prop := Just(true, false, true))];
    RowRequires(g, 2, h[5], h[6], 1, Launched, false);
    assert h[6].svc == [PINNED_WAITING, BELOW_STARTING];
    TransitionedBy(g, h[6], h[7], 1, Up, false);
    RowUp(g, 2, h[6], h[7], 1);
    assert h[7].svc == [PINNED_WAITING, BELOW_STARTED] && h[7].lnk == [HELD];
  }

  // ---- a pin that outlives its reason ----

  // the pinned service then fails to start
  const STALE: seq<Event> := PINNED_UP + [Process(0, Refused, false)]

  // Service 1 stays pinned on account of service 0, which is not pinned any more, and nothing is left to tell it so
  lemma StalePinExample(h: seq<World>)
    requires FromTheStart(PairGraph(), h, STALE)
    ensures var g, a, b := PairGraph(), h[7], h[8];
      && AllUpToDate(g, a.svc, a.lnk, a.prop) && !PinNotMissed(g, a, 0)
      && b.svc[1].pins.dept && !Pending(b.svc, b.prop, 1) && !PinnedFromAbove(g, b.svc, b.lnk, 1)
  {
    hide Order, Handled, Transitioned;
    assert STALE[..7] == PINNED_UP;
    PinnedBegins(h, STALE);
    PinnedComesUp(h, STALE);
    TransitionedBy(PairGraph(), h[7], h[8], 0, Refused, false);
    StaleFails(h[7], h[8]);
  }

  lemma StaleFails(a: World, b: World)
    requires Shape(PairGraph(), a) && Looks(a, [PINNED_WAITING, BELOW_STARTED], [HELD], {}, {0})
    requires Transitioned(PairGraph(), a, b, 0, Refused, false)
    ensures var g := PairGraph();
      && AllUpToDate(g, a.svc, a.lnk, a.prop) && !PinNotMissed(g, a, 0)
      && b.svc[1].pins.dept && !Pending(b.svc, b.prop, 1) && !PinnedFromAbove(g, b.svc, b.lnk, 1)
  {
    hide FailDone, PinChain, AllUpToDate, PinNotMissed;
    StaleBefore(a);
    var v := Cancelled(Proceeding(a.(trans := a.trans - {0}), 0), 0);
    assert CanProceed(PairGraph(), a.svc, a.lnk, 0);
    StaleAfter(v, b);
  }

  lemma StaleBefore(a: World)
    requires Shape(PairGraph(), a) && Looks(a, [PINNED_WAITING, BELOW_STARTED], [HELD], {}, {0})
    ensures AllUpToDate(PairGraph(), a.svc, a.lnk, a.prop) && !PinNotMissed(PairGraph(), a, 0)
  {
    PairIsRow();
    RowDependentPinned(PairGraph(), 2, a, 0);
    RowDependentPinned(PairGraph(), 2, a, 1);
    assert !Covered(PairGraph(), a, 0, PairGraph().to[0]);
  }

  lemma StaleAfter(v: World, b: World)
    requires FailDone(PairGraph(), v, b, 0, true) && |v.svc| == 2 && v.svc[1] == BELOW_STARTED && v.prop == {}
    requires v.svc[0].pins == Pins(false, true, false)
    ensures b.svc[1].pins.dept && !Pending(b.svc, b.prop, 1) && !PinnedFromAbove(PairGraph(), b.svc, b.lnk, 1)
  {
    hide AllFailed, AllWoken, LetGo;
    var g := PairGraph();
    assert OnlyFails(v.svc[1], b.svc[1]);
    forall p ensures !PinChain(g, b.svc, b.lnk, p, 1) {
      if |p| > 1 {
        assert !PinChain(g, b.svc, b.lnk, p[..|p| - 1], 0);
      }
    }
  }

  // ---- services that go down ----

  const RUNNING := IDLE.(requiredBy := 1, desired := Started, state := Started)
  const STOPPING_0 := IDLE.(state := Stopping, prop := Props(false, true, false, false, false, false))
  const HALTING := STOPPING_0.(waitingForDeps := true)

  // the first service, started explicitly, stops on request
  lemma RowTopStops(g: Graph, n: nat, a: World, b: World)
    requires Row(g, n) && Shape(g, a) && StopHandled(g, a, b, 0, false) && a.svc[0] == RUNNING.(startExplicit := true)
    ensures Looks(b, a.svc[0 := STOPPING_0], a.lnk, a.prop + {0}, a.trans + {0})
  {
    var w := With(a, 0, Unmarked(a.svc[0], false));
    var v := ReleaseQueued(w, 0);
    hide StopRel, AllBroken, AllPassedOn, AllRestarted;
    assert Stops(g, v, b, 0, false);
    assert !HeldBack(g, v, 0) by {
      forall l: nat ensures !HeldBackBy(g, v, 0, l) {
      }
    }
    assert Calm(g, v, 0);
    assert b == StoppedCalmly(g, v, 0);
    assert b.svc == a.svc[0 := STOPPING_0];
  }

  // x has nothing to pass on but a release
  ghost predicate OnlyReleases(w: World, x: nat) {
    x < |w.svc| && w.svc[x].prop == STOPPING_0.prop
  }

  // ... and does
  lemma ReleasePass(g: Graph, a: World, b: World, x: nat, outcome: BringUp, down: bool) returns (v: World, u: World)
    requires Kept(g, a) && Handled(g, a, b, Process(x, outcome, down)) && x in a.prop && OnlyReleases(a, x)
    ensures Looks(v, a.svc, a.lnk, a.prop - {x}, a.trans) && ReleasePassed(g, v, u, x) && g.Valid()
    ensures x < |u.svc| && u.svc[x].prop == QUIET ==> Like(u, b)
  {
    hide Order, Handled, RequirePassed, FailurePassed, StartPassed, StopPassed, PinPassed, ReleasePassed;
    var t := PassSteps(g, a, b, x, outcome, down);
    NothingPassed(g, t[0], t[1], x);
    if t[2].svc[x].prop == QUIET {
      NothingPassed(g, t[2], t[3], x);
      NothingPassed(g, t[3], t[4], x);
      NothingPassed(g, t[4], t[5], x);
      NothingPassed(g, t[5], t[6], x);
    }
    v, u := t[1], t[2];
  }

  // ---- a dependency acquired twice ----

  // a service fails to start while it is pinned, and so goes on holding its dependency; it is started again, and stopped
  const TWICE: seq<Event> := PINNED_UP + [
    Process(0, Launched, false), NotUp(0, true), StartIt(0), Process(0, Launched, false), Process(0, Up, false),
    StopIt(0, false), Process(0, Launched, false)]

  lemma TwiceFails(h: seq<World>)
    requires FromTheStart(PairGraph(), h, TWICE)
    ensures Looks(h[9], [IDLE, BELOW_STARTED], [HELD], {}, {})
  {
    hide Order, Handled, Transitioned, FailDone, Row;
    var g := PairGraph();
    PairIsRow();
    assert TWICE[..7] == PINNED_UP;
    PinnedBegins(h, TWICE);
    PinnedComesUp(h, TWICE);
    TransitionedBy(g, h[7], h[8], 0, Launched, false);
    RowLaunches(g, 2, h[7], h[8], 0);
    assert h[8].svc == [PINNED_WAITING.(waitingForDeps := false), BELOW_STARTED];
    HandledBy(g, h[8], h[9], TWICE[8]);
    PinnedFails(h[8], h[9]);
  }

  lemma PinnedFails(a: World, b: World)
    requires Shape(PairGraph(), a) && FailDone(PairGraph(), a, b, 0, true) && Order(PairGraph(), a) && Order(PairGraph(), b)
    requires Looks(a, [PINNED_WAITING.(waitingForDeps := false), BELOW_STARTED], [HELD], {}, {})
    ensures Looks(b, [IDLE, BELOW_STARTED], [HELD], {}, {})
  {
    hide Order, AllWoken, LetGo, AllFailed;
    var g := PairGraph();
    NoneLeft(g, b, 0);
    RequiredByIsExact(g, a, 0);
    NoHolders(g, a.lnk, 0);
    assert OnlyFails(a.svc[1], b.svc[1]);
    assert b.svc[0] == IDLE;
    assert b.svc == [b.svc[0], b.svc[1]];
    assert b.lnk == [b.lnk[0]];
    assert b.prop == {};
    forall s ensures s !in b.trans {
      assert !Roused(g, a, 0, s);
    }
  }

  lemma NoHolders(g: Graph, lnk: seq<Link>, s: nat)
    requires forall l :: 0 <= l < |g.to| ==> g.to[l] != s
    ensures Holders(g, lnk, s) == {}
  {
  }

  lemma TwiceStarts(h: seq<World>)
    requires IsHistory(PairGraph(), h, TWICE) && Looks(h[9], [IDLE, BELOW_STARTED], [HELD], {}, {})
    ensures Looks(h[10], [WAITING.(prop := QUIET.(require := true)), BELOW_STARTED], [HELD], {0}, {0})
    ensures Looks(h[12], [RUNNING.(startExplicit := true), BELOW_STARTED.(requiredBy := 2)], [HELD], {}, {})
  {
    hide Order, Handled, Transitioned, StartHandled, Row;
    var g := PairGraph();
    PairIsRow();
    HandledBy(g, h[9], h[10], TWICE[9]);
    RowStarts(g, 2, h[9], h[10], 0);
    assert h[10].svc == [WAITING.(prop := QUIET.(require := true)), BELOW_STARTED];
    RowRequires(g, 2, h[10], h[11], 0, Launched, false);
    assert h[11].svc == [WAITING, BELOW_STARTED.(requiredBy := 2)] && h[11].lnk == [HELD];
    TransitionedBy(g, h[11], h[12], 0, Up, false);
    RowUp(g, 2, h[11], h[12], 0);
    assert h[12].svc == [RUNNING.(startExplicit := true), BELOW_STARTED.(requiredBy := 2)];
  }

  // Service 1 is acquired once more through the link that holds it, and is required for ever, by no one
  lemma TwiceExample(h: seq<World>)
    requires FromTheStart(PairGraph(), h, TWICE)
    ensures var w := h[|TWICE|];
      && h[11].notes[1].surplus == h[10].notes[1].surplus + 1
      && w.prop == {} && w.svc[1].state == Started && w.svc[1].requiredBy == 1 && w.lnk == [FREE] && !w.svc[1].startExplicit
  {
    hide Order, Handled, StopHandled;
    var g := PairGraph();
    TwiceFails(h);
    TwiceStarts(h);
    NotesExactly(g, h[10], h[11], TWICE[10], 1);
    assert Again(g, h[10].lnk, 0, 1, 0) == 0;
    HandledBy(g, h[12], h[13], TWICE[12]);
    PairIsRow();
    RowTopStops(g, 2, h[12], h[13]);
    assert h[13].svc == [STOPPING_0, BELOW_STARTED.(requiredBy := 2)];
    TwiceReleases(h[13], h[14]);
  }

  lemma TwiceReleases(a: World, b: World)
    requires Kept(PairGraph(), a) && Handled(PairGraph(), a, b, Process(0, Launched, false))
    requires Looks(a, [STOPPING_0, BELOW_STARTED.(requiredBy := 2)], [HELD], {0}, {0})
    ensures Looks(b, [STOPPING_0.(prop := QUIET), BELOW_STARTED], [FREE], {}, {0})
  {
    hide Handled, Order, AllInOrder;
    var g := PairGraph();
    var v, u := ReleasePass(g, a, b, 0, Launched, false);
    var trail: seq<World> :| ReleaseThrough(g, v, u, 0, trail);
    assert LinkReleased(g, trail[0], trail[0 + 1], g.dependsOn[0][0]);
    assert trail[1] == GivenBack(Unhold(g, v, 0), 1);
    assert u.svc == [STOPPING_0.(prop := QUIET), BELOW_STARTED];
    assert u.lnk == [FREE];
  }

  // ---- a service that waits for ever to stop ----

  // three services come up, and the one at the top stops; while the one below waits for that it is started again
  const STRANDED: seq<Event> := [
    StartIt(0), Process(0, Launched, false), Process(1, Launched, false), Process(1, Launched, false), Process(2, Launched, false),
    Process(2, Launched, false), Process(2, Up, false), Process(1, Up, false), Process(0, Up, false),
    StopIt(0, false), Process(0, Launched, false), Process(1, Launched, false), Process(2, Launched, false), Process(0, Launched, false),
    StartIt(1)]

  const TOLD := IDLE.(requiredBy := 1, prop := Just(false, true, false))
  const COMING := IDLE.(requiredBy := 1, desired := Started, state := Starting, waitingForDeps := true)
  const WAITS := Link(true, true)

  lemma ChainRequires(h: seq<World>)
    requires FromTheStart(ChainGraph(), h, STRANDED)
    ensures Looks(h[2], [WAITING, TOLD, IDLE], [WAITS, FREE], {1}, {})
  {
    hide Order, Handled, StartHandled, Row;
    var g := ChainGraph();
    ChainIsRow();
    assert h[0].svc == [IDLE, IDLE, IDLE] && h[0].lnk == [FREE, FREE];
    HandledBy(g, h[0], h[1], STRANDED[0]);
    RowStarts(g, 3, h[0], h[1], 0);
    assert h[1].svc == [WAITING.(prop := QUIET.(require := true)), IDLE, IDLE] && h[1].lnk == [Link(true, false), FREE];
    RowRequires(g, 3, h[1], h[2], 0, Launched, false);
    assert h[2].svc == [WAITING, TOLD, IDLE] && h[2].lnk == [WAITS, FREE];
  }

  lemma ChainRequiresOn(h: seq<World>)
    requires IsHistory(ChainGraph(), h, STRANDED) && Looks(h[2], [WAITING, TOLD, IDLE], [WAITS, FREE], {1}, {})
    ensures Looks(h[4], [WAITING, COMING, TOLD], [WAITS, WAITS], {2}, {})
  {
    hide Order, Handled, Row;
    var g := ChainGraph();
    ChainIsRow();
    RowToldToStart(g, 3, h[2], h[3], 1, Launched, false);
    assert h[3].svc == [WAITING, COMING.(prop := QUIET.(require := true)), IDLE] && h[3].lnk == [WAITS, Link(true, false)];
    RowRequires(g, 3, h[3], h[4], 1, Launched, false);
    assert h[4].svc == [WAITING, COMING, TOLD] && h[4].lnk == [WAITS, WAITS];
  }

  lemma ChainComesUp(h: seq<World>)
    requires IsHistory(ChainGraph(), h, STRANDED) && Looks(h[4], [WAITING, COMING, TOLD], [WAITS, WAITS], {2}, {})
    ensures Looks(h[7], [WAITING, COMING, RUNNING], [WAITS, HELD], {}, {1})
  {
    hide Order, Handled, Transitioned, Row;
    var g := ChainGraph();
    ChainIsRow();
    RowToldToStart(g, 3, h[4], h[5], 2, Launched, false);
    assert h[5].svc == [WAITING, COMING, COMING.(prop := QUIET.(require := true))];
    RowRequires(g, 3, h[5], h[6], 2, Launched, false);
    assert h[6].svc == [WAITING, COMING, COMING];
    TransitionedBy(g, h[6], h[7], 2, Up, false);
    RowUp(g, 3, h[6], h[7], 2);
    assert h[7].svc == [WAITING, COMING, RUNNING] && h[7].lnk == [WAITS, HELD];
  }

  lemma ChainComesUpOn(h: seq<World>)
    requires IsHistory(ChainGraph(), h, STRANDED) && Looks(h[7], [WAITING, COMING, RUNNING], [WAITS, HELD], {}, {1})
    ensures Looks(h[9], [RUNNING.(startExplicit := true), RUNNING, RUNNING], [HELD, HELD], {}, {})
  {
    hide Order, Handled, Transitioned, Row;
    var g := ChainGraph();
    ChainIsRow();
    TransitionedBy(g, h[7], h[8], 1, Up, false);
    RowUp(g, 3, h[7], h[8], 1);
    assert h[8].svc == [WAITING, RUNNING, RUNNING] && h[8].lnk == [HELD, HELD];
    TransitionedBy(g, h[8], h[9], 0, Up, false);
    RowUp(g, 3, h[8], h[9], 0);
    assert h[9].svc == [RUNNING.(startExplicit := true), RUNNING, RUNNING];
  }

  // x, which is stopping, holds the service below, which runs
  ghost predicate HoldsBelow(a: World, x: nat) {
    && x < 2 && |a.svc| == 3 && |a.lnk| == 2 && a.svc[x + 1] == RUNNING && a.lnk[x] == HELD
    && a.svc[x].state == Stopping && a.svc[x].desired == Stopped && a.svc[x].prop == STOPPING_0.prop
  }

  ghost predicate LeavesBelow(a: World, b: World, x: nat) {
    && x < 2 && |a.svc| == 3 && |a.lnk| == 2
    && Looks(b, a.svc[x := a.svc[x].(prop := QUIET)][x + 1 := HALTING], a.lnk[x := FREE], a.prop - {x} + {x + 1}, a.trans)
  }

  lemma ChainHalts(a: World, b: World, x: nat)
    requires Stops(ChainGraph(), a, b, x + 1, false) && x < 2 && |a.svc| == 3 && a.svc[x].state == Stopping && a.svc[x].desired == Stopped
    requires a.svc[x + 1] == HALTING.(state := Started, waitingForDeps := false)
    ensures b == With(a, x + 1, HALTING)
  {
    var g := ChainGraph();
    hide StopRel, AllBroken, AllPassedOn, AllRestarted;
    assert HeldBackBy(g, a, x + 1, x) && Calm(g, a, x + 1) by {
      StopsShape(g, a, b, x + 1);
    }
    assert b == StoppedCalmly(g, a, x + 1);
  }

  lemma StopsShape(g: Graph, a: World, b: World, x: nat)
    requires Stops(g, a, b, x, false)
    ensures Shape(g, a)
  {
    var r :| StopDone(g, a, b, x, false, r);
    StopAt(g, a, b, x, x);
  }

  lemma ChainReleases(a: World, b: World, x: nat)
    requires ReleasePassed(ChainGraph(), a, b, x) && HoldsBelow(a, x) && x !in a.prop
    ensures LeavesBelow(a, b, x)
  {
    hide Stops, AllInOrder;
    var g := ChainGraph();
    var trail: seq<World> :| ReleaseThrough(g, a, b, x, trail);
    assert g.dependsOn[x] == [x];
    assert LinkReleased(g, trail[0], trail[0 + 1], g.dependsOn[x][0]);
    var v := GivenBack(Unhold(g, a, x), x + 1);
    ChainHalts(v, trail[1], x);
  }

  lemma ChainPasses(a: World, b: World, x: nat)
    requires Kept(ChainGraph(), a) && Handled(ChainGraph(), a, b, Process(x, Launched, false)) && HoldsBelow(a, x) && x in a.prop
    ensures LeavesBelow(a, b, x)
  {
    hide Order, Handled, ReleasePassed;
    var v, u := ReleasePass(ChainGraph(), a, b, x, Launched, false);
    ChainReleases(v, u, x);
  }

  lemma ChainBottom(a: World, b: World)
    requires Kept(ChainGraph(), a) && Handled(ChainGraph(), a, b, Process(2, Launched, false)) && 2 in a.prop && |a.svc| == 3 && a.svc[2] == HALTING
    ensures Looks(b, a.svc[2 := HALTING.(prop := QUIET)], a.lnk, a.prop - {2}, a.trans)
  {
    hide Order, Handled, ReleasePassed;
    var v, u := ReleasePass(ChainGraph(), a, b, 2, Launched, false);
    ChainReleasesNone(v, u);
  }

  lemma ChainReleasesNone(a: World, b: World)
    requires ReleasePassed(ChainGraph(), a, b, 2) && |a.svc| == 3 && a.svc[2] == HALTING
    ensures Looks(b, a.svc[2 := HALTING.(prop := QUIET)], a.lnk, a.prop, a.trans)
  {
    var trail :| ReleaseThrough(ChainGraph(), a, b, 2, trail);
  }

  // the process of service 0 is being terminated
  lemma ChainGoesDown(a: World, b: World)
    requires Transitioned(ChainGraph(), a, b, 0, Launched, false) && Shape(ChainGraph(), a) && a.svc[0] == STOPPING_0.(prop := QUIET)
    ensures Looks(b, a.svc, a.lnk, a.prop, a.trans - {0})
  {
    assert CanProceed(ChainGraph(), a.svc, a.lnk, 0);
    assert a.svc[0 := a.svc[0]] == a.svc;
  }

  lemma ChainRestarts(a: World, b: World)
    requires Shape(ChainGraph(), a) && StartHandled(ChainGraph(), a, b, 1) && a.svc[1] == HALTING.(prop := QUIET)
    requires a.svc[2].state == Stopping && a.lnk == [FREE, FREE]
    ensures Looks(b, a.svc[1 := WAITING], [FREE, Link(true, false)], a.prop, a.trans)
  {
    var g := ChainGraph();
    var w := With(With(a, 1, Activated(a.svc[1])), 1, Wanted(Activated(a.svc[1])));
    assert Initiated(g, w, b, 1);
    assert MustWaitFor(g, b.svc, 1, 1);
    assert b.lnk == [b.lnk[0], b.lnk[1]];
    assert b.svc == a.svc[1 := WAITING];
  }

  // Service 2 waits to stop, service 1 waits for it to start, and with empty queues nothing is ever going to tell either
  lemma StrandedExample(h: seq<World>)
    requires FromTheStart(ChainGraph(), h, STRANDED)
    ensures var w := h[|STRANDED|];
      && w.prop == {} && w.trans == {} && |w.svc| == 3 && WaitsToStop(w.svc[2]) && !Blocked(ChainGraph(), w, 2)
      && w.svc[1].state == Starting && w.svc[1].waitingForDeps && w.lnk == [FREE, Link(true, false)]
  {
    hide Order, Handled;
    ChainRequires(h);
    ChainRequiresOn(h);
    ChainComesUp(h);
    ChainComesUpOn(h);
    ChainGoes(h);
    ChainGoesOn(h);
  }

  lemma ChainGoes(h: seq<World>)
    requires IsHistory(ChainGraph(), h, STRANDED) && Looks(h[9], [RUNNING.(startExplicit := true), RUNNING, RUNNING], [HELD, HELD], {}, {})
    ensures Looks(h[12], [STOPPING_0.(prop := QUIET), HALTING.(prop := QUIET), HALTING], [FREE, FREE], {2}, {0})
  {
    hide Order, Handled, StopHandled, Row;
    var g := ChainGraph();
    ChainIsRow();
    HandledBy(g, h[9], h[10], STRANDED[9]);
    RowTopStops(g, 3, h[9], h[10]);
    ChainPasses(h[10], h[11], 0);
    ChainPasses(h[11], h[12], 1);
    assert h[12].svc == [STOPPING_0.(prop := QUIET), HALTING.(prop := QUIET), HALTING] && h[12].lnk == [FREE, FREE];
  }

  lemma ChainGoesOn(h: seq<World>)
    requires IsHistory(ChainGraph(), h, STRANDED)
    requires Looks(h[12], [STOPPING_0.(prop := QUIET), HALTING.(prop := QUIET), HALTING], [FREE, FREE], {2}, {0})
    ensures var w := h[|STRANDED|];
      && w.prop == {} && w.trans == {} && |w.svc| == 3 && WaitsToStop(w.svc[2]) && !Blocked(ChainGraph(), w, 2)
      && w.svc[1].state == Starting && w.svc[1].waitingForDeps && w.lnk == [FREE, Link(true, false)]
  {
    hide Order, Handled, StartHandled, Transitioned;
    var g := ChainGraph();
    ChainBottom(h[12], h[13]);
    TransitionedBy(g, h[13], h[14], 0, Launched, false);
    ChainGoesDown(h[13], h[14]);
    HandledBy(g, h[14], h[15], STRANDED[14]);
    ChainRestarts(h[14], h[15]);
  }

  // ---- a service that runs for no one ----

  // service 0 depends on services 1 and 2
  function ForkGraph(): Graph {
    Graph([0, 0], [1, 2], [Regular, Regular], [[0, 1], [], []], [[], [0], [1]], [1, 0, 0], 1)
  }

  // service 2 is pinned stopped: service 0 fails with it, and lets go of service 1 before that has heard that it is required
  const UNASKED: seq<Event> := [
    PinStopped(2), StartIt(0), Process(0, Launched, false), Process(2, Launched, false), Process(2, Launched, false),
    Process(0, Launched, false), Process(0, Launched, false), Process(1, Launched, false), Process(1, Launched, false),
    Process(1, Up, false)]

  const BARRED := IDLE.(pins := Pins(true, false, false))
  const NOT_HELD := Link(true, false)
  const FAILING := Props(false, false, true, false, false, false)
  const RELEASING := STOPPING_0.prop

  lemma ForkBegins(h: seq<World>)
    requires FromTheStart(ForkGraph(), h, UNASKED)
    ensures Looks(h[2], [WAITING.(prop := QUIET.(require := true)), IDLE, BARRED], [NOT_HELD, NOT_HELD], {0}, {})
  {
    hide Order, Handled, StartHandled;
    var g := ForkGraph();
    assert h[0].svc == [IDLE, IDLE, IDLE] && h[0].lnk == [FREE, FREE];
    HandledBy(g, h[0], h[1], UNASKED[0]);
    assert h[1].svc == [IDLE, IDLE, BARRED];
    HandledBy(g, h[1], h[2], UNASKED[1]);
    ForkStarts(h[1], h[2]);
  }

  lemma ForkStarts(a: World, b: World)
    requires Shape(ForkGraph(), a) && StartHandled(ForkGraph(), a, b, 0) && Looks(a, [IDLE, IDLE, BARRED], [FREE, FREE], {}, {})
    ensures Looks(b, [WAITING.(prop := QUIET.(require := true)), IDLE, BARRED], [NOT_HELD, NOT_HELD], {0}, {})
  {
    var g := ForkGraph();
    var w := With(a, 0, Activated(a.svc[0]));
    forall l: nat ensures !Reattaches(g, w.svc, w.lnk, 0, l) {
    }
    Begins(g, w, b, 0);
    assert MustWaitFor(g, b.svc, 0, 0) && MustWaitFor(g, b.svc, 0, 1);
    assert b.lnk == [b.lnk[0], b.lnk[1]];
  }

  lemma ForkRequires(a: World, b: World)
    requires Kept(ForkGraph(), a) && Handled(ForkGraph(), a, b, Process(0, Launched, false))
    requires Looks(a, [WAITING.(prop := QUIET.(require := true)), IDLE, BARRED], [NOT_HELD, NOT_HELD], {0}, {})
    ensures Looks(b, [WAITING, TOLD, TOLD.(pins := BARRED.pins)], [WAITS, WAITS], {1, 2}, {})
  {
    hide Order, Handled, PinPassed;
    var g := ForkGraph();
    var v, u := RequirePass(g, a, b, 0, Launched, false);
    ForkRequired(TakenUp(a, 0), v);
    NoPinsPassed(g, u, b, 0);
    assert u.svc == [WAITING, TOLD, TOLD.(pins := BARRED.pins)];
  }

  lemma NoPinsPassed(g: Graph, u: World, b: World, x: nat)
    requires PinPassed(g, u, b, x) && !u.svc[x].prop.pinDpt
    ensures b == u
  {
  }

  lemma ForkRequired(a: World, v: World)
    requires RequireDone(ForkGraph(), a, v, 0) && Looks(a, [WAITING.(prop := QUIET.(require := true)), IDLE, BARRED], [NOT_HELD, NOT_HELD], {}, {})
    ensures Looks(v, [a.svc[0], TOLD, TOLD.(pins := BARRED.pins)], [WAITS, WAITS], {1, 2}, {})
  {
    ForkHeld(a, v);
    ForkTold(a, v);
    ForkCounts(a, v);
  }

  lemma ForkCounts(a: World, v: World)
    requires RequireDone(ForkGraph(), a, v, 0) && a.svc == [WAITING.(prop := QUIET.(require := true)), IDLE, BARRED]
    ensures v.svc == [a.svc[0], TOLD, TOLD.(pins := BARRED.pins)]
  {
    hide AllAgain, Requires, Wanting, ToldToStart;
    var g := ForkGraph();
    ForkWanting(0);
    ForkWanting(1);
    ForkWanting(2);
    assert v.svc[0] == RequiredTimes(a.svc[0], Wanting(g, 0, 0, 2)) && v.svc[1] == RequiredTimes(a.svc[1], Wanting(g, 0, 1, 2));
    assert v.svc[2] == RequiredTimes(a.svc[2], Wanting(g, 0, 2, 2));
    assert v.svc == [v.svc[0], v.svc[1], v.svc[2]];
  }

  lemma ForkTold(a: World, v: World)
    requires RequireDone(ForkGraph(), a, v, 0) && a.svc == [WAITING.(prop := QUIET.(require := true)), IDLE, BARRED] && a.prop == {}
    ensures v.prop == {1, 2} && v.trans == a.trans
  {
    hide AllAgain, AllRequired, Requires, Wanting;
    var g := ForkGraph();
    ForkWanting(0);
    ForkWanting(1);
    ForkWanting(2);
    forall s ensures s in v.prop <==> s == 1 || s == 2 {
      assert s in v.prop <==> s in a.prop || ToldToStart(g, a.svc, 0, s, 2);
    }
  }

  lemma ForkHeld(a: World, v: World)
    requires RequireDone(ForkGraph(), a, v, 0) && a.lnk == [NOT_HELD, NOT_HELD]
    ensures v.lnk == [WAITS, WAITS]
  {
    assert v.lnk == [v.lnk[0], v.lnk[1]];
  }

  lemma ForkWanting(t: nat)
    requires t < 3
    ensures Wanting(ForkGraph(), 0, t, 2) == if t == 0 then 0 else 1
  {
    assert Wanting(ForkGraph(), 0, t, 0) == 0;
    assert Wanting(ForkGraph(), 0, t, 1) == if t == 1 then 1 else 0;
  }

  // service 2 must not start, and service 0 is to fail
  lemma ForkRefuses(a: World, b: World)
    requires Kept(ForkGraph(), a) && Kept(ForkGraph(), b) && Handled(ForkGraph(), a, b, Process(2, Launched, false))
    requires Looks(a, [WAITING, TOLD, TOLD.(pins := BARRED.pins)], [WAITS, WAITS], {1, 2}, {})
    ensures Looks(b, [WAITING.(prop := FAILING), TOLD, BARRED.(prop := RELEASING)], [WAITS, NOT_HELD], {0, 1, 2}, {})
  {
    hide Order, Handled, RequirePassed, FailurePassed, StartPassed, StopPassed, PinPassed, ReleasePassed;
    var g := ForkGraph();
    var t := PassSteps(g, a, b, 2, Launched, false);
    NothingPassed(g, t[0], t[1], 2);
    NothingPassed(g, t[1], t[2], 2);
    NothingPassed(g, t[2], t[3], 2);
    ForkRefused(t[3], t[4]);
    NothingPassed(g, t[4], t[5], 2);
    NothingPassed(g, t[5], t[6], 2);
    ForkQueued(b);
  }

  lemma ForkRefused(a: World, b: World)
    requires Shape(ForkGraph(), a) && Order(ForkGraph(), a) && Order(ForkGraph(), b) && StartPassed(ForkGraph(), a, b, 2)
    requires Looks(a, [WAITING, TOLD, TOLD.(pins := BARRED.pins)], [WAITS, WAITS], {1}, {})
    ensures b.svc == [WAITING.(prop := FAILING), TOLD, BARRED.(prop := RELEASING)] && b.lnk == [WAITS, NOT_HELD] && {1} <= b.prop && b.trans == {}
  {
    hide Order, StartDone, FailDone;
    var g := ForkGraph();
    var c := Acked(a, 2, START);
    var w := With(c, 2, Wanted(c.svc[2]));
    assert StartDone(g, c, b, 2);
    StartRefused(g, c, b, 2);
    RequiredByIsExact(g, a, 2);
    assert Holders(g, a.lnk, 2) == {1};
    ForkFails(w, b);
  }

  lemma StartRefused(g: Graph, a: World, b: World, x: nat)
    requires StartDone(g, a, b, x) && a.svc[x].state == Stopped && a.svc[x].pins.stopped
    ensures FailDone(g, With(a, x, Wanted(a.svc[x])), b, x, false)
  {
    hide FailDone;
  }

  lemma ForkFails(w: World, b: World)
    requires Shape(ForkGraph(), w) && FailDone(ForkGraph(), w, b, 2, false) && Order(ForkGraph(), b)
    requires Looks(w, [WAITING, TOLD, TOLD.(pins := BARRED.pins, desired := Started, prop := QUIET)], [WAITS, WAITS], {1}, {}) && w.notes[2].surplus == 0
    ensures b.svc == [WAITING.(prop := FAILING), TOLD, BARRED.(prop := RELEASING)] && b.lnk == [WAITS, NOT_HELD] && {1} <= b.prop && b.trans == {}
  {
    hide Order;
    var g := ForkGraph();
    NoneLeft(g, b, 2);
    assert OnlyFails(w.svc[0], b.svc[0]) && OnlyFails(w.svc[1], b.svc[1]);
    assert Failed(g, b, g.dependents[2][0]);
    assert LnkStop(g.kind[1], w.lnk[1], b.lnk[1]);
    assert b.lnk == [b.lnk[0], b.lnk[1]];
    assert b.svc == [b.svc[0], b.svc[1], b.svc[2]];
    forall s ensures s !in b.trans {
      assert !Roused(g, w, 2, s);
    }
  }

  lemma ForkQueued(b: World)
    requires Kept(ForkGraph(), b) && b.svc == [WAITING.(prop := FAILING), TOLD, BARRED.(prop := RELEASING)] && {1} <= b.prop
    ensures b.prop == {0, 1, 2}
  {
    assert EntryAt(b, 0, 0) && EntryAt(b, 2, 0);
  }

  // services without dependencies have nothing to release
  lemma ForkReleasesNone(a: World, b: World, x: nat)
    requires ReleasePassed(ForkGraph(), a, b, x) && 0 < x < 3 && |a.svc| == 3 && a.svc[x].prop.release
    ensures Looks(b, a.svc[x := a.svc[x].(prop := a.svc[x].prop.(release := false))], a.lnk, a.prop, a.trans)
  {
    hide AllInOrder, NoneHeld, LinkReleased;
    var trail :| ReleaseThrough(ForkGraph(), a, b, x, trail);
  }

  lemma ForkIdles(a: World, b: World)
    requires Kept(ForkGraph(), a) && Handled(ForkGraph(), a, b, Process(2, Launched, false))
    requires Looks(a, [WAITING.(prop := FAILING), TOLD, BARRED.(prop := RELEASING)], [WAITS, NOT_HELD], {0, 1, 2}, {})
    ensures Looks(b, [WAITING.(prop := FAILING), TOLD, BARRED], [WAITS, NOT_HELD], {0, 1}, {})
  {
    hide Order, Handled, ReleasePassed;
    var v, u := ReleasePass(ForkGraph(), a, b, 2, Launched, false);
    ForkReleasesNone(v, u, 2);
    assert u.svc == [WAITING.(prop := FAILING), TOLD, BARRED];
  }

  const FAILED_0 := IDLE.(waitingForDeps := true)

  // service 0 fails
  lemma ForkGivesUp(a: World, b: World)
    requires Kept(ForkGraph(), a) && Kept(ForkGraph(), b) && Handled(ForkGraph(), a, b, Process(0, Launched, false))
    requires Looks(a, [WAITING.(prop := FAILING), TOLD, BARRED], [WAITS, NOT_HELD], {0, 1}, {})
    ensures Looks(b, [FAILED_0.(prop := RELEASING), TOLD, BARRED], [WAITS, NOT_HELD], {0, 1}, {})
  {
    hide Order, Handled, RequirePassed, FailurePassed, StartPassed, StopPassed, PinPassed, ReleasePassed;
    var g := ForkGraph();
    var t := PassSteps(g, a, b, 0, Launched, false);
    NothingPassed(g, t[0], t[1], 0);
    NothingPassed(g, t[1], t[2], 0);
    ForkTopFails(t[2], t[3]);
    NothingPassed(g, t[3], t[4], 0);
    NothingPassed(g, t[4], t[5], 0);
    NothingPassed(g, t[5], t[6], 0);
    ForkTopQueued(b);
  }

  lemma ForkTopQueued(b: World)
    requires Kept(ForkGraph(), b) && b.svc == [FAILED_0.(prop := RELEASING), TOLD, BARRED]
    ensures 0 in b.prop
  {
    assert EntryAt(b, 0, 0);
  }

  lemma ForkTopFails(a: World, b: World)
    requires Shape(ForkGraph(), a) && Order(ForkGraph(), a) && Order(ForkGraph(), b) && FailurePassed(ForkGraph(), a, b, 0)
    requires Looks(a, [WAITING.(prop := FAILING), TOLD, BARRED], [WAITS, NOT_HELD], {1}, {})
    ensures b.svc == [FAILED_0.(prop := RELEASING), TOLD, BARRED] && b.lnk == [WAITS, NOT_HELD] && {1} <= b.prop <= {0, 1} && b.trans == {}
  {
    hide Order, AllWoken, LetGo, AllFailed;
    var g := ForkGraph();
    var w := Fallen(a, 0);
    NoneLeft(g, b, 0);
    RequiredByIsExact(g, a, 0);
    NoHolders(g, a.lnk, 0);
    assert OnlyFails(w.svc[1], b.svc[1]) && OnlyFails(w.svc[2], b.svc[2]);
    assert b.lnk == [b.lnk[0], b.lnk[1]];
    assert b.svc == [b.svc[0], b.svc[1], b.svc[2]];
    forall s ensures s !in b.trans {
      assert !Roused(g, w, 0, s);
    }
  }

  // a service that is to start, and to release its dependencies first
  const LEFT := IDLE.(prop := Props(false, true, false, true, false, false))

  lemma ForkReleases(a: World, b: World)
    requires Kept(ForkGraph(), a) && Handled(ForkGraph(), a, b, Process(0, Launched, false))
    requires Looks(a, [FAILED_0.(prop := RELEASING), TOLD, BARRED], [WAITS, NOT_HELD], {0, 1}, {})
    ensures Looks(b, [FAILED_0, LEFT, BARRED], [NOT_HELD, NOT_HELD], {1}, {})
  {
    hide Order, Handled, ReleasePassed;
    var g := ForkGraph();
    var v, u := ReleasePass(g, a, b, 0, Launched, false);
    ForkReleased(v, u);
  }

  lemma ForkReleased(a: World, b: World)
    requires ReleasePassed(ForkGraph(), a, b, 0) && Looks(a, [FAILED_0.(prop := RELEASING), TOLD, BARRED], [WAITS, NOT_HELD], {1}, {})
    ensures Looks(b, [FAILED_0, LEFT, BARRED], [NOT_HELD, NOT_HELD], {1}, {})
  {
    hide AllInOrder;
    var g := ForkGraph();
    var trail: seq<World> :| ReleaseThrough(g, a, b, 0, trail);
    assert LinkReleased(g, trail[0], trail[0 + 1], g.dependsOn[0][0]) && LinkReleased(g, trail[1], trail[1 + 1], g.dependsOn[0][1]);
    assert trail[1] == GivenBack(Unhold(g, a, 0), 1);
    assert trail[2] == trail[1];
    assert b.svc == [FAILED_0, LEFT, BARRED];
    assert b.lnk == [NOT_HELD, NOT_HELD];
  }

  // service 1, running, with nothing to require it
  const UP_1 := IDLE.(desired := Started, state := Started)

  lemma ForkStartsUnasked(a: World, b: World)
    requires Kept(ForkGraph(), a) && Handled(ForkGraph(), a, b, Process(1, Launched, false))
    requires Looks(a, [FAILED_0, LEFT, BARRED], [NOT_HELD, NOT_HELD], {1}, {})
    ensures Looks(b, [FAILED_0, UP_1.(state := Starting, waitingForDeps := true, prop := QUIET.(require := true)), BARRED], [NOT_HELD, NOT_HELD], {1}, {1})
  {
    hide Order, Handled, RequirePassed, FailurePassed, StartPassed, StopPassed, PinPassed, ReleasePassed;
    var g := ForkGraph();
    var t := PassSteps(g, a, b, 1, Launched, false);
    NothingPassed(g, t[0], t[1], 1);
    ForkReleasesNone(t[1], t[2], 1);
    NothingPassed(g, t[2], t[3], 1);
    ForkStartsThen(t[3], t[4]);
    NothingPassed(g, t[4], t[5], 1);
    NothingPassed(g, t[5], t[6], 1);
  }

  lemma ForkStartsThen(a: World, b: World)
    requires StartPassed(ForkGraph(), a, b, 1) && Looks(a, [FAILED_0, TOLD.(requiredBy := 0), BARRED], [NOT_HELD, NOT_HELD], {}, {})
    ensures Looks(b, [FAILED_0, UP_1.(state := Starting, waitingForDeps := true, prop := QUIET.(require := true)), BARRED], [NOT_HELD, NOT_HELD], {1}, {1})
  {
    var g := ForkGraph();
    var w := Acked(a, 1, START);
    forall l: nat ensures !Reattaches(g, w.svc, w.lnk, 1, l) {
    }
    Begins(g, w, b, 1);
    forall l: nat ensures !MustWaitFor(g, b.svc, 1, l) && !HeldUpBy(g, b.svc, 1, l) {
    }
    assert b.lnk == [b.lnk[0], b.lnk[1]];
    assert b.svc == [b.svc[0], b.svc[1], b.svc[2]];
  }

  lemma ForkRequiresNone(a: World, b: World)
    requires Kept(ForkGraph(), a) && Handled(ForkGraph(), a, b, Process(1, Launched, false))
    requires a.svc == [FAILED_0, UP_1.(state := Starting, waitingForDeps := true, prop := QUIET.(require := true)), BARRED] && 1 in a.prop
    ensures Looks(b, [FAILED_0, UP_1.(state := Starting, waitingForDeps := true), BARRED], a.lnk, a.prop - {1}, a.trans)
  {
    hide Order, Handled, PinPassed, RequireDone;
    var g := ForkGraph();
    var v, u := RequirePass(g, a, b, 1, Launched, false);
    NoPinsPassed(g, u, b, 1);
    ForkRequiredNone(TakenUp(a, 1), v);
    assert u.svc == [FAILED_0, UP_1.(state := Starting, waitingForDeps := true), BARRED];
  }

  lemma ForkRequiredNone(a: World, v: World)
    requires RequireDone(ForkGraph(), a, v, 1)
    ensures v.svc == a.svc && v.lnk == a.lnk && v.prop == a.prop && v.trans == a.trans
  {
    hide AllAgain;
    var g := ForkGraph();
    forall s | 0 <= s < 3 ensures v.svc[s] == a.svc[s] {
      assert v.svc[s] == RequiredTimes(a.svc[s], Wanting(g, 1, s, 0));
    }
    forall l | 0 <= l < 2 ensures v.lnk[l] == a.lnk[l] {
      assert !Requires(g, 1, l);
    }
    forall s ensures s in v.prop <==> s in a.prop {
      assert !ToldToStart(g, a.svc, 1, s, 0);
    }
  }

  lemma ForkUp(a: World, b: World)
    requires Shape(ForkGraph(), a) && Transitioned(ForkGraph(), a, b, 1, Up, false)
    requires Looks(a, [FAILED_0, UP_1.(state := Starting, waitingForDeps := true), BARRED], [NOT_HELD, NOT_HELD], {}, {1})
    ensures b.svc == [FAILED_0, UP_1, BARRED] && b.prop == {} && b.trans == {}
  {
    var g := ForkGraph();
    assert CanProceed(g, a.svc, a.lnk, 1);
    var v := Proceeding(a.(trans := a.trans - {1}), 1);
    assert UpDone(g, v, b, 1);
    hide Transitioned, AllTold, Stops;
    assert b.svc == [FAILED_0, UP_1, BARRED];
    forall s ensures s !in b.trans {
      assert forall l: nat :: !Listens(g, v, l, s, 1);
    }
  }

  lemma ForkGoesDown(h: seq<World>)
    requires IsHistory(ForkGraph(), h, UNASKED)
    requires Looks(h[2], [WAITING.(prop := QUIET.(require := true)), IDLE, BARRED], [NOT_HELD, NOT_HELD], {0}, {})
    ensures Looks(h[7], [FAILED_0, LEFT, BARRED], [NOT_HELD, NOT_HELD], {1}, {})
  {
    hide Order, Handled;
    ForkRequires(h[2], h[3]);
    ForkRefuses(h[3], h[4]);
    ForkIdles(h[4], h[5]);
    ForkGivesUp(h[5], h[6]);
    ForkReleases(h[6], h[7]);
  }

  // Service 1 runs, is not pinned and not required, and there is nothing more to do
  lemma UnaskedExample(h: seq<World>)
    requires FromTheStart(ForkGraph(), h, UNASKED)
    ensures var w := h[|UNASKED|];
      w.prop == {} && w.trans == {} && |w.svc| == 3 && w.svc[1].state == Started && !w.svc[1].IsStartPinned() && w.svc[1].requiredBy == 0
  {
    hide Order, Handled, Transitioned;
    ForkBegins(h);
    ForkGoesDown(h);
    ForkStartsUnasked(h[7], h[8]);
    ForkRequiresNone(h[8], h[9]);
    TransitionedBy(ForkGraph(), h[9], h[10], 1, Up, false);
    ForkUp(h[9], h[10]);
  }
}
