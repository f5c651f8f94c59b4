// What holds in every history of a service set, from the first event to the last.
module ServiceHistories {
  import opened ServiceRecords
  import opened ServiceBooks
  import opened ServiceStops
  import opened ServicePins
  import opened ServiceSteps
  import opened ServicePasses
  import opened ServiceUpkeep
  import opened ServiceGuarantees

  // ---- single events ----

  // a start request reaches a service that is launched, and has been told to stop but not acted on that yet
  predicate StartsOverStop(a: World, e: Event) {
    e.StartIt? && e.x < |a.svc| && IsLaunched(a.svc[e.x]) && a.svc[e.x].prop.stop
  }

  lemma ServiceEventKeeps(g: Graph, a: World, b: World, e: Event)
    requires Kept(g, a) && Shape(g, b) && !e.Attach? && !e.Process? && e.x < |a.svc| && ServiceHandled(g, a, b, e)
    ensures Obedient(a, b) && AskedBut(a, b, |a.svc|) && (!e.PinStarted? ==> Unpinning(a, b))
    ensures !StartsOverStop(a, e) && NoPins(a.svc) && !e.PinStarted? ==> Mindful(g, a, b)
  {
    hide Order, StartHandled, StopHandled, TerminationHandled, PinStartDone, UnpinHandled, UpDone, DownDone, FailDone, Mindful, ForcedIn;
    GraphValid(g, a);
    SameUpholds(g, a, a);
    match e
    case StartIt(x) => StartItKeeps(g, a, b, x);
    case StopIt(x, bringDown) => StopItKeeps(g, a, b, x, bringDown);
    case ForceIt(x) => ForceKeeps(g, a, x);
    case RestartIt(x) =>
      if a.svc[x].state == Started {
        TerminationKeeps(g, a, b, x, true);
      }
    case PinStarted(x) => PinStartKeeps(g, a, b, x);
    case PinStopped(x) => RepinKeeps(g, a, x, a.svc[x].pins.(stopped := true));
    case UnpinIt(x) =>
      UnpinKeeps(g, a, b, x);
      PinlessAt(a.svc, x);
    case IsUp(x) =>
      if a.svc[x].state == Starting && !a.svc[x].waitingForDeps {
        UpKeeps(g, a, b, x);
      }
    case IsDown(x) =>
      if a.svc[x].state == Stopping {
        DownKeeps(g, a, b, x);
      }
    case NotUp(x, immediateStop) =>
      if a.svc[x].state == Starting && !a.svc[x].waitingForDeps {
        if immediateStop {
          FailKeeps(g, a, b, x, true);
        } else {
          CancelledKeeps(g, a, x);
          FailKeeps(g, Cancelled(a, x), b, x, false);
          UpholdsTrans(g, a, Cancelled(a, x), b);
        }
      }
    case Died(x) =>
      if a.svc[x].state == Started {
        TerminationKeeps(g, a, b, x, false);
      }
  }

  lemma PinlessAt(svc: seq<Service>, x: nat)
    requires x < |svc|
    ensures NoPins(svc) ==> !svc[x].pins.started
  {
  }

  // the event is a pass
  predicate PassesOn(a: World, e: Event) {
    e.Process? && e.x in a.prop
  }

  // What one event keeps: orders that stand; who is wanted, but for a service that passes messages on; and without pins, that
  // services wait for what they need
  lemma EventKeeps(g: Graph, a: World, b: World, e: Event)
    requires Kept(g, a) && Kept(g, b) && Handled(g, a, b, e)
    ensures Obedient(a, b)
    ensures AskedBut(a, b, if PassesOn(a, e) then e.x else |a.svc|)
    ensures !e.PinStarted? && NoPins(a.svc) ==> NoPins(b.svc)
    ensures !StartsOverStop(a, e) && !e.PinStarted? && NoPins(a.svc) && AllReady(g, a) ==> AllReady(g, b)
  {
    hide Order, ServiceHandled, AttachHandled, Attachable, Passes, Transitioned, Mindful, Upholds, AllReady, NoPins, Obeys, Asked, Obedient;
    GraphValid(g, a);
    SameUpholds(g, a, a);
    UpholdsStep(g, a, a, |a.svc|);
    match e
    case Attach(l) =>
      if Attachable(g, a, l) {
        AttachKeeps(g, a, b, l);
        UpholdsStep(g, a, b, |a.svc|);
      }
    case Process(x, outcome, downAtOnce) =>
      if Due(a, x) {
        var trail :| Processed(g, a, b, x, trail, outcome, downAtOnce);
        ProcessKeeps(g, a, b, x, trail, outcome, downAtOnce);
      }
    case _ =>
      if e.x < |a.svc| {
        ServiceEventKeeps(g, a, b, e);
        if !e.PinStarted? && NoPins(a.svc) {
          UnpinningNone(a, b);
          if !StartsOverStop(a, e) && AllReady(g, a) {
            MindfulReady(g, a, b);
          }
        }
      }
  }

  lemma ProcessKeeps(g: Graph, a: World, b: World, x: nat, trail: seq<World>, outcome: BringUp, downAtOnce: bool)
    requires Kept(g, a) && Kept(g, b) && Processed(g, a, b, x, trail, outcome, downAtOnce)
    ensures Obedient(a, b)
    ensures AskedBut(a, b, if a.prop != {} then x else |a.svc|)
    ensures NoPins(a.svc) ==> NoPins(b.svc)
    ensures NoPins(a.svc) && AllReady(g, a) ==> AllReady(g, b)
  {
    hide Order, Transitioned, Mindful, Upholds, AllReady, NoPins, Obeys, Asked, Obedient, MessagesPassed, PinPassed;
    GraphValid(g, a);
    if a.prop != {} {
      PassesKeep(g, a, b, x, trail);
    } else {
      TransitionKeeps(g, a, b, x, outcome, downAtOnce);
      UpholdsStep(g, a, b, |a.svc|);
    }
  }

  // ---- what is acquired twice, and starts that no one hears of ----

  // s comes up in this event
  ghost predicate ComesUp(g: Graph, a: World, e: Event, s: nat) {
    && s < |a.svc| && a.svc[s].state == Starting
    && ((e.IsUp? && e.x == s && !a.svc[s].waitingForDeps)
        || (e.Process? && e.x == s && e.outcome == Up && a.prop == {} && s in a.trans && CanProceed(g, a.svc, a.lnk, s)))
  }

  // what x requires of s through links that hold it already, when it passes that on in this event
  ghost function RequiredAgain(g: Graph, a: World, e: Event, s: nat): nat
    requires Shape(g, a)
  {
    if e.Process? && e.x < |a.svc| && e.x in a.prop && a.svc[e.x].prop.require then Again(g, a.lnk, e.x, s, |g.dependsOn[e.x]|) else 0
  }

  // late starts and double acquisitions stay as they are
  ghost predicate SameCounts(a: seq<Note>, b: seq<Note>) {
    |a| == |b| && forall s {:trigger b[s]} :: 0 <= s < |a| ==> b[s].late == a[s].late && b[s].surplus == a[s].surplus
  }

  lemma SameCountsTrans(a: seq<Note>, b: seq<Note>, c: seq<Note>)
    requires SameCounts(a, b) && SameCounts(b, c)
    ensures SameCounts(a, c)
  {
    forall s | 0 <= s < |a| ensures c[s].late == a[s].late && c[s].surplus == a[s].surplus {
      assert b[s].late == a[s].late && b[s].surplus == a[s].surplus;
    }
  }

  lemma StopsNotes(g: Graph, a: World, b: World, x: nat, withRestart: bool)
    requires Stops(g, a, b, x, withRestart)
    ensures b.notes == a.notes
  {
    var r :| StopDone(g, a, b, x, withRestart, r);
    StopDrops(g, a, b, x);
  }

  lemma ReleasedNotes(g: Graph, a: World, b: World, l: nat)
    requires LinkReleased(g, a, b, l)
    ensures b.notes == a.notes
  {
    hide Stops;
    if a.lnk[l].holdingAcq && StopsWhenReleased(a.svc[g.to[l]]) {
      StopsNotes(g, GivenBack(Unhold(g, a, l), g.to[l]), b, g.to[l], false);
    }
  }

  lemma {:induction false} AllReleasedNotes(g: Graph, trail: seq<World>, x: nat, n: nat, m: nat)
    requires AllReleased(g, trail, x, n) && m <= n
    ensures trail[m].notes == trail[0].notes
  {
    if m > 0 {
      hide LinkReleased;
      AllReleasedNotes(g, trail, x, n, m - 1);
      assert LinkReleased(g, trail[m - 1], trail[m - 1 + 1], g.dependsOn[x][m - 1]);
      ReleasedNotes(g, trail[m - 1], trail[m], g.dependsOn[x][m - 1]);
    }
  }

  lemma RequireNotes(g: Graph, a: World, b: World, x: nat, s: nat)
    requires RequirePassed(g, a, b, x) && s < |a.notes|
    ensures |b.notes| == |a.notes| && b.notes[s].late == a.notes[s].late
    ensures b.notes[s].surplus == a.notes[s].surplus + if a.svc[x].prop.require then Again(g, a.lnk, x, s, |g.dependsOn[x]|) else 0
  {
    hide AllRequired;
    if a.svc[x].prop.require {
      var v :| RequireDone(g, a, v, x) && b == Acked(v, x, REQUIRE);
      assert v.notes[s] == a.notes[s].(surplus := a.notes[s].surplus + Again(g, a.lnk, x, s, |g.dependsOn[x]|));
    }
  }

  lemma ReleaseNotes(g: Graph, a: World, b: World, x: nat)
    requires ReleasePassed(g, a, b, x)
    ensures SameCounts(a.notes, b.notes)
  {
    hide AllReleased;
    if a.svc[x].prop.release {
      var trail :| ReleaseThrough(g, a, b, x, trail);
      ThroughLength(g, a, b, x, trail);
      AllReleasedNotes(g, trail, x, |g.dependsOn[x]|, |g.dependsOn[x]|);
    }
  }

  lemma StopPassNotes(g: Graph, a: World, b: World, x: nat)
    requires StopPassed(g, a, b, x)
    ensures SameCounts(a.notes, b.notes)
  {
    hide Stops;
    if a.svc[x].prop.stop {
      StopsNotes(g, Acked(a, x, STOP), b, x, a.svc[x].inUserRestart);
    }
  }

  lemma PinPassNotes(g: Graph, a: World, b: World, x: nat)
    requires PinPassed(g, a, b, x)
    ensures b.notes == a.notes
  {
    hide Stops, PinsPassed;
    var dept := DependentPinned(g, a.svc, a.lnk, x);
    if a.svc[x].prop.pinDpt && dept != a.svc[x].pins.dept {
      var w := Repinned(a, x, a.svc[x].pins.(dept := dept));
      var v :| PinTold(g, w, v, x, dept) && StopIfDue(g, v, b, x);
      if b != v {
        StopsNotes(g, v, b, x, false);
      }
    }
  }

  lemma FailNotes(g: Graph, a: World, b: World, x: nat)
    requires FailurePassed(g, a, b, x)
    ensures SameCounts(a.notes, b.notes)
  {
  }

  lemma StartPassNotes(g: Graph, a: World, b: World, x: nat)
    requires StartPassed(g, a, b, x)
    ensures SameCounts(a.notes, b.notes)
  {
    hide StartDone;
    if a.svc[x].prop.start {
      StartNotes(g, Acked(a, x, START), b, x);
    }
  }

  lemma PassNotes(g: Graph, a: World, b: World, x: nat, trail: seq<World>, s: nat)
    requires Shape(g, a) && x < |a.svc| && Passes(g, trail, x) && trail[0] == TakenUp(a, x) && trail[6] == b && s < |a.svc|
    ensures |b.notes| == |a.notes| && b.notes[s].late == a.notes[s].late
    ensures b.notes[s].surplus == a.notes[s].surplus + if a.svc[x].prop.require then Again(g, a.lnk, x, s, |g.dependsOn[x]|) else 0
  {
    hide RequirePassed, ReleasePassed, FailurePassed, StartPassed, StopPassed, PinPassed, Again, AllInOrder;
    var t := trail[..6];
    assert t[0] == trail[0] && t[5] == trail[5];
    RequireNotes(g, t[0], t[1], x, s);
    ReleaseNotes(g, t[1], t[2], x);
    FailNotes(g, t[2], t[3], x);
    StartPassNotes(g, t[3], t[4], x);
    StopPassNotes(g, t[4], t[5], x);
    PinPassNotes(g, t[5], trail[6], x);
    SameCountsTrans(t[1].notes, t[2].notes, t[3].notes);
    SameCountsTrans(t[1].notes, t[3].notes, t[4].notes);
    SameCountsTrans(t[1].notes, t[4].notes, t[5].notes);
  }

  lemma TransitionedNotes(g: Graph, a: World, b: World, x: nat, outcome: BringUp, downAtOnce: bool, s: nat)
    requires Shape(g, a) && x in a.trans && a.prop == {} && Transitioned(g, a, b, x, outcome, downAtOnce) && s < |a.svc|
    ensures |b.notes| == |a.notes| && b.notes[s].surplus == a.notes[s].surplus
    ensures b.notes[s].late == if ComesUp(g, a, Process(x, outcome, downAtOnce), s) then Late(a.svc[s]) else a.notes[s].late
  {
    hide AllBroken, AllFailed, AllFail, LetGo, WaitersTold, Stops;
  }

  lemma ServiceNotes(g: Graph, a: World, b: World, e: Event, s: nat)
    requires Shape(g, a) && !e.Attach? && !e.Process? && e.x < |a.svc| && ServiceHandled(g, a, b, e) && s < |a.svc|
    ensures |b.notes| == |a.notes| && b.notes[s].surplus == a.notes[s].surplus
    ensures b.notes[s].late == if ComesUp(g, a, e, s) then Late(a.svc[s]) else a.notes[s].late
  {
    hide AllBroken, AllFailed, AllFail, LetGo, WaitersTold, Stops, StartDone, PinTold;
    match e
    case StartIt(x) =>
      if !a.svc[x].pins.stopped {
        StartNotes(g, With(a, x, Activated(a.svc[x])), b, x);
      }
    case StopIt(x, bringDown) =>
      var u := Unmarked(a.svc[x], bringDown);
      var w := With(a, x, u);
      var v := if u.requiredBy == 0 then ReleaseQueued(w, x) else w;
      if b != w && b != v {
        StopsNotes(g, v, b, x, false);
      }
    case RestartIt(x) =>
      if a.svc[x].state == Started {
        StopsNotes(g, With(a, x, a.svc[x].(forceStop := true)), b, x, true);
      }
    case Died(x) =>
      if a.svc[x].state == Started {
        StopsNotes(g, With(a, x, a.svc[x].(forceStop := true)), b, x, false);
      }
    case PinStarted(x) => PinStartNotes(g, a, b, x);
    case UnpinIt(x) => UnpinNotes(g, a, b, x);
    case _ =>
  }

  lemma PinStartNotes(g: Graph, a: World, b: World, x: nat)
    requires PinStartDone(g, a, b, x)
    ensures b.notes == a.notes
  {
    hide PinsPassed;
  }

  lemma UnpinNotes(g: Graph, a: World, b: World, x: nat)
    requires UnpinHandled(g, a, b, x)
    ensures b.notes == a.notes
  {
    hide PinsPassed, Stops;
    if a.svc[x].pins.started {
      var v, u :|
        && PinDropped(g, a, v, x) && x < |v.svc|
        && if a.svc[x].pins.dept then u == v && b == v
           else UnwantedDone(g, v, u, x) && x < |u.svc| && b == Repinned(u, x, u.svc[x].pins.(stopped := false));
      if !a.svc[x].pins.dept && v.svc[x].state == Started && MustStop(v.svc[x]) {
        var w := if v.svc[x].requiredBy == 0 then
                   With(v, x, v.svc[x].(prop := v.svc[x].prop.(release := true))).(prop := v.prop + {x})
                 else v;
        StopsNotes(g, w, u, x, false);
      }
    }
  }

  // A start goes unreported exactly if the service comes up pinned while it must stop; and a count exceeds the number of
  // holders by what is required once more through links that hold
  lemma NotesExactly(g: Graph, a: World, b: World, e: Event, s: nat)
    requires Kept(g, a) && Kept(g, b) && Handled(g, a, b, e) && s < |a.svc|
    ensures |b.notes| == |a.notes|
    ensures b.notes[s].late == if ComesUp(g, a, e, s) then MustStop(a.svc[s]) && a.svc[s].IsStartPinned() else a.notes[s].late
    ensures b.notes[s].surplus == a.notes[s].surplus + RequiredAgain(g, a, e, s)
  {
    hide Order, ServiceHandled, AttachHandled, Attachable, Passes, Transitioned, CanProceed, Again;
    match e
    case Attach(l) =>
      if Attachable(g, a, l) {
        AttachNotes(g, a, b, l);
      }
    case Process(x, outcome, downAtOnce) =>
      if Due(a, x) {
        var trail :| Processed(g, a, b, x, trail, outcome, downAtOnce);
        if a.prop != {} {
          PassNotes(g, a, b, x, trail, s);
        } else {
          TransitionedNotes(g, a, b, x, outcome, downAtOnce, s);
        }
      }
    case _ =>
      if e.x < |a.svc| {
        ServiceNotes(g, a, b, e, s);
      }
  }

  lemma AttachNotes(g: Graph, a: World, b: World, l: nat)
    requires AttachHandled(g, a, b, l)
    ensures b.notes == a.notes
  {
  }

  // ---- histories from the beginning ----

  ghost predicate FromTheStart(g: Graph, history: seq<World>, events: seq<Event>) {
    IsHistory(g, history, events) && Initial(g, history[0])
  }

  lemma HistoryAt(g: Graph, history: seq<World>, events: seq<Event>, i: nat)
    requires IsHistory(g, history, events) && i < |history|
    ensures |history| == |events| + 1 && Kept(g, history[i]) && g.Valid() && Shape(g, history[i]) && |history[i].svc| == |g.rank|
    ensures i < |events| ==> Kept(g, history[i + 1]) && Handled(g, history[i], history[i + 1], events[i])
  {
    hide Handled;
    GraphValid(g, history[i]);
  }

  // A running service that must stop, and may, has been told to: in every history
  lemma {:induction false} AllObey(g: Graph, history: seq<World>, events: seq<Event>, i: nat, s: nat)
    requires FromTheStart(g, history, events) && i < |history| && s < |history[i].svc|
    ensures Obeys(history[i].svc[s])
  {
    hide Handled, Kept;
    HistoryAt(g, history, events, i);
    if i > 0 {
      HistoryAt(g, history, events, i - 1);
      AllObey(g, history, events, i - 1, s);
      EventKeeps(g, history[i - 1], history[i], events[i - 1]);
    }
  }

  // ---- histories without pins ----

  predicate Pinless(events: seq<Event>) {
    forall i :: 0 <= i < |events| ==> !events[i].PinStarted?
  }

  // Nothing is pinned, and no start goes unreported, unless a pin is requested
  lemma {:induction false} NothingPinned(g: Graph, history: seq<World>, events: seq<Event>, i: nat)
    requires FromTheStart(g, history, events) && Pinless(events) && i < |history|
    ensures NoPins(history[i].svc) && forall s :: 0 <= s < |history[i].svc| ==> !history[i].notes[s].late
  {
    hide Handled, Order;
    HistoryAt(g, history, events, i);
    if i > 0 {
      HistoryAt(g, history, events, i - 1);
      var a, b, e := history[i - 1], history[i], events[i - 1];
      NothingPinned(g, history, events, i - 1);
      EventKeeps(g, a, b, e);
      forall s | 0 <= s < |b.svc| ensures !b.notes[s].late {
        NotesExactly(g, a, b, e, s);
        assert !a.svc[s].IsStartPinned();
      }
    }
  }

  // No lost wake-ups, in any history without pins: when the queues are empty, a service that still waits has a dependency
  // that has yet to start
  lemma NothingLost(g: Graph, history: seq<World>, events: seq<Event>, i: nat, s: nat)
    requires FromTheStart(g, history, events) && Pinless(events) && i < |history| && history[i].trans == {}
    requires s < |history[i].svc| && history[i].svc[s].state == Starting && history[i].svc[s].waitingForDeps
    ensures exists l :: 0 <= l < |history[i].lnk| && g.from[l] == s && history[i].lnk[l].waitingOn
                        && g.to[l] < |history[i].svc| && history[i].svc[g.to[l]].state != Started
  {
    HistoryAt(g, history, events, i);
    NothingPinned(g, history, events, i);
    QuietMeansBlocked(g, history[i], s);
  }

  // A start that went unreported was one of a service that was pinned and had to stop
  lemma {:induction false} LateSince(g: Graph, history: seq<World>, events: seq<Event>, i: nat, s: nat)
    requires FromTheStart(g, history, events) && i < |history| && s < |history[i].svc| && history[i].notes[s].late
    ensures exists k :: 0 <= k < i && ComesUp(g, history[k], events[k], s) && MustStop(history[k].svc[s]) && history[k].svc[s].IsStartPinned()
  {
    hide Handled, Order, ComesUp;
    HistoryAt(g, history, events, i);
    if i > 0 {
      HistoryAt(g, history, events, i - 1);
      NotesExactly(g, history[i - 1], history[i], events[i - 1], s);
      if !ComesUp(g, history[i - 1], events[i - 1], s) {
        LateSince(g, history, events, i - 1, s);
      }
    }
  }

  predicate NoStartOverStop(history: seq<World>, events: seq<Event>) {
    |history| == |events| + 1 && forall i :: 0 <= i < |events| ==> !StartsOverStop(history[i], events[i])
  }

  // start requests come when all messages have been passed on, as callers see to
  predicate Drained(history: seq<World>, events: seq<Event>) {
    |history| == |events| + 1 && forall i :: 0 <= i < |events| && events[i].StartIt? ==> history[i].prop == {}
  }

  lemma DrainedIsEnough(g: Graph, history: seq<World>, events: seq<Event>)
    requires IsHistory(g, history, events) && Drained(history, events)
    ensures NoStartOverStop(history, events)
  {
    hide Handled, Order;
    forall i | 0 <= i < |events| ensures !StartsOverStop(history[i], events[i]) {
      HistoryAt(g, history, events, i);
      if events[i].StartIt? && events[i].x < |history[i].svc| {
        NoMessages(g, history[i], events[i].x);
      }
    }
  }

  lemma {:induction false} AlwaysReady(g: Graph, history: seq<World>, events: seq<Event>, i: nat)
    requires FromTheStart(g, history, events) && Pinless(events) && NoStartOverStop(history, events) && i < |history|
    ensures AllReady(g, history[i])
  {
    hide Handled, Order, Sound, Ready;
    HistoryAt(g, history, events, i);
    if i > 0 {
      HistoryAt(g, history, events, i - 1);
      AlwaysReady(g, history, events, i - 1);
      NothingPinned(g, history, events, i - 1);
      EventKeeps(g, history[i - 1], history[i], events[i - 1]);
    } else {
      ReadyAtFirst(g, history[0]);
    }
  }

  lemma ReadyAtFirst(g: Graph, w: World)
    requires g.Valid() && Shape(g, w) && Initial(g, w)
    ensures AllReady(g, w)
  {
    forall l | 0 <= l < |w.lnk| ensures Ready(g, w.svc, w.lnk, l) {
      g.Ends(l);
    }
  }

  // What a service manager is for: whenever a service is brought up, all that it regularly depends on is running, as long as
  // nothing is pinned, and no service is started again between being told to stop and stopping
  lemma BroughtUpOnDependencies(g: Graph, history: seq<World>, events: seq<Event>, i: nat, l: nat)
    requires FromTheStart(g, history, events) && Pinless(events) && NoStartOverStop(history, events) && i < |events|
    requires events[i].Process? && history[i].prop == {} && events[i].x in history[i].trans
    requires CanProceed(g, history[i].svc, history[i].lnk, events[i].x) && history[i].svc[events[i].x].state == Starting
    requires l < |history[i].lnk| && g.from[l] == events[i].x && g.kind[l] == Regular
    ensures g.to[l] < |history[i].svc| && history[i].svc[g.to[l]].state == Started
  {
    hide Handled;
    var w, x := history[i], events[i].x;
    HistoryAt(g, history, events, i);
    AlwaysReady(g, history, events, i);
    NothingPinned(g, history, events, i);
    NoMessages(g, w, x);
    assert EntryAt(w, x, 0);
    assert Ready(g, w.svc, w.lnk, l);
  }
}
