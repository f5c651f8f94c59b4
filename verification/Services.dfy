// A set of services, started and stopped together: the state machine of every one, and the two queues by which they
// tell each other what to do. Every method keeps the whole set in order.
module Services {
  import opened ServiceRecords
  import opened ServiceBooks
  import opened ServiceStops
  import opened ServicePins
  import opened ServiceSteps
  import opened ServicePasses

  class ServiceSet {
    const g: Graph
    var svc: seq<Service>
    var lnk: seq<Link>
    var propQueue: set<nat>
    var transitionQueue: set<nat>
    ghost var ties: Ties
    ghost var notes: seq<Note>

    ghost function Now(): World
      reads this
    {
      World(svc, lnk, propQueue, transitionQueue, ties, notes)
    }

    // the invariant
    ghost predicate Ok()
      reads this
    {
      Shape(g, Now()) && Order(g, Now())
    }

    // the invariant, except that service x has due more requirements than the books show
    ghost predicate OkBut(x: nat, due: int)
      reads this
    {
      Shape(g, Now()) && x < |svc| && OrderOff(g, Now(), x) && EntryAt(Now(), x, due)
    }

    // dependency_started()
    method DependencyStarted(s: nat)
      requires s < |svc|
      modifies this`transitionQueue
      ensures transitionQueue == old(transitionQueue) +
                if (svc[s].state == Starting || svc[s].state == Started) && svc[s].waitingForDeps then {s} else {}
    {
      if (svc[s].state == Starting || svc[s].state == Started) && svc[s].waitingForDeps {
        transitionQueue := transitionQueue + {s};
      }
    }

    // forced_stop(): stop, whether or not dependents are willing
    method ForcedStop(s: nat)
      requires Ok() && s < |svc|
      modifies this`svc, this`propQueue
      ensures Ok() && StopRel(g, old(Now()), Now(), s) && Told(old(svc[s]), svc[s]) && ReadyAround(g, old(Now()), Now(), s)
      ensures Now() == ForcedIn(old(Now()), s)
    {
      hide Order, OrderOff, StopRel, Graph.Valid, Entry, SvcStop, Told, ReadyAround;
      ghost var w0 := Now();
      if svc[s].state != Stopped {
        svc := svc[s := svc[s].(forceStop := true)];
        if !svc[s].IsStartPinned() {
          svc := svc[s := svc[s].(prop := svc[s].prop.(stop := true))];
          propQueue := propQueue + {s};
        }
      }
      assert w0.svc[s].(desired := w0.svc[s].desired) == w0.svc[s];
      assert w0.svc[s := w0.svc[s]] == w0.svc;
      ForcedInOrder(g, w0, Now(), s, w0.svc[s].desired);
    }

    // unrecoverable_stop(): ... and do not restart
    method UnrecoverableStop(s: nat)
      requires Ok() && s < |svc|
      modifies this`svc, this`propQueue
      ensures Ok() && StopRel(g, old(Now()), Now(), s) && Told(old(svc[s]), svc[s]) && ReadyAround(g, old(Now()), Now(), s)
      ensures ButFor(old(svc), svc, s) && svc[s] == Forced(old(svc[s]).(desired := Stopped))
      ensures propQueue == old(propQueue) + if svc[s].state != Stopped && !svc[s].IsStartPinned() then {s} else {}
    {
      hide Order, OrderOff, StopRel, Graph.Valid, Entry, SvcStop, Told, ReadyAround;
      ghost var w0 := Now();
      svc := svc[s := svc[s].(desired := Stopped)];
      if svc[s].state != Stopped {
        svc := svc[s := svc[s].(forceStop := true)];
        if !svc[s].IsStartPinned() {
          svc := svc[s := svc[s].(prop := svc[s].prop.(stop := true))];
          propQueue := propQueue + {s};
        }
      }
      ForcedInOrder(g, w0, Now(), s, Stopped);
    }

    // release(), short of the stop order it may issue
    method GiveBack(x: nat)
      requires OkBut(x, 1)
      modifies this`svc, this`propQueue
      ensures Ok() && StopRel(g, old(Now()), Now(), x)
      ensures Now() == GivenBack(old(Now()), x)
    {
      hide Order, OrderOff, StopRel, Graph.Valid, Entry, SvcStop, Released;
      ghost var w0 := Now();
      ReleasedCases(svc[x]);
      var s := svc[x];
      s := s.(requiredBy := s.requiredBy - 1);
      if s.requiredBy == 0 {
        s := s.(desired := Stopped);
        if !s.IsStartPinned() {
          s := s.(prop := s.prop.(release := !s.prop.require, require := false));
          if s.prop.release {
            propQueue := propQueue + {x};
          }
        }
      }
      svc := svc[x := s];
      ReleasedInOrder(g, w0, Now(), x);
    }

    // release(): one requirement less, already taken off the books; the last one stops the service
    method Release(x: nat, issueStop: bool := true)
      requires OkBut(x, 1)
      modifies this
      ensures Ok() && StopRel(g, old(Now()), Now(), x)
      ensures if issueStop then ReleaseDone(g, old(Now()), Now(), x) else Now() == GivenBack(old(Now()), x)
      decreases g.top - g.rank[x], if issueStop then 4 else 0
    {
      hide Order, OrderOff, StopRel, Graph.Valid, Entry;
      GiveBack(x);
      if issueStop && svc[x].requiredBy == 0 && !svc[x].IsStartPinned() && svc[x].state != Stopped && svc[x].state != Stopping {
        ghost var w1 := Now();
        DoStop(x);
        StopTrans(g, old(Now()), w1, Now(), x);
      }
    }

    // do_stop(): begin to stop, unless pinned, with the dependents first
    method DoStop(x: nat, withRestart: bool := false)
      requires Ok() && x < |svc|
      modifies this
      ensures Ok() && StopRel(g, old(Now()), Now(), x)
      ensures Stops(g, old(Now()), Now(), x, withRestart)
      decreases g.top - g.rank[x], 3
    {
      hide Order, OrderOff, StopRel, Graph.Valid, AllBroken, AllPassedOn, AllRestarted, Entry, HeldBack, ButFor;
      ghost var w0 := Now();
      if svc[x].IsStartPinned() {
        StopRefl(g, w0, x);
        assert StopDone(g, w0, Now(), x, withRestart, withRestart);
        return;
      }
      // auto_restart mode, exit status of the process, and check_restart()
      var autoRestart: bool := *;
      var restart := withRestart || (autoRestart && svc[x].desired == Started);
      DropActivation(x, restart);
      ghost var w1 := Now();
      StopAt(g, w0, w1, x, x);
      var allDepsStopped := StopDependents(x, restart, withRestart);
      ghost var w2 := Now();
      StopAt(g, w1, w2, x, x);
      EnterStopping(x, allDepsStopped);
      StopIsDone(g, w0, w1, w2, Now(), x, withRestart, restart, allDepsStopped);
    }

    // do_stop(): the restart marks, and explicit activation is given up unless the service will restart
    method DropActivation(x: nat, restart: bool)
      requires Ok() && x < |svc|
      modifies this
      ensures Ok() && StopRel(g, old(Now()), Now(), x)
      ensures ActivationDropped(old(Now()), Now(), x, restart)
      decreases g.top - g.rank[x], 2
    {
      hide Order, OrderOff, StopRel, Graph.Valid;
      ghost var w0 := Now();
      Open(g, w0, x);
      svc := svc[x := svc[x].(inUserRestart := false)];
      if !restart && svc[x].startExplicit {
        svc := svc[x := svc[x].(startExplicit := false)];
        ghost var w1 := Now();
        Touch(g, w0, w1, x);
        StopOne(g, w0, w1, x);
        Release(x, false);
        StopTrans(g, w0, w1, Now(), x);
      } else {
        ghost var w1 := Now();
        Touch(g, w0, w1, x);
        Close(g, w1, x);
        StopOne(g, w0, w1, x);
      }
    }

    // do_stop(), once dependents have been dealt with
    method EnterStopping(x: nat, allDepsStopped: bool)
      requires Ok() && x < |svc|
      modifies this`svc, this`transitionQueue
      ensures Ok() && StopRel(g, old(Now()), Now(), x)
      ensures StoppingEntered(old(Now()), Now(), x, allDepsStopped)
    {
      hide Order, OrderOff, StopRel, Graph.Valid, Entry, SvcStop;
      if svc[x].state != Started {
        if svc[x].state == Starting {
          if !svc[x].waitingForDeps {
            var canInterruptStart: bool := *;
            var interruptStart: bool := *;
            if !canInterruptStart {
              StopRefl(g, Now(), x);
              return;
            }
            if !interruptStart {
              // a process being signalled is set STOPPING by its own interrupt_start()
              var signalled: bool := *;
              if signalled {
                SetStopping(x, svc[x].waitingForDeps, false);
              } else {
                StopRefl(g, Now(), x);
              }
              return;
            }
          }
        } else {
          StopRefl(g, Now(), x);
          return;
        }
      }
      SetStopping(x, !allDepsStopped, allDepsStopped);
    }

    method SetStopping(x: nat, waiting: bool, ready: bool)
      requires Ok() && x < |svc| && (svc[x].state == Starting || svc[x].state == Started)
      modifies this`svc, this`transitionQueue
      ensures Ok() && StopRel(g, old(Now()), Now(), x)
      ensures Now() == old(Now()).(svc := old(svc)[x := old(svc[x]).(state := Stopping, waitingForDeps := waiting)],
                                   trans := old(transitionQueue) + if ready then {x} else {})
    {
      hide Order, OrderOff, StopRel, Graph.Valid;
      ghost var w0 := Now();
      Open(g, w0, x);
      svc := svc[x := svc[x].(state := Stopping, waitingForDeps := waiting)];
      if ready {
        transitionQueue := transitionQueue + {x};
      }
      Touch(g, w0, Now(), x);
      Close(g, Now(), x);
      StopOne(g, w0, Now(), x);
    }

    // stop_dependents(): tell the hard dependents, break the soft links
    method StopDependents(x: nat, forRestart: bool, restartDeps: bool) returns (allDepsStopped: bool)
      requires Ok() && x < |svc| && (restartDeps ==> forRestart)
      modifies this
      ensures Ok() && DependentsTold(g, old(Now()), Now(), x, |g.dependents[x]|, forRestart, restartDeps, allDepsStopped)
      decreases g.top - g.rank[x], 2
    {
      hide Order, OrderOff, StopRel, Graph.Valid, Entry, DependentsTold, DependentTold, PassedOn, RestartsWith, SameButReleased, SvcStop;
      allDepsStopped := true;
      ghost var w0 := Now();
      NoDependentsTold(g, w0, x, forRestart, restartDeps);
      for i := 0 to |g.dependents[x]|
        invariant Ok() && |svc| == |w0.svc| && DependentsTold(g, w0, Now(), x, i, forRestart, restartDeps, allDepsStopped)
      {
        ghost var w1 := Now();
        StopRefl(g, w1, x);
        DependentEnds(g, w1, x, i);
        var dept := g.dependents[x][i];
        var from := g.from[dept];
        ghost var all := allDepsStopped;
        if g.IsHard(dept, lnk[dept]) && !svc[from].IsFundamentallyStopped() {
          allDepsStopped := false;
        }
        StopDependent(x, dept, forRestart, restartDeps);
        DependentsToldMore(g, w0, w1, Now(), x, i, forRestart, restartDeps, all, allDepsStopped);
      }
    }

    // ... one of them
    method StopDependent(x: nat, dept: nat, forRestart: bool, restartDeps: bool)
      requires Ok() && x < |svc| && dept < |lnk| && g.to[dept] == x && g.from[dept] < |svc| && g.rank[x] < g.rank[g.from[dept]] <= g.top
      modifies this
      ensures Ok() && DependentTold(g, old(Now()), Now(), x, dept, forRestart, restartDeps)
      decreases g.top - g.rank[x], 1, 2
    {
      hide Order, OrderOff, StopRel, Graph.Valid, Entry, SvcStop, RestartsWith, PassedOn, ButFor, Released;
      StopRefl(g, Now(), x);
      if g.IsHard(dept, lnk[dept]) {
        StopHardDependent(x, g.from[dept], restartDeps);
      } else if !forRestart {
        ReleasedSame(svc[x]);
        BreakSoftLink(x, dept);
      }
    }

    // ... what a hard dependent is told
    method StopHardDependent(x: nat, from: nat, restartDeps: bool)
      requires Ok() && x < |svc| && from < |svc| && g.rank[x] < g.rank[from] <= g.top
      modifies this
      ensures Ok() && StopRel(g, old(Now()), Now(), x)
      ensures svc[x] == old(svc[x])
      ensures PassedOn(old(svc[from]), svc[from], svc[x].forceStop, svc[x].desired == Stopped)
      ensures svc[x].desired != Stopped ==>
                && ButFor(old(svc), svc, from) && svc[from].state == old(svc[from]).state
                && (old(svc[from]).inUserRestart ==> svc[from].inUserRestart)
      ensures svc[x].desired != Stopped && restartDeps ==> RestartsWith(old(svc[from]), svc[from])
      ensures svc[x].desired == Stopped && !svc[x].forceStop && (old(svc[from]).state == Stopped || old(svc[from]).desired == Stopped) ==>
                Now() == old(Now())
      decreases g.top - g.rank[x], 1, 1
    {
      hide Order, OrderOff, StopRel, Graph.Valid, Entry, PassedOn, RestartsWith, SvcStop;
      ghost var w0 := Now();
      StopRefl(g, w0, x);
      if svc[x].forceStop {
        ForceDependent(x, from);
      }
      ghost var w1 := Now();
      BringDownDependent(x, from, restartDeps);
      StopAt(g, w1, Now(), x, from);
      StopTrans(g, w0, w1, Now(), x);
      if svc[x].forceStop {
        PassedOnStays(w0.svc[from], w1.svc[from], svc[from], true, svc[x].desired == Stopped);
      }
      RestartsSince(w0.svc[from], w1.svc[from], svc[from]);
    }

    // ... if the stop is forced
    method ForceDependent(x: nat, from: nat)
      requires Ok() && x < |svc| && from < |svc| && g.rank[x] < g.rank[from] <= g.top
      modifies this
      ensures Ok() && StopRel(g, old(Now()), Now(), x) && ButFor(old(svc), svc, from)
      ensures svc[from].state == old(svc[from]).state && svc[from].inUserRestart == old(svc[from]).inUserRestart
      ensures PassedOn(old(svc[from]), svc[from], true, svc[x].desired == Stopped)
    {
      hide Order, OrderOff, StopRel, Graph.Valid, Entry, ReadyAround, ReadyInto;
      ghost var w0 := Now();
      GraphValid(g, w0);
      if svc[x].desired == Stopped {
        UnrecoverableStop(from);
      } else {
        ForcedStop(from);
      }
      StopLift(g, w0, Now(), x, from);
    }

    // ... if it is not stopped yet
    method BringDownDependent(x: nat, from: nat, restartDeps: bool)
      requires Ok() && x < |svc| && from < |svc| && g.rank[x] < g.rank[from] <= g.top
      modifies this
      ensures Ok() && StopRel(g, old(Now()), Now(), x)
      ensures svc[x] == old(svc[x])
      ensures PassedOn(old(svc[from]), svc[from], false, svc[x].desired == Stopped)
      ensures svc[x].desired != Stopped ==>
                && ButFor(old(svc), svc, from) && svc[from].state == old(svc[from]).state
                && (old(svc[from]).inUserRestart ==> svc[from].inUserRestart)
      ensures svc[x].desired != Stopped && restartDeps ==> RestartsWith(old(svc[from]), svc[from])
      ensures svc[x].desired == Stopped && (old(svc[from]).state == Stopped || old(svc[from]).desired == Stopped) ==> Now() == old(Now())
      decreases g.top - g.rank[x], 1, 0
    {
      hide Order, OrderOff, StopRel, Graph.Valid, Entry, ReadyAround, ReadyInto;
      ghost var w0 := Now();
      GraphValid(g, w0);
      StopRefl(g, w0, x);
      if svc[from].state != Stopped {
        if svc[x].desired == Stopped {
          if svc[from].desired != Stopped {
            Withdraw(from);
            StopAt(g, w0, Now(), from, x);
            StopLift(g, w0, Now(), x, from);
          }
        } else if restartDeps && svc[from].state != Stopping {
          TellToStop(from, true);
          StopAt(g, w0, Now(), from, from);
          ToldAround(g, w0, Now(), from);
          StopLift(g, w0, Now(), x, from);
        }
      }
    }

    // stop_dependents(): a dependent that is not to restart
    method Withdraw(y: nat)
      requires Ok() && y < |svc| && svc[y].desired != Stopped && svc[y].state != Stopped
      modifies this
      ensures Ok() && StopRel(g, old(Now()), Now(), y) && Told(old(svc[y]), svc[y])
      ensures ReadyAround(g, old(Now()), Now(), y) && NewlyHeld(g, old(Now()), Now(), y)
      ensures svc[y].desired == Stopped && !svc[y].startExplicit && svc[y].prop.stop && y in propQueue
      decreases g.top - g.rank[y], 6
    {
      hide Order, OrderOff, StopRel, Graph.Valid, Entry, ReadyInto, ReadyAround, Told, ReleaseDone, SvcStop;
      ghost var w0 := Now();
      GraphValid(g, w0);
      SetUnwanted(y);
      ghost var w2 := Now();
      StopAt(g, w0, w2, y, y);
      TellToStop(y, svc[y].inUserRestart);
      StopTrans(g, w0, w2, Now(), y);
      HeldBackStays(g, w2, Now(), y, y);
      StopAt(g, w0, Now(), y, y);
      WithdrawnMinds(w0.svc[y], svc[y]);
      ReadyIntoTrans(g, w0, w2, Now(), y);
      ToldAround(g, w0, Now(), y);
    }

    method SetUnwanted(y: nat)
      requires Ok() && y < |svc| && svc[y].state != Stopped
      modifies this
      ensures Ok() && StopRel(g, old(Now()), Now(), y) && ReadyInto(g, old(Now()), Now(), y) && NewlyHeld(g, old(Now()), Now(), y)
      ensures svc[y].desired == Stopped && !svc[y].startExplicit && Unmoved(old(svc[y]), svc[y])
      decreases g.top - g.rank[y], 5
    {
      hide Order, OrderOff, StopRel, Graph.Valid, ReadyInto, ReadyAround;
      ghost var w0 := Now();
      GraphValid(g, w0);
      Open(g, w0, y);
      svc := svc[y := svc[y].(desired := Stopped)];
      if svc[y].startExplicit {
        svc := svc[y := svc[y].(startExplicit := false)];
        ghost var w1 := Now();
        Touch(g, w0, w1, y);
        StopOne(g, w0, w1, y);
        Release(y, true);
        ghost var w2 := Now();
        StopAt(g, w1, w2, y, y);
        StopTrans(g, w0, w1, w2, y);
        ReleaseMinds(g, w1, w2, y);
        AroundInto(g, w1, w2, y);
        ReadyIntoTrans(g, w0, w1, w2, y);
      } else {
        Touch(g, w0, Now(), y);
        Close(g, Now(), y);
        StopOne(g, w0, Now(), y);
      }
    }

    // mark a service to be stopped when the propagation queue is processed
    method TellToStop(y: nat, forRestart: bool)
      requires Ok() && y < |svc|
      modifies this`svc, this`propQueue
      ensures Ok() && StopRel(g, old(Now()), Now(), y) && ReadyInto(g, old(Now()), Now(), y)
      ensures ButFor(old(svc), svc, y) && propQueue == old(propQueue) + {y}
      ensures svc[y] == old(svc[y]).(inUserRestart := forRestart, prop := old(svc[y]).prop.(stop := true))
    {
      hide Order, OrderOff, StopRel, Graph.Valid, ReadyInto;
      ghost var w0 := Now();
      Open(g, w0, y);
      svc := svc[y := svc[y].(inUserRestart := forRestart, prop := svc[y].prop.(stop := true))];
      propQueue := propQueue + {y};
      Touch(g, w0, Now(), y);
      Close(g, Now(), y);
      StopOne(g, w0, Now(), y);
    }

    method BreakSoftLink(x: nat, dept: nat)
      requires Ok() && x < |svc| && dept < |lnk| && g.to[dept] == x && g.from[dept] < |svc| && !g.IsHard(dept, lnk[dept])
      modifies this
      ensures Ok() && StopRel(g, old(Now()), Now(), x)
      ensures ButFor(old(svc), svc, x) && ButFor(old(lnk), lnk, dept)
      ensures !lnk[dept].waitingOn && !lnk[dept].holdingAcq
      ensures svc[x] == if old(lnk[dept]).holdingAcq then Released(old(svc[x])) else old(svc[x])
      ensures propQueue == old(propQueue) + if old(lnk[dept]).holdingAcq && GivesUp(old(svc[x])) then {x} else {}
      ensures forall s :: s in transitionQueue && s !in old(transitionQueue) ==>
                s == g.from[dept] && old(lnk[dept]).waitingOn && (old(svc[s]).state == Starting || old(svc[s]).state == Started) && old(svc[s]).waitingForDeps
      decreases g.top - g.rank[x], 1, 0
    {
      hide Order, OrderOff, StopRel, Graph.Valid, Entry, SvcStop;
      ghost var w0 := Now();
      StopRefl(g, w0, x);
      if lnk[dept].waitingOn {
        StopWaiting(dept);
        StopLink(g, w0, Now(), x, dept);
      }
      ghost var w1 := Now();
      if lnk[dept].holdingAcq {
        DropHold(dept);
        ghost var w2 := Now();
        StopLink(g, w1, w2, x, dept);
        Release(x, false);
        StopTrans(g, w1, w2, Now(), x);
        StopTrans(g, w0, w1, Now(), x);
      }
    }

    // clear waiting_on, and let the dependent know
    method StopWaiting(l: nat)
      requires Ok() && l < |lnk| && g.from[l] < |svc| && g.to[l] < |svc|
      modifies this`lnk, this`transitionQueue, this`ties
      ensures Ok()
      ensures ButFor(old(lnk), lnk, l) && lnk[l] == old(lnk[l]).(waitingOn := false)
      ensures transitionQueue == old(transitionQueue) +
                if (svc[g.from[l]].state == Starting || svc[g.from[l]].state == Started) && svc[g.from[l]].waitingForDeps then {g.from[l]} else {}
    {
      hide Order, OrderOff, Graph.Valid, Entry;
      ghost var w0 := Now();
      lnk := lnk[l := lnk[l].(waitingOn := false)];
      ties := Unwait(g, w0, l).ties;
      DependencyStarted(g.from[l]);
      UnwaitOrder(g, w0, l, transitionQueue);
    }

    // clear holding_acq; the target is then owed a release
    method DropHold(l: nat)
      requires Ok() && l < |lnk| && lnk[l].holdingAcq && g.to[l] < |svc|
      modifies this`lnk, this`ties
      ensures OkBut(g.to[l], 1)
      ensures Now() == Unhold(g, old(Now()), l)
    {
      hide Order, OrderOff, Graph.Valid, Entry;
      ghost var w0 := Now();
      UnholdOrder(g, w0, l);
      lnk := lnk[l := lnk[l].(holdingAcq := false)];
      ties := Unhold(g, w0, l).ties;
    }

    // ---- starting ----

    // set waiting_on
    method StartWaiting(l: nat, x: nat)
      requires l < |lnk| && Shape(g, Now()) && g.from[l] < |svc| && g.to[l] < |svc| && x < |svc|
      requires OrderOff(g, Now(), x) && EntryIfWaiting(Now(), x) && svc[g.to[l]].state != Started
      modifies this`lnk, this`ties
      ensures Shape(g, Now()) && OrderOff(g, Now(), x) && EntryIfWaiting(Now(), x)
      ensures ButFor(old(lnk), lnk, l) && lnk[l] == old(lnk[l]).(waitingOn := true)
      ensures ties.waits[g.from[l]] != {} && (old(ties.waits[x]) != {} ==> ties.waits[x] != {})
    {
      hide OrderOff, Graph.Valid, Entry;
      ghost var w0 := Now();
      WaitEntry(g, w0, l, x);
      lnk := lnk[l := lnk[l].(waitingOn := true)];
      ties := Wait(g, w0, l).ties;
    }

    // start_check_dependencies(), the dependencies
    method WaitForDependencies(x: nat) returns (allDepsStarted: bool)
      requires Shape(g, Now()) && x < |svc| && OrderOff(g, Now(), x) && EntryIfWaiting(Now(), x)
      modifies this`lnk, this`ties
      ensures Shape(g, Now()) && OrderOff(g, Now(), x) && EntryIfWaiting(Now(), x)
      ensures |lnk| == |old(lnk)| && forall l :: 0 <= l < |lnk| ==>
                lnk[l] == old(lnk[l]).(waitingOn := old(lnk[l]).waitingOn || MustWaitFor(g, svc, x, l))
      ensures allDepsStarted <==> forall l :: 0 <= l < |lnk| ==> !MustWaitFor(g, svc, x, l)
      ensures !allDepsStarted ==> ties.waits[x] != {}
    {
      hide OrderOff, Graph.Valid, Entry;
      allDepsStarted := true;
      for i := 0 to |g.dependsOn[x]|
        invariant Shape(g, Now()) && OrderOff(g, Now(), x) && EntryIfWaiting(Now(), x)
        invariant |lnk| == |old(lnk)|
        invariant forall l :: 0 <= l < |lnk| ==>
          lnk[l] == old(lnk[l]).(waitingOn := old(lnk[l]).waitingOn || (MustWaitFor(g, svc, x, l) && l in g.dependsOn[x][..i]))
        invariant allDepsStarted <==> forall k :: 0 <= k < i ==> !MustWaitFor(g, svc, x, g.dependsOn[x][k])
        invariant !allDepsStarted ==> ties.waits[x] != {}
      {
        DependencyEnds(g, Now(), x, i);
        var dep := g.dependsOn[x][i];
        var to := g.to[dep];
        assert g.dependsOn[x][..i + 1] == g.dependsOn[x][..i] + [dep];
        if g.IsOnlyOrdering(dep) && svc[to].state != Starting {
        } else if svc[to].state != Started {
          StartWaiting(dep, x);
          allDepsStarted := false;
        }
      }
      assert g.dependsOn[x][..|g.dependsOn[x]|] == g.dependsOn[x];
      forall l: nat | MustWaitFor(g, svc, x, l) ensures l in g.dependsOn[x] {
        Listed(g, Now(), x, l);
      }
    }

    // start_check_dependencies(), the dependents
    method HoldUpDependents(x: nat)
      requires Shape(g, Now()) && x < |svc| && OrderOff(g, Now(), x) && EntryIfWaiting(Now(), x) && svc[x].state == Starting
      modifies this`lnk, this`ties
      ensures Shape(g, Now()) && OrderOff(g, Now(), x) && EntryIfWaiting(Now(), x)
      ensures |lnk| == |old(lnk)| && forall l :: 0 <= l < |lnk| ==>
                lnk[l] == old(lnk[l]).(waitingOn := old(lnk[l]).waitingOn || HeldUpBy(g, svc, x, l))
      ensures old(ties.waits[x]) != {} ==> ties.waits[x] != {}
    {
      hide OrderOff, Graph.Valid, Entry;
      for i := 0 to |g.dependents[x]|
        invariant Shape(g, Now()) && OrderOff(g, Now(), x) && EntryIfWaiting(Now(), x)
        invariant |lnk| == |old(lnk)|
        invariant forall l :: 0 <= l < |lnk| ==>
          lnk[l] == old(lnk[l]).(waitingOn := old(lnk[l]).waitingOn || (HeldUpBy(g, svc, x, l) && l in g.dependents[x][..i]))
        invariant old(ties.waits[x]) != {} ==> ties.waits[x] != {}
      {
        DependentEndsOff(g, Now(), x, i);
        var dept := g.dependents[x][i];
        assert g.dependents[x][..i + 1] == g.dependents[x][..i] + [dept];
        if !lnk[dept].waitingOn && g.IsOnlyOrdering(dept) {
          if svc[g.from[dept]].state == Starting {
            StartWaiting(dept, x);
          }
        }
      }
      assert g.dependents[x][..|g.dependents[x]|] == g.dependents[x];
      forall l: nat | HeldUpBy(g, svc, x, l) ensures l in g.dependents[x] {
        Listed(g, Now(), x, l);
      }
    }

    // initiate_start()
    method InitiateStart(x: nat)
      requires Ok() && x < |svc|
      modifies this`svc, this`lnk, this`ties, this`transitionQueue
      ensures Ok() && Initiated(g, old(Now()), Now(), x)
    {
      hide Order, OrderOff, Graph.Valid;
      ghost var w0 := Now();
      Open(g, w0, x);
      svc := svc[x := svc[x].(state := Starting, waitingForDeps := true)];
      Touch(g, w0, Now(), x);
      var allDepsStarted := WaitForDependencies(x);
      HoldUpDependents(x);
      ghost var w1 := Now();
      if allDepsStarted {
        transitionQueue := transitionQueue + {x};
        Touch(g, w1, Now(), x);
      }
      Close(g, Now(), x);
    }

    // ---- stopped ----

    method DependentStopped(s: nat)
      requires Ok() && s < |svc|
      modifies this`transitionQueue
      ensures Ok()
      ensures transitionQueue == old(transitionQueue) + if svc[s].state == Stopping && svc[s].waitingForDeps then {s} else {}
    {
      hide Order, OrderOff, Graph.Valid;
      ghost var w0 := Now();
      Open(g, w0, s);
      if svc[s].state == Stopping && svc[s].waitingForDeps {
        transitionQueue := transitionQueue + {s};
      }
      Touch(g, w0, Now(), s);
      Close(g, Now(), s);
    }

    // break the soft links of all dependents
    method BreakSoftLinks(x: nat)
      requires Ok() && x < |svc|
      modifies this
      ensures Ok() && StopRel(g, old(Now()), Now(), x)
      ensures ButFor(old(svc), svc, x) && OnlyInto(g, old(lnk), lnk, x) && AllBroken(g, Now(), x, |g.dependents[x]|)
      ensures SoftReleased(old(svc[x]), svc[x], old(propQueue), propQueue, x)
      ensures forall s :: s in transitionQueue && s !in old(transitionQueue) ==> exists l: nat :: SoftListens(g, old(Now()), l, s, x)
    {
      hide Order, OrderOff, StopRel, Graph.Valid, Entry, AllBroken, LnkStop, SvcStop, LetGo, OnlyInto, Given;
      ghost var w0 := Now();
      GivenOnce(svc[x]);
      StopRefl(g, w0, x);
      OnlyIntoRefl(g, w0, x);
      AllBrokenNone(g, w0, x);
      for i := 0 to |g.dependents[x]|
        invariant Ok() && StopRel(g, w0, Now(), x) && OnlyInto(g, w0.lnk, lnk, x) && AllBroken(g, Now(), x, i)
        invariant ButFor(w0.svc, svc, x) && SoftReleased(w0.svc[x], svc[x], w0.prop, propQueue, x)
        invariant forall s :: s in transitionQueue && s !in w0.trans ==> exists l: nat :: SoftListens(g, w0, l, s, x)
      {
        ghost var w1 := Now();
        DependentEnds(g, w1, x, i);
        var dept := g.dependents[x][i];
        StopDrops(g, w0, w1, x);
        if !g.IsHard(dept, lnk[dept]) {
          BreakSoftLink(x, dept);
          GivenOnce(w1.svc[x]);
          CountAt(g, Now(), x);
          GivenTrans(w0.svc[x], w1.svc[x], svc[x]);
          OnlyIntoMore(g, w0.lnk, w1.lnk, lnk, x, dept);
          StopTrans(g, w0, w1, Now(), x);
          AllBrokenStays(g, w1, Now(), x, x, i);
          assert forall s :: s in transitionQueue && s !in w1.trans ==> SoftListens(g, w0, dept, s, x);
        }
        AllBrokenMore(g, Now(), x, i);
      }
    }

    // dependencies may be waiting for x to stop
    method NotifyDependencies(x: nat)
      requires Ok() && x < |svc|
      modifies this`transitionQueue
      ensures Ok() && old(transitionQueue) <= transitionQueue && AllWoken(g, Now(), x)
      ensures forall s :: s in transitionQueue && s !in old(transitionQueue) ==> AwaitsStopOf(g, svc, x, s)
    {
      hide Order, OrderOff, Graph.Valid, Entry;
      for i := 0 to |g.dependsOn[x]|
        invariant Ok() && old(transitionQueue) <= transitionQueue
        invariant forall k {:trigger g.dependsOn[x][k]} :: 0 <= k < i ==> WokenToStop(g, svc, transitionQueue, g.dependsOn[x][k])
        invariant forall s :: s in transitionQueue && s !in old(transitionQueue) ==> AwaitsStopOf(g, svc, x, s)
      {
        Open(g, Now(), x);
        DependencyEnds(g, Now(), x, i);
        DependentStopped(g.to[g.dependsOn[x][i]]);
      }
    }

    // give up explicit activation, without issuing a stop
    method DropExplicit(x: nat)
      requires Ok() && x < |svc|
      modifies this
      ensures Ok() && StopRel(g, old(Now()), Now(), x)
      ensures ButFor(old(svc), svc, x) && lnk == old(lnk) && ties == old(ties) && transitionQueue == old(transitionQueue) && notes == old(notes)
      ensures !svc[x].startExplicit
      ensures SoftReleased(old(svc[x]).(startExplicit := false), svc[x], old(propQueue), propQueue, x)
      ensures x in propQueue && x !in old(propQueue) ==> GaveLast(old(svc[x]), svc[x])
    {
      hide Order, OrderOff, StopRel, Graph.Valid, Given;
      ghost var w0 := Now();
      Open(g, w0, x);
      StopRefl(g, w0, x);
      GivenOnce(svc[x].(startExplicit := false));
      if svc[x].startExplicit {
        svc := svc[x := svc[x].(startExplicit := false)];
        ghost var w1 := Now();
        Touch(g, w0, w1, x);
        StopOne(g, w0, w1, x);
        Release(x, false);
        StopTrans(g, w0, w1, Now(), x);
      }
    }

    // stopped(), up to the decision to restart
    method ComeToRest(x: nat, willRestart: bool)
      requires Ok() && x < |svc|
      modifies this
      ensures Ok() && CameToRest(g, old(Now()), Now(), x, willRestart)
    {
      hide Order, OrderOff, StopRel, Graph.Valid, AllBroken, SvcStop, LetGo, OnlyInto, Roused, Asked, QueuedAnew, AllWoken, SoftReleased, CameToRest;
      ghost var w0 := Now();
      PutDownForce(x);
      ghost var w1 := Now();
      OnlyIntoRefl(g, w1, x);
      StopRefl(g, w1, x);
      SoftReleasedRefl(svc[x], propQueue, x);
      if !willRestart {
        BreakSoftLinks(x);
      }
      ghost var w2 := Now();
      StopDrops(g, w1, w2, x);
      AskedStays(w1.svc[x], w2.svc[x]);
      NotifyDependencies(x);
      ghost var w3 := Now();
      SetStopped(x);
      RousedAtRest(g, w0, w1, w2, w3, x);
      RestSteps(g, w0, w1, w2, w3, Now(), x, willRestart);
    }

    method PutDownForce(x: nat)
      requires Ok() && x < |svc|
      modifies this`svc
      ensures Ok() && Now() == With(old(Now()), x, old(svc[x]).(forceStop := false))
    {
      hide Order, OrderOff, Graph.Valid;
      ghost var w0 := Now();
      Open(g, w0, x);
      svc := svc[x := svc[x].(forceStop := false)];
      Touch(g, w0, Now(), x);
      Close(g, Now(), x);
    }

    method SetStopped(x: nat)
      requires Ok() && x < |svc|
      modifies this`svc
      ensures Ok() && Now() == With(old(Now()), x, old(svc[x]).(state := Stopped))
    {
      hide Order, OrderOff, Graph.Valid;
      ghost var w0 := Now();
      Open(g, w0, x);
      svc := svc[x := svc[x].(state := Stopped)];
      Touch(g, w0, Now(), x);
      Close(g, Now(), x);
    }

    // stopped()
    method HasStopped(x: nat)
      requires Ok() && x < |svc|
      modifies this
      ensures Ok() && DownDone(g, old(Now()), Now(), x)
    {
      hide Order, OrderOff, StopRel, Graph.Valid, AllBroken, Entry, LetGo, OnlyInto, Roused, WaitsSet, Unhindered;
      ghost var w0 := Now();
      var willRestart := svc[x].desired == Started && !svc[x].pins.stopped;
      ComeToRest(x, willRestart);
      ghost var w1 := Now();
      if willRestart {
        InitiateStart(x);
        WokenSame(g, w1, Now(), x);
      } else {
        DropExplicit(x);
        StopAt(g, w1, Now(), x, x);
        CountAt(g, Now(), x);
        GivenTrans(w0.svc[x], w1.svc[x], svc[x]);
        AskedStays(w1.svc[x], svc[x]);
        WokenSame(g, w1, Now(), x);
        AllBrokenSame(g, w1, Now(), x, |g.dependents[x]|);
      }
    }

    // ---- failing to start ----

    // failed_to_start()
    method FailedToStart(x: nat, immediateStop: bool := true)
      requires Ok() && x < |svc|
      modifies this
      ensures Ok() && FailDone(g, old(Now()), Now(), x, immediateStop)
      ensures old(PinsUpToDate()) ==> (PinsUpToDate() <==> PinNotMissed(g, old(Now()), x))
    {
      hide Order, OrderOff, StopRel, Graph.Valid, AllFailed, AllBroken, SvcStop, LnkStop, Told, Entry, OnlyFails, UpToDate, PinNotMissed, LetGo, OnlyInto, JoinedAbove, KeepsReady, Given, Drops, QueuedAnew, QueuedSoftly;
      ghost var w0 := Now();
      GraphValid(g, w0);
      NoLongerWanted(x);
      DropExplicit(x);
      ghost var w1 := Now();
      CancelDependents(x);
      ghost var w2 := Now();
      DropStartPin(x);
      ghost var w3 := Now();
      FailSteps(g, w0, w1, w2, w3, x);
      if immediateStop {
        hide FailDone;
        HasStopped(x);
        FailThenRest(g, w0, w3, Now(), x);
      }
      if old(PinsUpToDate()) {
        FailPins(g, w0, Now(), x);
      }
    }

    method NoLongerWanted(x: nat)
      requires Ok() && x < |svc|
      modifies this`svc
      ensures Ok() && ButFor(old(svc), svc, x) && svc[x] == old(svc[x]).(desired := Stopped)
    {
      hide Order, OrderOff, Graph.Valid;
      ghost var w0 := Now();
      Open(g, w0, x);
      svc := svc[x := svc[x].(desired := Stopped)];
      Touch(g, w0, Now(), x);
      Close(g, Now(), x);
    }

    method DropStartPin(x: nat)
      requires Ok() && x < |svc|
      modifies this`svc
      ensures Ok() && ButFor(old(svc), svc, x) && svc[x] == old(svc[x]).(pins := old(svc[x]).pins.(started := false))
    {
      hide Order, OrderOff, Graph.Valid;
      ghost var w0 := Now();
      Open(g, w0, x);
      svc := svc[x := svc[x].(pins := svc[x].pins.(started := false))];
      Touch(g, w0, Now(), x);
      Close(g, Now(), x);
    }

    // failed_to_start(): cancel the start of dependents, and release on their behalf
    method CancelDependents(x: nat)
      requires Ok() && x < |svc|
      modifies this
      ensures Ok() && notes == old(notes) && LetGo(g.kind, old(lnk), lnk) && OnlyInto(g, old(lnk), lnk, x)
      ensures SoftReleased(old(svc[x]), svc[x], {}, {}, x) && old(transitionQueue) <= transitionQueue
      ensures old(propQueue) <= propQueue && JoinedAbove(g, old(propQueue), propQueue, x) && QueuedSoftly(g, old(Now()), Now(), x)
      ensures AllFail(old(svc), svc, x) && (x in propQueue && x !in old(propQueue) ==> GaveLast(old(svc[x]), svc[x]))
      ensures AllFailed(g, Now(), x, |g.dependents[x]|)
    {
      hide Order, OrderOff, StopRel, Graph.Valid, Entry, AllFailed, OnlyFails, Failed, LetGo, OnlyInto, LnkStop, Given, QueuedSoftly;
      ghost var w0 := Now();
      GivenOnce(svc[x]);
      SoftlyRefl(g, w0, x);
      OnlyIntoRefl(g, w0, x);
      AllFailRefl(svc, x);
      AllFailedNone(g, w0, x);
      LetGoRefl(g, w0);
      for i := 0 to |g.dependents[x]|
        invariant Ok() && notes == w0.notes && LetGo(g.kind, w0.lnk, lnk) && OnlyInto(g, w0.lnk, lnk, x)
        invariant SoftReleased(w0.svc[x], svc[x], {}, {}, x) && w0.trans <= transitionQueue
        invariant w0.prop <= propQueue && JoinedAbove(g, w0.prop, propQueue, x) && QueuedSoftly(g, w0, Now(), x)
        invariant AllFail(w0.svc, svc, x) && (x in propQueue && x !in w0.prop ==> GaveLast(w0.svc[x], svc[x]))
        invariant AllFailed(g, Now(), x, i)
      {
        ghost var w1 := Now();
        DependentEnds(g, w1, x, i);
        CancelDependent(x, g.dependents[x][i]);
        CountAt(g, Now(), x);
        GivenTrans(w0.svc[x], w1.svc[x], svc[x]);
        SoftlyTrans(g, w0, w1, Now(), x);
        OnlyIntoMore(g, w0.lnk, w1.lnk, lnk, x, g.dependents[x][i]);
        AllFailTrans(w0.svc, w1.svc, svc, x);
        LetGoDrops(g.kind, w1.lnk, lnk);
        AllFailedSame(g, w1, Now(), x, i);
        AllFailedMore(g, Now(), x, i);
        LetGoTrans(g.kind, w0.lnk, w1.lnk, lnk);
      }
    }

    method CancelDependent(x: nat, dept: nat)
      requires Ok() && x < |svc| && dept < |lnk| && g.to[dept] == x && g.from[dept] < |svc| && g.from[dept] != x
      modifies this
      ensures Ok() && notes == old(notes) && LetGo(g.kind, old(lnk), lnk) && ButFor(old(lnk), lnk, dept)
      ensures SoftReleased(old(svc[x]), svc[x], {}, {}, x) && old(transitionQueue) <= transitionQueue
      ensures old(propQueue) <= propQueue <= old(propQueue) + {x, g.from[dept]} && QueuedSoftly(g, old(Now()), Now(), x)
      ensures AllFail(old(svc), svc, x) && (x in propQueue && x !in old(propQueue) ==> GaveLast(old(svc[x]), svc[x]))
      ensures Failed(g, Now(), dept)
    {
      hide Order, OrderOff, StopRel, Graph.Valid, Entry;
      CancelStart(x, dept);
      ghost var s1 := svc;
      hide OnlyFails;
      ReleaseLink(x, dept);
      AllFailRefl(s1, x);
      AllFailSame(s1, s1, svc, x);
      AllFailTrans(old(svc), s1, svc, x);
    }

    method CancelStart(x: nat, dept: nat)
      requires Ok() && x < |svc| && dept < |lnk| && g.to[dept] == x && g.from[dept] < |svc| && g.from[dept] != x
      modifies this
      ensures Ok() && notes == old(notes) && old(transitionQueue) <= transitionQueue
      ensures old(propQueue) <= propQueue <= old(propQueue) + {g.from[dept]} && QueuedSoftly(g, old(Now()), Now(), x)
      ensures svc[x] == old(svc[x]) && AllFail(old(svc), svc, x)
      ensures ButFor(old(lnk), lnk, dept) && LnkStop(g.kind[dept], old(lnk[dept]), lnk[dept])
      ensures lnk[dept].holdingAcq == old(lnk[dept]).holdingAcq
      ensures g.kind[dept] == Regular || g.kind[dept] == Milestone ==>
                svc[g.from[dept]].state == Starting ==> svc[g.from[dept]].prop.failure
      ensures g.kind[dept] != Regular && g.kind[dept] != Milestone ==> !lnk[dept].waitingOn
    {
      hide Order, OrderOff, Graph.Valid, Entry;
      if g.kind[dept] == Regular || g.kind[dept] == Milestone {
        if svc[g.from[dept]].state == Starting {
          TellToFail(g.from[dept]);
        }
      } else if lnk[dept].waitingOn {
        StopWaiting(dept);
        assert forall s :: s in transitionQueue && s !in old(transitionQueue) ==> SoftListens(g, old(Now()), dept, s, x);
      }
    }

    // a link into x gives up its acquisition, without a stop being issued
    method ReleaseLink(x: nat, dept: nat)
      requires Ok() && x < |svc| && dept < |lnk| && g.to[dept] == x
      modifies this
      ensures Ok() && notes == old(notes) && transitionQueue == old(transitionQueue)
      ensures propQueue == old(propQueue) + if old(lnk[dept]).holdingAcq && GivesUp(old(svc[x])) then {x} else {}
      ensures ButFor(old(svc), svc, x) && ButFor(old(lnk), lnk, dept)
      ensures lnk[dept] == old(lnk[dept]).(holdingAcq := false)
      ensures svc[x] == if old(lnk[dept]).holdingAcq then Released(old(svc[x])) else old(svc[x])
    {
      hide Order, OrderOff, StopRel, Graph.Valid, Entry;
      if lnk[dept].holdingAcq {
        DropHold(dept);
        Release(x, false);
      }
    }

    method TellToFail(y: nat)
      requires Ok() && y < |svc|
      modifies this`svc, this`propQueue
      ensures Ok() && ButFor(old(svc), svc, y) && propQueue == old(propQueue) + {y}
      ensures svc[y] == old(svc[y]).(prop := old(svc[y]).prop.(failure := true))
    {
      hide Order, OrderOff, Graph.Valid;
      ghost var w0 := Now();
      Open(g, w0, y);
      svc := svc[y := svc[y].(prop := svc[y].prop.(failure := true))];
      propQueue := propQueue + {y};
      Touch(g, w0, Now(), y);
      Close(g, Now(), y);
    }

    // ---- started ----

    // started(): dependents are told, unless the service has to stop again at once
    method HasStarted(x: nat)
      requires Ok() && x < |svc| && svc[x].state == Starting && !svc[x].waitingForDeps
      modifies this
      ensures Ok() && UpDone(g, old(Now()), Now(), x)
    {
      hide Order, OrderOff, StopRel, Graph.Valid, Entry, WaitersTold, HeldBack;
      ghost var w0 := Now();
      BecomeStarted(x);
      if MustStop(svc[x]) {
        ghost var w1 := Now();
        DoStop(x);
        ghost var w2 := Now();
        StopDrops(g, w1, w2, x);
        if svc[x].state != Started {
          Settle(x);
          assert NotedLate(Now(), x, true).notes == w2.notes;
        }
        assert notes == NotedLate(w0, x, Late(w0.svc[x])).notes;
        return;
      }
      ghost var w1 := Now();
      TellDependents(x);
      ghost var w2 := Now();
      NoWaiters(g, w1, w2, x);
      Settle(x);
      GraphValid(g, w0);
      WaitersToldSame(g, w0, w1, w2, Now(), x);
    }

    method BecomeStarted(x: nat)
      requires Ok() && x < |svc| && svc[x].state == Starting && !svc[x].waitingForDeps
      modifies this`svc, this`notes
      ensures Ok()
      ensures svc == old(svc)[x := old(svc[x]).(state := Started)]
      ensures notes == old(notes)[x := old(notes[x]).(late := true)]
    {
      hide Order, OrderOff, Graph.Valid;
      ghost var w0 := Now();
      Open(g, w0, x);
      svc := svc[x := svc[x].(state := Started)];
      notes := notes[x := notes[x].(late := true)];
      Touch(g, w0, Now(), x);
      Close(g, Now(), x);
    }

    // x has no dependents left to tell
    ghost method Settle(x: nat)
      requires Ok() && x < |svc| && (svc[x].state == Started ==> ties.waiters[x] == {})
      modifies this`notes
      ensures Ok() && notes == old(notes)[x := old(notes[x]).(late := false)]
    {
      hide Order, OrderOff, Graph.Valid;
      ghost var w0 := Now();
      Open(g, w0, x);
      notes := notes[x := notes[x].(late := false)];
      Touch(g, w0, Now(), x);
      Close(g, Now(), x);
    }

    method TellDependents(x: nat)
      requires Ok() && x < |svc|
      modifies this`lnk, this`transitionQueue, this`ties
      ensures Ok() && WaitersTold(g, old(Now()), Now(), x)
    {
      hide Order, OrderOff, Graph.Valid, Entry, AllTold;
      ghost var w0 := Now();
      AllToldNone(g, w0.lnk, Now(), x);
      for i := 0 to |g.dependents[x]|
        invariant Ok() && |lnk| == |w0.lnk| && Drops(w0.lnk, lnk)
        invariant AllTold(g, w0.lnk, Now(), x, i)
        invariant forall l {:trigger lnk[l]} :: 0 <= l < |lnk| ==> lnk[l] == w0.lnk[l].(waitingOn := w0.lnk[l].waitingOn && l !in g.dependents[x][..i])
        invariant w0.trans <= transitionQueue
        invariant forall s :: s in transitionQueue && s !in w0.trans ==> exists l: nat :: Listens(g, w0, l, s, x)
      {
        ghost var w1 := Now();
        DependentEnds(g, w1, x, i);
        var dept := g.dependents[x][i];
        assert g.dependents[x][..i + 1] == g.dependents[x][..i] + [dept];
        if lnk[dept].waitingOn {
          StopWaiting(dept);
          assert forall s :: s in transitionQueue && s !in w1.trans ==> Listens(g, w0, dept, s, x);
        }
        AllToldMore(g, w0.lnk, w1, Now(), x, i);
      }
      assert g.dependents[x][..|g.dependents[x]|] == g.dependents[x];
      Open(g, Now(), x);
      forall l | 0 <= l < |lnk| && l < |g.to| ensures l in g.dependents[x] <==> g.to[l] == x {
        ListedExactly(g, Now(), x, l);
      }
    }

    // all_deps_started(): bring the service up; outcome says what bring_up() does
    method AllDepsStarted(x: nat, outcome: BringUp)
      requires Shape(g, Now()) && x < |svc| && OrderOff(g, Now(), x) && EntryIfWaiting(Now(), x)
      requires svc[x].state == Starting && !svc[x].prop.require && x !in transitionQueue
      modifies this
      ensures Ok()
      ensures outcome == Launched ==> Now() == Proceeding(old(Now()), x)
      ensures outcome == Up ==> UpDone(g, Proceeding(old(Now()), x), Now(), x)
      ensures outcome == Refused ==> FailDone(g, Cancelled(Proceeding(old(Now()), x), x), Now(), x, true)
      ensures outcome == Failing ==> FailDone(g, Proceeding(old(Now()), x), Now(), x, true)
    {
      hide Order, OrderOff, StopRel, Graph.Valid, Entry, UpDone, FailDone, UpToDate, PinNotMissed;
      ghost var w0 := Now();
      DepsReady(x);
      match outcome
      case Up =>
        HasStarted(x);
      case Launched =>
      case Refused =>
        SetStopping(x, svc[x].waitingForDeps, false);
        assert Now() == Cancelled(Proceeding(w0, x), x);
        FailedToStart(x);
      case Failing =>
        FailedToStart(x);
    }

    method DepsReady(x: nat)
      requires Shape(g, Now()) && x < |svc| && OrderOff(g, Now(), x) && EntryIfWaiting(Now(), x)
      requires svc[x].state == Starting && !svc[x].prop.require && x !in transitionQueue
      modifies this`svc
      ensures Ok() && Now() == Proceeding(old(Now()), x)
    {
      hide Order, OrderOff, Graph.Valid;
      ghost var w0 := Now();
      svc := svc[x := svc[x].(waitingForDeps := false)];
      Touch(g, w0, Now(), x);
      Close(g, Now(), x);
    }

    // check_deps_started()
    method CheckDepsStarted(x: nat) returns (ready: bool)
      requires OrderOff(g, Now(), x) && Shape(g, Now()) && x < |svc|
      ensures ready <==> forall l :: 0 <= l < |lnk| && g.from[l] == x ==> !lnk[l].waitingOn
      ensures ready <==> ties.waits[x] == {}
    {
      hide OrderOff, Graph.Valid, Entry;
      ready := true;
      for i := 0 to |g.dependsOn[x]|
        invariant ready ==> forall k :: 0 <= k < i ==> g.dependsOn[x][k] < |lnk| && !lnk[g.dependsOn[x][k]].waitingOn
        invariant !ready ==> exists l :: 0 <= l < |lnk| && g.from[l] == x && lnk[l].waitingOn
      {
        DependencyEnds(g, Now(), x, i);
        if lnk[g.dependsOn[x][i]].waitingOn {
          ready := false;
        }
      }
      WaitingExact(g, Now(), x);
    }

    // stop_check_dependents()
    method StopCheckDependents(x: nat) returns (ready: bool)
      requires Ok() && x < |svc|
      ensures ready <==> forall l :: 0 <= l < |lnk| && g.to[l] == x ==> Settled(g, lnk, l)
    {
      hide Order, OrderOff, Graph.Valid, Entry;
      ready := true;
      for i := 0 to |g.dependents[x]|
        invariant ready ==> forall k :: 0 <= k < i ==> Settled(g, lnk, g.dependents[x][k])
        invariant !ready ==> exists l :: 0 <= l < |lnk| && g.to[l] == x && !Settled(g, lnk, l)
      {
        DependentEnds(g, Now(), x, i);
        var dept := g.dependents[x][i];
        if g.IsHard(dept, lnk[dept]) && lnk[dept].holdingAcq && !lnk[dept].waitingOn {
          ready := false;
        }
      }
      Open(g, Now(), x);
      forall l | 0 <= l < |lnk| && g.to[l] == x ensures l in g.dependents[x] {
        Listed(g, Now(), x, l);
      }
    }

    // execute_transition(), for a service taken off the transition queue while no propagation is pending
    method RunTransition(x: nat, outcome: BringUp, downAtOnce: bool)
      requires Ok() && x in transitionQueue && x < |svc| && propQueue == {} && notes[x].mask == NOTHING
      modifies this
      ensures Ok() && Transitioned(g, old(Now()), Now(), x, outcome, downAtOnce)
    {
      hide Order, OrderOff, StopRel, Graph.Valid, UpDone, FailDone, DownDone;
      ghost var w0 := Now();
      TakeOff(g, w0, x);
      transitionQueue := transitionQueue - {x};
      hide Entry;
      if svc[x].state == Starting {
        var ready := CheckDepsStarted(x);
        if ready {
          AllDepsStarted(x, outcome);
        } else {
          StillWaiting(g, Now(), x);
        }
      } else {
        if svc[x].state == Stopping {
          var ready := StopCheckDependents(x);
          if ready {
            DependentsReady(x);
            if downAtOnce {
              HasStopped(x);
            }
          }
        }
      }
    }

    method DependentsReady(x: nat)
      requires Ok() && x < |svc| && svc[x].state == Stopping
      modifies this`svc
      ensures Ok() && Now() == Proceeding(old(Now()), x)
    {
      hide Order, OrderOff, Graph.Valid;
      ghost var w0 := Now();
      Open(g, w0, x);
      svc := svc[x := svc[x].(waitingForDeps := false)];
      Touch(g, w0, Now(), x);
      Close(g, Now(), x);
    }

    // ---- requiring ----

    // require(): one requirement more, which the caller is yet to enter in the books
    method Require(x: nat)
      requires Ok() && x < |svc|
      modifies this`svc, this`propQueue
      ensures OkBut(x, 1)
      ensures ButFor(old(svc), svc, x) && svc[x] == Required(old(svc[x]))
      ensures propQueue == old(propQueue) + if MustBeStarted(old(svc[x])) then {x} else {}
    {
      hide Order, OrderOff, Graph.Valid, Entry, Required, MustBeStarted;
      ghost var w0 := Now();
      RequiredCases(svc[x]);
      svc := svc[x := svc[x].(requiredBy := svc[x].requiredBy + 1)];
      if svc[x].requiredBy == 1 && svc[x].state != Starting && svc[x].state != Started {
        svc := svc[x := svc[x].(prop := svc[x].prop.(start := true))];
        propQueue := propQueue + {x};
      }
      RequiredInOrder(g, w0, Now(), x);
    }

    // require the target of a link, and hold it; a link that already holds it does so again
    method Acquire(l: nat)
      requires Ok() && l < |lnk| && g.to[l] < |svc|
      modifies this`svc, this`propQueue, this`lnk, this`ties, this`notes
      ensures Ok()
      ensures svc == old(svc)[g.to[l] := Required(old(svc[g.to[l]]))] && lnk == old(lnk)[l := old(lnk[l]).(holdingAcq := true)]
      ensures notes == if old(lnk[l]).holdingAcq then old(notes)[g.to[l] := old(notes[g.to[l]]).(surplus := old(notes[g.to[l]]).surplus + 1)] else old(notes)
      ensures propQueue == old(propQueue) + if MustBeStarted(old(svc[g.to[l]])) then {g.to[l]} else {}
      ensures !old(lnk[l]).holdingAcq ==> ties == Hold(g, old(Now()), l).ties
    {
      hide Order, OrderOff, Graph.Valid, Entry, Required, MustBeStarted;
      Require(g.to[l]);
      ghost var w1 := Now();
      if lnk[l].holdingAcq {
        HeldTwice(g.to[l]);
        w1 := Now();
        assert lnk[l := lnk[l].(holdingAcq := true)] == lnk;
        lnk := lnk[l := lnk[l].(holdingAcq := true)];
        assert Now() == w1;
      } else {
        HoldOrder(g, w1, l);
        ties := Hold(g, w1, l).ties;
        lnk := lnk[l := lnk[l].(holdingAcq := true)];
        assert Now() == Hold(g, w1, l);
      }
    }

    // nothing will ever give this acquisition back
    ghost method HeldTwice(x: nat)
      requires OkBut(x, 1)
      modifies this`notes
      ensures Ok() && notes == old(notes)[x := old(notes[x]).(surplus := old(notes[x]).surplus + 1)]
    {
      hide Order, OrderOff, Graph.Valid;
      ghost var w0 := Now();
      notes := notes[x := notes[x].(surplus := notes[x].surplus + 1)];
      Touch(g, w0, Now(), x);
      Close(g, Now(), x);
    }

    // start_dep()
    method StartDep(l: nat)
      requires Ok() && l < |lnk| && g.to[l] < |svc|
      modifies this`svc, this`propQueue, this`lnk, this`ties, this`notes
      ensures Ok() && AttachHandled(g, old(Now()), Now(), l)
    {
      if !lnk[l].holdingAcq {
        Acquire(l);
      }
    }

    // do_start(): soft dependents that are up again hold the service
    method Reattach(x: nat)
      requires Ok() && x < |svc|
      modifies this`svc, this`lnk, this`ties
      ensures Ok() && Reattached(g, old(Now()), lnk, x)
      ensures svc == old(svc)[x := old(svc[x]).(requiredBy := svc[x].requiredBy)] && old(svc[x]).requiredBy <= svc[x].requiredBy
      ensures (forall l: nat :: !Reattaches(g, old(svc), old(lnk), x, l)) ==> svc[x].requiredBy == old(svc[x]).requiredBy
    {
      hide Order, OrderOff, Graph.Valid, Entry, Reattaches;
      ghost var s0, l0 := svc, lnk;
      for i := 0 to |g.dependents[x]|
        invariant Ok() && |lnk| == |l0|
        invariant |svc| == |s0| && svc == s0[x := s0[x].(requiredBy := svc[x].requiredBy)] && s0[x].requiredBy <= svc[x].requiredBy
        invariant (forall l: nat :: !Reattaches(g, s0, l0, x, l)) ==> svc[x].requiredBy == s0[x].requiredBy
        invariant forall l :: 0 <= l < |lnk| ==>
          lnk[l] == l0[l].(holdingAcq := l0[l].holdingAcq || (Reattaches(g, s0, l0, x, l) && l in g.dependents[x][..i]))
      {
        DependentEnds(g, Now(), x, i);
        var dept := g.dependents[x][i];
        assert g.dependents[x][..i + 1] == g.dependents[x][..i] + [dept];
        ReattachesAt(g, s0, l0, x, dept);
        if !g.IsHard(dept, lnk[dept]) {
          var deptState := svc[g.from[dept]].state;
          if !lnk[dept].holdingAcq && (deptState == Started || deptState == Starting) {
            HoldAgain(dept);
          }
        }
      }
      assert g.dependents[x][..|g.dependents[x]|] == g.dependents[x];
      ReattachesListed(g, Now(), s0, l0, x);
    }

    method HoldAgain(l: nat)
      requires Ok() && l < |lnk| && g.to[l] < |svc| && !lnk[l].holdingAcq
      modifies this`svc, this`lnk, this`ties
      ensures Ok()
      ensures ButFor(old(svc), svc, g.to[l]) && svc[g.to[l]] == old(svc[g.to[l]]).(requiredBy := old(svc[g.to[l]]).requiredBy + 1)
      ensures ButFor(old(lnk), lnk, l) && lnk[l] == old(lnk[l]).(holdingAcq := true)
    {
      hide Order, OrderOff, Graph.Valid;
      ghost var w0 := Now();
      var x := g.to[l];
      Open(g, w0, x);
      svc := svc[x := svc[x].(requiredBy := svc[x].requiredBy + 1)];
      ghost var w1 := Now();
      Touch(g, w0, w1, x);
      HoldOrder(g, w1, l);
      lnk := lnk[l := lnk[l].(holdingAcq := true)];
      ties := Hold(g, w1, l).ties;
    }

    // do_start(): begin to start, unless that is impossible for now
    method DoStart(x: nat)
      requires Ok() && x < |svc|
      modifies this
      ensures Ok() && StartDone(g, old(Now()), Now(), x)
    {
      hide Order, OrderOff, Graph.Valid, Entry, FailDone, Revived, Initiated, UpToDate, PinNotMissed;
      ghost var w0 := Now();
      var wasActive := svc[x].state != Stopped;
      Want(x);
      if svc[x].pins.stopped {
        if !wasActive {
          FailedToStart(x, false);
        }
        return;
      }
      ghost var w1 := Now();
      if !wasActive {
        Revive(x);
      }
      ghost var w2 := Now();
      if wasActive {
        if svc[x].state != Stopping {
          return;
        }
        if !svc[x].CanInterruptStop() {
          return;
        }
      }
      InitiateStart(x);
      assert wasActive || (Revived(g, w1, w2, x) && Initiated(g, w2, Now(), x));
    }

    method Want(x: nat)
      requires Ok() && x < |svc|
      modifies this`svc
      ensures Ok() && svc == old(svc)[x := old(svc[x]).(desired := Started)]
    {
      hide Order, OrderOff, Graph.Valid;
      ghost var w0 := Now();
      Open(g, w0, x);
      svc := svc[x := svc[x].(desired := Started)];
      Touch(g, w0, Now(), x);
      Close(g, Now(), x);
    }

    // do_start(), for a service that was stopped: require dependencies, unless a release was pending
    method Revive(x: nat)
      requires Ok() && x < |svc| && svc[x].state == Stopped
      modifies this`svc, this`propQueue, this`lnk, this`ties
      ensures Ok() && Revived(g, old(Now()), Now(), x)
    {
      hide Order, OrderOff, Graph.Valid;
      Reattach(x);
      ghost var w0 := Now();
      Open(g, w0, x);
      svc := svc[x := svc[x].(prop := svc[x].prop.(require := !svc[x].prop.release, release := false))];
      if svc[x].prop.require {
        propQueue := propQueue + {x};
      }
      Touch(g, w0, Now(), x);
      Close(g, Now(), x);
    }

    // start(): on request
    method Start(x: nat)
      requires Ok() && x < |svc|
      modifies this
      ensures Ok() && StartHandled(g, old(Now()), Now(), x)
    {
      hide Order, OrderOff, Graph.Valid, StartDone;
      if svc[x].pins.stopped {
        return;
      }
      ghost var w0 := Now();
      if !svc[x].startExplicit {
        Open(g, w0, x);
        svc := svc[x := svc[x].(requiredBy := svc[x].requiredBy + 1, startExplicit := true)];
        Touch(g, w0, Now(), x);
        Close(g, Now(), x);
      }
      assert Now() == With(w0, x, Activated(w0.svc[x]));
      DoStart(x);
    }

    // ---- stopping by request ----

    // stop(): on request; not required any more, and brought down if so asked
    method Stop(x: nat, bringDown: bool := true)
      requires Ok() && x < |svc|
      modifies this
      ensures Ok() && StopHandled(g, old(Now()), Now(), x, bringDown)
    {
      hide Order, OrderOff, StopRel, Graph.Valid, Entry, Stops;
      Unmark(x, bringDown);
      if svc[x].IsStartPinned() {
        return;
      }
      var down := bringDown;
      if svc[x].requiredBy == 0 {
        down := true;
        QueueRelease(x);
      }
      if down && svc[x].state != Stopped {
        DoStop(x);
      }
    }

    method Unmark(x: nat, bringDown: bool)
      requires Ok() && x < |svc|
      modifies this`svc
      ensures Ok() && Now() == With(old(Now()), x, Unmarked(old(svc[x]), bringDown))
    {
      hide Order, OrderOff, Graph.Valid;
      ghost var w0 := Now();
      Open(g, w0, x);
      if svc[x].startExplicit {
        svc := svc[x := svc[x].(startExplicit := false, requiredBy := svc[x].requiredBy - 1)];
      }
      if bringDown || svc[x].requiredBy == 0 {
        svc := svc[x := svc[x].(desired := Stopped)];
      }
      assert svc == w0.svc[x := svc[x]];
      Touch(g, w0, Now(), x);
      Close(g, Now(), x);
    }

    // a service no longer required releases its dependencies, unless it has yet to require them
    method QueueRelease(x: nat)
      requires Ok() && x < |svc|
      modifies this`svc, this`propQueue
      ensures Ok() && Now() == ReleaseQueued(old(Now()), x)
    {
      hide Order, OrderOff, Graph.Valid;
      ghost var w0 := Now();
      Open(g, w0, x);
      svc := svc[x := svc[x].(prop := svc[x].prop.(release := !svc[x].prop.require))];
      if svc[x].prop.release {
        propQueue := propQueue + {x};
      }
      Touch(g, w0, Now(), x);
      Close(g, Now(), x);
    }

    // restart(): stop, and start again
    method Restart(x: nat) returns (issued: bool)
      requires Ok() && x < |svc|
      modifies this
      ensures Ok() && (issued <==> old(svc[x]).state == Started)
      ensures if issued then TerminationHandled(g, old(Now()), Now(), x, true) else Now() == old(Now())
    {
      hide Order, OrderOff, StopRel, Graph.Valid, Entry, Stops;
      issued := svc[x].state == Started;
      if issued {
        MarkForced(x);
        DoStop(x, true);
      }
    }

    // handle_unexpected_termination(): the process has ended, and the service must stop
    method UnexpectedTermination(x: nat)
      requires Ok() && x < |svc| && svc[x].state == Started
      modifies this
      ensures Ok() && TerminationHandled(g, old(Now()), Now(), x, false)
    {
      hide Order, OrderOff, StopRel, Graph.Valid, Entry, Stops;
      MarkForced(x);
      DoStop(x);
    }

    method MarkForced(x: nat)
      requires Ok() && x < |svc|
      modifies this`svc
      ensures Ok() && Now() == With(old(Now()), x, old(svc[x]).(forceStop := true))
    {
      hide Order, OrderOff, Graph.Valid;
      ghost var w0 := Now();
      Open(g, w0, x);
      svc := svc[x := svc[x].(forceStop := true)];
      Touch(g, w0, Now(), x);
      Close(g, Now(), x);
    }

    // ---- propagation ----

    // the service is taken off the propagation queue; what it has to pass on is still owed
    method TakeForPropagation(x: nat)
      requires Ok() && x in propQueue && x < |svc|
      modifies this`propQueue, this`notes
      ensures Ok() && Now() == TakenUp(old(Now()), x)
    {
      hide Order, OrderOff, Graph.Valid;
      ghost var w0 := Now();
      propQueue := propQueue - {x};
      notes := notes[x := notes[x].(mask := MaskOf(svc[x]))];
      TakeProp(g, w0, Now(), x);
    }

    // do_propagation(): messages have been dealt with
    method Acknowledge(x: nat, done: Mask)
      requires Ok() && x < |svc|
      modifies this`svc, this`notes
      ensures Ok() && Now() == Acked(old(Now()), x, done)
    {
      hide Order, OrderOff, Graph.Valid;
      ghost var w0 := Now();
      Open(g, w0, x);
      svc := svc[x := svc[x].(prop := Cleared(svc[x].prop, done))];
      notes := notes[x := notes[x].(mask := Without(notes[x].mask, done))];
      Touch(g, w0, Now(), x);
      Close(g, Now(), x);
    }

    // the require message: require all dependencies
    method PropagateRequire(x: nat)
      requires Ok() && x < |svc| && svc[x].prop.require
      modifies this
      ensures Ok() && RequirePassed(g, old(Now()), Now(), x)
      ensures MaskDone(old(notes), notes, x, REQUIRE)
    {
      hide Order, OrderOff, Graph.Valid, Entry, RequireDone;
      RequireAll(x);
      Acknowledge(x, REQUIRE);
    }

    method RequireAll(x: nat)
      requires Ok() && x < |svc|
      modifies this`svc, this`propQueue, this`lnk, this`ties, this`notes
      ensures Ok() && RequireDone(g, old(Now()), Now(), x)
      ensures SameMasks(old(notes), notes)
    {
      hide Order, OrderOff, Graph.Valid, Entry, AllRequired, AllAgain, ToldToStart, Required, Requires, MustBeStarted;
      ghost var w0 := Now();
      CountsNonnegative(g, w0);
      RequireNone(g, w0, x);
      for i := 0 to |g.dependsOn[x]|
        invariant Ok() && |lnk| == |w0.lnk| && transitionQueue == w0.trans
        invariant AllRequired(g, w0.svc, svc, x, i) && AllAgain(g, w0.lnk, w0.notes, notes, x, i)
        invariant forall s :: s in propQueue <==> s in w0.prop || ToldToStart(g, w0.svc, x, s, i)
        invariant forall l {:trigger lnk[l]} :: 0 <= l < |lnk| ==>
          lnk[l] == w0.lnk[l].(holdingAcq := w0.lnk[l].holdingAcq || (Requires(g, x, l) && l in g.dependsOn[x][..i]))
      {
        ghost var w1 := Now();
        Open(g, w1, x);
        DependencyEnds(g, w1, x, i);
        DependencyOnce(g, w1, x, i);
        GraphValid(g, w1);
        var dep := g.dependsOn[x][i];
        assert g.dependsOn[x][..i + 1] == g.dependsOn[x][..i] + [dep];
        assert lnk[dep] == w0.lnk[dep];
        RequiresAt(g, x, i);
        if !g.IsOnlyOrdering(dep) {
          Acquire(dep);
        }
        RequireMore(g, w0.lnk, w0, w1, Now(), x, i);
      }
      assert g.dependsOn[x][..|g.dependsOn[x]|] == g.dependsOn[x];
      RequiresListed(g, Now(), x);
      AgainMasks(g, w0.lnk, w0.notes, notes, x, |g.dependsOn[x]|);
    }

    // release_dependencies(), and the release message
    method PropagateRelease(x: nat)
      requires Ok() && x < |svc| && svc[x].prop.release
      modifies this
      ensures Ok() && ReleasePassed(g, old(Now()), Now(), x)
      ensures MaskDone(old(notes), notes, x, RELEASE)
    {
      hide Order, OrderOff, StopRel, Graph.Valid, Entry, LinkReleased, AllReleased, AllInOrder, NoneHeld, Drops;
      ghost var w0 := Now();
      NothingReleased(g, w0, x);
      ghost var trail := [w0];
      for i := 0 to |g.dependsOn[x]|
        invariant Ok() && |svc| == |w0.svc| && notes == w0.notes
        invariant |trail| == i + 1 && AllReleased(g, trail, x, i) && trail[0] == w0 && trail[i] == Now()
        invariant NoneHeld(g, lnk, x, i) && AllInOrder(g, trail, x)
      {
        ghost var w1 := Now();
        Open(g, w1, x);
        DependencyEnds(g, w1, x, i);
        ReleaseDependency(g.dependsOn[x][i]);
        NoneHeldMore(g, w1.lnk, lnk, x, i);
        ReleasedMore(g, trail, Now(), x, i);
        InOrderMore(g, trail, Now(), x);
        trail := trail + [Now()];
      }
      Acknowledge(x, RELEASE);
      assert ReleaseThrough(g, w0, Now(), x, trail);
    }

    // the acquisition is cleared before the release, so that a stopping dependency does not release it again
    method ReleaseDependency(l: nat)
      requires Ok() && l < |lnk| && g.to[l] < |svc|
      modifies this
      ensures Ok() && LinkReleased(g, old(Now()), Now(), l) && notes == old(notes)
      ensures Drops(old(lnk), lnk) && !lnk[l].holdingAcq
    {
      hide Order, OrderOff, StopRel, Graph.Valid, Entry, ReleaseDone;
      ghost var w0 := Now();
      if lnk[l].holdingAcq {
        DropHold(l);
        ghost var w1 := Now();
        Release(g.to[l]);
        StopDrops(g, w1, Now(), g.to[l]);
      }
    }

    // the failure message
    method PropagateFailure(x: nat)
      requires Ok() && x < |svc| && svc[x].prop.failure
      modifies this
      ensures Ok() && FailurePassed(g, old(Now()), Now(), x)
      ensures MaskDone(old(notes), notes, x, FAILURE)
    {
      hide Order, OrderOff, Graph.Valid, Entry, AllFailed, AllFail, LetGo, UpToDate, PinNotMissed, JoinedAbove, AllWoken;
      ghost var w0 := Now();
      Acknowledge(x, FAILURE);
      SetStopped(x);
      assert Now() == Fallen(w0, x);
      FailedToStart(x);
    }

    // the start message
    method PropagateStart(x: nat)
      requires Ok() && x < |svc| && svc[x].prop.start
      modifies this
      ensures Ok() && StartPassed(g, old(Now()), Now(), x)
      ensures MaskDone(old(notes), notes, x, START)
    {
      hide Order, OrderOff, Graph.Valid, Entry, StartDone;
      Acknowledge(x, START);
      ghost var w1 := Now();
      DoStart(x);
      StartNotes(g, w1, Now(), x);
    }

    // the stop message
    method PropagateStop(x: nat)
      requires Ok() && x < |svc| && svc[x].prop.stop
      modifies this
      ensures Ok() && StopPassed(g, old(Now()), Now(), x)
      ensures MaskDone(old(notes), notes, x, STOP)
    {
      hide Order, OrderOff, StopRel, Graph.Valid, Entry, Stops;
      Acknowledge(x, STOP);
      ghost var w1 := Now();
      DoStop(x, svc[x].inUserRestart);
      StopDrops(g, w1, Now(), x);
    }

    // ---- pins ----

    ghost predicate PinsUpToDate()
      reads this
    {
      AllUpToDate(g, svc, lnk, propQueue)
    }

    // tell the hard dependencies of x whose flag is not d to look again
    method PassPin(x: nat, d: bool)
      requires Ok() && x < |svc|
      modifies this`svc, this`propQueue
      ensures Ok() && PinTold(g, old(Now()), Now(), x, d)
    {
      hide Order, OrderOff, Graph.Valid, Entry, TellsBy, PinsPassedBy;
      ghost var s0, q0 := svc, propQueue;
      PinsPassedNone(g, s0, lnk, q0, x, d);
      for i := 0 to |g.dependsOn[x]|
        invariant Ok() && PinsPassedBy(g, s0, svc, lnk, q0, propQueue, x, d, i)
      {
        ghost var w1 := Now();
        Open(g, w1, x);
        DependencyEnds(g, w1, x, i);
        var dep := g.dependsOn[x][i];
        PinsPassedAt(g, s0, svc, lnk, q0, propQueue, x, d, i);
        if g.IsHard(dep, lnk[dep]) && svc[g.to[dep]].pins.dept != d {
          TellPin(g.to[dep]);
        }
        PinsPassedMore(g, s0, w1.svc, svc, lnk, q0, w1.prop, propQueue, x, d, i);
      }
      Open(g, Now(), x);
      forall s: nat ensures Tells(g, s0, lnk, x, d, s) <==> TellsBy(g, s0, lnk, x, d, s, |g.dependsOn[x]|) {
        TellsByAll(g, Now(), s0, x, d, s);
      }
      PinsPassedAll(g, s0, svc, lnk, q0, propQueue, x, d);
    }

    method TellPin(y: nat)
      requires Ok() && y < |svc|
      modifies this`svc, this`propQueue
      ensures Ok() && ButFor(old(svc), svc, y) && svc[y] == old(svc[y]).(prop := old(svc[y]).prop.(pinDpt := true))
      ensures propQueue == old(propQueue) + {y}
    {
      hide Order, OrderOff, Graph.Valid;
      ghost var w0 := Now();
      Open(g, w0, y);
      svc := svc[y := svc[y].(prop := svc[y].prop.(pinDpt := true))];
      propQueue := propQueue + {y};
      Touch(g, w0, Now(), y);
      Close(g, Now(), y);
    }

    method SetPins(x: nat, pins: Pins)
      requires Ok() && x < |svc|
      modifies this`svc
      ensures Ok() && Now() == Repinned(old(Now()), x, pins)
    {
      hide Order, OrderOff, Graph.Valid;
      ghost var w0 := Now();
      Open(g, w0, x);
      svc := svc[x := svc[x].(pins := pins)];
      Touch(g, w0, Now(), x);
      Close(g, Now(), x);
    }

    // pin_start()
    method PinStart(x: nat)
      requires Ok() && x < |svc|
      modifies this`svc, this`propQueue
      ensures Ok() && PinStartDone(g, old(Now()), Now(), x)
      ensures old(PinsUpToDate()) ==> PinsUpToDate()
    {
      hide Order, OrderOff, Graph.Valid, Entry, UpToDate, PinsPassed, PinChange;
      ghost var w0 := Now();
      GraphValid(g, w0);
      if !svc[x].pins.started {
        if svc[x].pins.dept {
          SetPins(x, svc[x].pins.(started := true));
          OwnPin(g, w0, Now(), x);
        } else {
          PassPin(x, true);
          ghost var w1 := Now();
          PassedSame(g, w0, w1, x, true);
          SetPins(x, svc[x].pins.(started := true));
          assert PinTold(g, w0, w1, x, true) && Now() == Repinned(w1, x, w0.svc[x].pins.(started := true));
          PassThenPin(g, w0, w1.svc, Now(), x, true);
          if AllUpToDate(g, w0.svc, w0.lnk, w0.prop) {
            PinsToldUpToDate(g, w0, Now(), x, true, |svc|);
          }
        }
      } else {
        assert svc[x := svc[x]] == svc && svc[x].pins.(started := true) == svc[x].pins;
      }
    }

    // pin_stop()
    method PinStop(x: nat)
      requires Ok() && x < |svc|
      modifies this`svc
      ensures Ok() && Now() == Repinned(old(Now()), x, old(svc[x]).pins.(stopped := true))
    {
      SetPins(x, svc[x].pins.(stopped := true));
    }

    // unpin(), short of the queue processing it ends with
    method Unpin(x: nat)
      requires Ok() && x < |svc|
      modifies this
      ensures Ok() && UnpinHandled(g, old(Now()), Now(), x)
      ensures old(PinsUpToDate()) ==> PinsUpToDate()
    {
      hide Order, OrderOff, Graph.Valid, Entry, UpToDate, PinDropped, UnwantedDone;
      ghost var w0 := Now();
      ghost var w1, w2 := w0, w0;
      var started := svc[x].pins.started;
      if started {
        DropPin(x);
        w1 := Now();
        w2 := w1;
        if svc[x].pins.dept {
          assert PinDropped(g, w0, w1, x);
          return;
        }
        StopIfUnwanted(x);
        w2 := Now();
        assert PinDropped(g, w0, w1, x) && UnwantedDone(g, w1, w2, x);
      }
      if svc[x].pins.stopped {
        SetPins(x, svc[x].pins.(stopped := false));
        if AllUpToDate(g, w2.svc, w2.lnk, w2.prop) {
          PinsUntouched(g, w2, Now(), x, |svc|);
        }
      } else {
        assert svc[x := svc[x]] == svc && svc[x].pins.(stopped := false) == svc[x].pins;
        assert Now() == Repinned(w2, x, w2.svc[x].pins.(stopped := false));
      }
    }

    // unpin(): the start pin goes, and dependencies are told unless a dependent still pins the service
    method DropPin(x: nat)
      requires Ok() && x < |svc| && svc[x].pins.started
      modifies this`svc, this`propQueue
      ensures Ok() && PinDropped(g, old(Now()), Now(), x) && notes == old(notes)
      ensures |svc| == |old(svc)| && svc[x].pins == old(svc[x]).pins.(started := false)
      ensures old(PinsUpToDate()) ==> PinsUpToDate()
    {
      hide Order, OrderOff, Graph.Valid, Entry, UpToDate, PinsPassed, PinChange;
      ghost var w0 := Now();
      GraphValid(g, w0);
      SetPins(x, svc[x].pins.(started := false));
      if svc[x].pins.dept {
        OwnPin(g, w0, Now(), x);
      } else {
        ghost var w1 := Now();
        PassPin(x, false);
        PassedSame(g, w1, Now(), x, false);
        PinThenPass(g, w0, w1.svc, Now(), x, false);
        if AllUpToDate(g, w0.svc, w0.lnk, w0.prop) {
          PinsToldUpToDate(g, w0, Now(), x, false, |svc|);
        }
      }
    }

    // unpin(): a started service that is no longer required releases its dependencies, and stops if it has to
    method StopIfUnwanted(x: nat)
      requires Ok() && x < |svc| && !svc[x].IsStartPinned()
      modifies this
      ensures Ok() && UnwantedDone(g, old(Now()), Now(), x) && notes == old(notes)
      ensures |svc| == |old(svc)| && svc[x].pins == old(svc[x]).pins
      ensures old(PinsUpToDate()) ==> PinsUpToDate()
    {
      hide Order, OrderOff, Graph.Valid, UpToDate, StopRel, Stops;
      if svc[x].state != Started {
        return;
      }
      ghost var w0 := Now();
      Open(g, w0, x);
      if svc[x].requiredBy == 0 {
        svc := svc[x := svc[x].(prop := svc[x].prop.(release := true))];
        propQueue := propQueue + {x};
      }
      ghost var w1 := Now();
      Touch(g, w0, w1, x);
      Close(g, w1, x);
      if old(PinsUpToDate()) {
        PinsUntouched(g, w0, w1, x, |svc|);
      }
      hide Entry;
      if MustStop(svc[x]) {
        DoStop(x);
        StopDrops(g, w1, Now(), x);
        StopAt(g, w1, Now(), x, x);
        if old(PinsUpToDate()) {
          StopPins(g, w1, Now(), x);
        }
      }
    }

    // do_propagation(): whether some hard dependent is start-pinned
    method LookUp(x: nat) returns (deptPin: bool)
      requires Ok() && x < |svc|
      ensures deptPin <==> DependentPinned(g, svc, lnk, x)
    {
      hide Order, OrderOff, Graph.Valid, Entry, DependentPinned;
      deptPin := false;
      for i := 0 to |g.dependents[x]|
        invariant !deptPin ==> NonePinning(g, svc, lnk, x, i)
        invariant deptPin ==> DependentPinned(g, svc, lnk, x)
      {
        DependentEnds(g, Now(), x, i);
        var dept := g.dependents[x][i];
        if g.IsHard(dept, lnk[dept]) && svc[g.from[dept]].IsStartPinned() {
          deptPin := true;
          PinningFound(g, svc, lnk, x, dept);
          break;
        }
      }
      if !deptPin {
        NotPinned(g, Now(), x);
      }
    }

    // do_propagation(): look at the dependents again
    method PropagatePins(x: nat)
      requires Ok() && x < |svc| && svc[x].prop.pinDpt
      modifies this
      ensures Ok() && PinPassed(g, old(Now()), Now(), x) && notes == old(notes)
      ensures old(AllUpToDateBut(g, svc, lnk, propQueue, x)) ==> PinsUpToDate()
    {
      hide Order, OrderOff, Graph.Valid, Entry, UpToDate, StopRel, Stops, DependentPinned, PinsPassed;
      ghost var w0 := Now();
      GraphValid(g, w0);
      var deptPin := LookUp(x);
      if deptPin != svc[x].pins.dept {
        PassPinOn(x, deptPin);
        ghost var w1 := Now();
        if !svc[x].pins.dept && !svc[x].pins.started {
          if MustStop(svc[x]) && svc[x].state == Started {
            DoStop(x);
            StopDrops(g, w1, Now(), x);
            if AllUpToDate(g, w1.svc, w1.lnk, w1.prop) {
              StopPins(g, w1, Now(), x);
            }
          }
        }
        assert PinTold(g, Repinned(w0, x, w0.svc[x].pins.(dept := deptPin)), w1, x, deptPin) && StopIfDue(g, w1, Now(), x);
      } else if AllUpToDateBut(g, svc, lnk, propQueue, x) {
        AlreadyUpToDate(g, Now(), x);
      }
    }

    method PassPinOn(x: nat, deptPin: bool)
      requires Ok() && x < |svc| && (deptPin <==> DependentPinned(g, svc, lnk, x)) && deptPin != svc[x].pins.dept
      modifies this`svc, this`propQueue
      ensures Ok() && PinTold(g, Repinned(old(Now()), x, old(svc[x]).pins.(dept := deptPin)), Now(), x, deptPin)
      ensures |svc| == |old(svc)| && svc[x].pins == old(svc[x]).pins.(dept := deptPin)
      ensures old(AllUpToDateBut(g, svc, lnk, propQueue, x)) ==> PinsUpToDate()
    {
      hide Order, OrderOff, Graph.Valid, Entry, UpToDate, DependentPinned, PinsPassed, PinChange, Tells;
      ghost var w0 := Now();
      GraphValid(g, w0);
      SetPins(x, svc[x].pins.(dept := deptPin));
      ghost var w1 := Now();
      PassPin(x, deptPin);
      PassedSame(g, w1, Now(), x, deptPin);
      PinThenPass(g, w0, w1.svc, Now(), x, deptPin);
      if AllUpToDateBut(g, w0.svc, w0.lnk, w0.prop, x) {
        if w0.svc[x].pins.started {
          PinsUntouched(g, w0, Now(), x, x);
        } else {
          PinsToldUpToDate(g, w0, Now(), x, deptPin, x);
        }
        LookedUp(g, w0, Now(), x);
      }
    }

    // there is nothing of this kind to deal with
    ghost method Forget(x: nat, done: Mask)
      requires Ok() && x < |svc| && Cleared(svc[x].prop, done) == svc[x].prop
      modifies this`notes
      ensures Ok() && Now() == Acked(old(Now()), x, done)
    {
      hide Order, OrderOff, Graph.Valid;
      ghost var w0 := Now();
      Open(g, w0, x);
      notes := notes[x := notes[x].(mask := Without(notes[x].mask, done))];
      Touch(g, w0, Now(), x);
      Close(g, Now(), x);
      assert svc[x := svc[x].(prop := svc[x].prop)] == svc;
    }

    // do_propagation(), one message at a time: pass it on if there is one
    method PassRelease(x: nat)
      requires Ok() && x < |svc|
      modifies this
      ensures Ok() && ReleasePassed(g, old(Now()), Now(), x) && MaskDone(old(notes), notes, x, RELEASE)
    {
      hide Order, OrderOff, Graph.Valid, Entry, ReleaseThrough;
      if svc[x].prop.release {
        PropagateRelease(x);
      } else {
        Forget(x, RELEASE);
      }
    }

    method PassFailure(x: nat)
      requires Ok() && x < |svc|
      modifies this
      ensures Ok() && FailurePassed(g, old(Now()), Now(), x) && MaskDone(old(notes), notes, x, FAILURE)
    {
      hide Order, OrderOff, Graph.Valid, Entry, FailDone;
      if svc[x].prop.failure {
        PropagateFailure(x);
      } else {
        Forget(x, FAILURE);
      }
    }

    method PassStart(x: nat)
      requires Ok() && x < |svc|
      modifies this
      ensures Ok() && StartPassed(g, old(Now()), Now(), x) && MaskDone(old(notes), notes, x, START)
    {
      hide Order, OrderOff, Graph.Valid, Entry, StartDone;
      if svc[x].prop.start {
        PropagateStart(x);
      } else {
        Forget(x, START);
      }
    }

    method PassStop(x: nat)
      requires Ok() && x < |svc|
      modifies this
      ensures Ok() && StopPassed(g, old(Now()), Now(), x) && MaskDone(old(notes), notes, x, STOP)
    {
      hide Order, OrderOff, Graph.Valid, Entry, Stops;
      if svc[x].prop.stop {
        PropagateStop(x);
      } else {
        Forget(x, STOP);
      }
    }

    method PassRequire(x: nat)
      requires Ok() && x < |svc|
      modifies this
      ensures Ok() && RequirePassed(g, old(Now()), Now(), x) && MaskDone(old(notes), notes, x, REQUIRE)
    {
      hide Order, OrderOff, Graph.Valid, Entry, RequireDone;
      if svc[x].prop.require {
        PropagateRequire(x);
      } else {
        Forget(x, REQUIRE);
      }
    }

    // do_propagation(), but for pins
    method PassMessages(x: nat) returns (ghost trail: seq<World>)
      requires Ok() && x < |svc| && notes[x].mask == MaskOf(svc[x])
      modifies this
      ensures Ok() && MaskDone(old(notes), notes, x, ALL)
      ensures MessagesPassed(g, trail, x) && trail[0] == old(Now()) && trail[5] == Now()
    {
      hide Order, OrderOff, Graph.Valid, Entry, MaskDone, RequirePassed, ReleasePassed, FailurePassed, StartPassed, StopPassed;
      ghost var w0 := Now();
      PassRequire(x);
      ghost var w1 := Now();
      StillThere(w0.notes, w1.notes, x, REQUIRE);
      PassRelease(x);
      ghost var w2 := Now();
      StillThere(w1.notes, w2.notes, x, RELEASE);
      PassFailure(x);
      ghost var w3 := Now();
      StillThere(w2.notes, w3.notes, x, FAILURE);
      PassStart(x);
      ghost var w4 := Now();
      StillThere(w3.notes, w4.notes, x, START);
      PassStop(x);
      AllMasksDone(w0.notes, w1.notes, w2.notes, w3.notes, w4.notes, notes, x);
      trail := [w0, w1, w2, w3, w4, Now()];
    }

    // do_propagation(), for a service taken off the queue
    method DoPropagation(x: nat) returns (ghost trail: seq<World>)
      requires Ok() && x in propQueue && x < |svc|
      modifies this
      ensures Ok() && MaskDone(old(notes), notes, x, ALL)
      ensures Passes(g, trail, x) && trail[0] == TakenUp(old(Now()), x) && trail[6] == Now()
      ensures OnlyPins(old(svc[x])) && old(PinsUpToDate()) ==> PinsUpToDate()
    {
      hide Order, OrderOff, Graph.Valid, Entry, UpToDate, DependentPinned, MessagesPassed, PinsPassed, StopIfDue;
      ghost var w0 := Now();
      GraphValid(g, w0);
      TakeForPropagation(x);
      ghost var w1 := Now();
      trail := PassMessages(x);
      ghost var w2 := Now();
      StillThere(w1.notes, w2.notes, x, ALL);
      if OnlyPins(w0.svc[x]) {
        MessagesKeep(g, trail, x);
        if AllUpToDate(g, w0.svc, w0.lnk, w0.prop) {
          TakenUpToDate(g, w0, w2, x);
        }
      }
      if svc[x].prop.pinDpt {
        PropagatePins(x);
      }
      PassesAll(g, trail, Now(), x);
      trail := trail + [Now()];
    }

    // no propagation pass is under way
    ghost predicate AtRest()
      reads this
    {
      AllDone(notes)
    }

    lemma InRange()
      requires Ok()
      ensures forall s :: s in propQueue || s in transitionQueue ==> s < |svc|
    {
    }

    // process_queues(), one step: messages are passed on before any transition is run
    method ProcessOne(x: nat, outcome: BringUp, downAtOnce: bool) returns (ghost trail: seq<World>)
      requires Ok() && AtRest() && Due(Now(), x)
      modifies this
      ensures Ok() && AtRest() && Processed(g, old(Now()), Now(), x, trail, outcome, downAtOnce)
    {
      hide Order, OrderOff, Graph.Valid, Entry, AllDone, Passes, Transitioned;
      InRange();
      ghost var w0 := Now();
      trail := [];
      if propQueue != {} {
        trail := DoPropagation(x);
        DoneByPass(w0.notes, notes, x);
      } else {
        DoneAt(notes, x);
        RunTransition(x, outcome, downAtOnce);
        TransitionNotes(g, w0, Now(), x, outcome, downAtOnce);
        DoneSame(w0.notes, notes);
      }
    }

    // process the queues while only pins are outstanding
    method DrainPins()
      requires Ok() && PinsUpToDate() && NoStopDue(svc) && AllOnlyPins(svc)
      modifies this
      ensures Ok() && propQueue == {} && lnk == old(lnk) && transitionQueue == old(transitionQueue)
      ensures OnlyDept(old(svc), svc)
      ensures forall s :: 0 <= s < |svc| ==> (svc[s].pins.dept <==> PinnedFromAbove(g, old(svc), lnk, s))
    {
      hide Order, OrderOff, Graph.Valid, Entry, UpToDate, DependentPinned, OnlyDept, NoStopDue, AllOnlyPins, Joined, PinnedFromAbove;
      ghost var s0 := svc;
      GraphValid(g, Now());
      DeptRefl(svc);
      while propQueue != {}
        invariant Ok() && g.Valid() && PinsUpToDate() && NoStopDue(svc) && AllOnlyPins(svc)
        invariant OnlyDept(s0, svc) && lnk == old(lnk) && transitionQueue == old(transitionQueue)
        decreases Total(g, propQueue, |g.rank|)
      {
        InRange();
        ghost var w1 := Now();
        var x :| x in propQueue;
        NoStopDueAt(svc, x);
        ghost var trail := DoPropagation(x);
        OnlyPinsPassed(g, w1, trail, x);
        LessToDo(g, w1.prop, propQueue, x);
        DeptStep(s0, w1.svc, svc, x);
      }
      forall s | 0 <= s < |svc| ensures svc[s].pins.dept <==> PinnedFromAbove(g, s0, lnk, s) {
        NonePending(svc, propQueue);
        PinsAreTransitive(g, svc, lnk, propQueue, s);
        ChainsSame(g, s0, svc, lnk, s);
      }
    }

    // what happens to a service set from outside: requests, news of processes, and queue processing
    method Handle(e: Event)
      requires Ok() && AtRest()
      modifies this
      ensures Ok() && AtRest() && Handled(g, old(Now()), Now(), e)
    {
      hide Order, OrderOff, Graph.Valid, Entry, AllDone, UpToDate, PinNotMissed, Processed, StartHandled, StopHandled, TerminationHandled, UnpinHandled, PinStartDone, UpDone, DownDone, FailDone, AttachHandled;
      ghost var w0 := Now();
      if !e.Process? && !e.Attach? && e.x >= |svc| {
        return;
      }
      match e {
        case StartIt(x) => Start(x);
        case StopIt(x, bringDown) => Stop(x, bringDown);
        case ForceIt(x) => ForcedStop(x);
        case RestartIt(x) => var _ := Restart(x);
        case Attach(l) =>
          if l < |lnk| {
            GraphValid(g, Now());
            g.Ends(l);
            if (svc[g.from[l]].state == Started || svc[g.from[l]].state == Starting) && !g.IsOnlyOrdering(l) {
              StartDep(l);
            }
          }
        case PinStarted(x) => PinStart(x);
        case PinStopped(x) => PinStop(x);
        case UnpinIt(x) => Unpin(x);
        case IsUp(x) =>
          if svc[x].state == Starting && !svc[x].waitingForDeps {
            HasStarted(x);
          }
        case IsDown(x) =>
          if svc[x].state == Stopping {
            HasStopped(x);
          }
        case NotUp(x, immediateStop) =>
          if svc[x].state == Starting && !svc[x].waitingForDeps {
            if !immediateStop {
              SetStopping(x, false, false);
              assert Now() == Cancelled(w0, x);
            }
            FailedToStart(x, immediateStop);
          }
        case Died(x) =>
          if svc[x].state == Started {
            UnexpectedTermination(x);
          }
        case Process(x, outcome, downAtOnce) =>
          if x in propQueue || (propQueue == {} && x in transitionQueue) {
            ghost var trail := ProcessOne(x, outcome, downAtOnce);
            assert Processed(g, w0, Now(), x, trail, outcome, downAtOnce);
          }
      }
      if !e.Process? {
        HandledNotes(g, w0, Now(), e);
        DoneSame(w0.notes, notes);
      }
    }

    // any run, of any length
    method Run(events: seq<Event>) returns (ghost history: seq<World>)
      requires Ok() && AtRest()
      modifies this
      ensures Ok() && AtRest()
      ensures IsHistory(g, history, events) && history[0] == old(Now()) && history[|events|] == Now()
    {
      hide Order, OrderOff, Graph.Valid, Entry, AllDone, Handled;
      assert Kept(g, Now());
      history := [Now()];
      for i := 0 to |events|
        invariant Ok() && AtRest()
        invariant IsHistory(g, history, events[..i]) && history[0] == old(Now()) && history[i] == Now()
      {
        Handle(events[i]);
        assert Kept(g, Now());
        HistoryOn(g, history, events, i, Now());
        history := history + [Now()];
      }
      assert events[..|events|] == events;
    }

    // a loaded set of services, none of them active yet
    constructor (g: Graph)
      requires g.Valid() && |g.dependsOn| == |g.rank| == |g.dependents|
      ensures this.g == g && Ok() && AtRest() && PinsUpToDate()
      ensures Initial(g, Now())
    {
      this.g := g;
      svc := seq(|g.rank|, i => IDLE);
      lnk := seq(|g.from|, i => Link(false, false));
      propQueue, transitionQueue := {}, {};
      ties := Ties(seq(|g.rank|, i => {}), seq(|g.rank|, i => {}), seq(|g.rank|, i => {}));
      notes := seq(|g.rank|, i => Note(0, false, NOTHING));
      new;
      InitialOrder(g, Now());
      InitialPins(g, Now());
    }
  }
}
