// What a service does in a second turn, having been queued twice. The queues of a service set are modelled as sets; these
// lemmas say that this leaves nothing out but what a process may do that is started, or stopped, once more.
module ServiceTurns {
  import opened ServiceRecords
  import opened ServiceBooks
  import opened ServiceStops
  import opened ServicePins
  import opened ServiceSteps
  import opened ServicePasses
  import opened ServiceUpkeep
  import opened ServiceGuarantees
  import opened ServiceWaking

  // With no message, and its pin right, a service passes nothing on
  lemma SecondPass(g: Graph, a: World, b: World, x: nat, trail: seq<World>)
    requires Kept(g, a) && x < |a.svc| && x !in a.prop && UpToDate(g, a.svc, a.lnk, a.prop, x)
    requires Passes(g, trail, x) && trail[0] == TakenUp(a, x) && trail[6] == b
    ensures b.svc == a.svc && b.lnk == a.lnk && b.prop == a.prop && b.trans == a.trans
  {
    hide Order, MessagesPassed, PinTold, StopIfDue;
    Silent(g, a, x);
    MessagesKeep(g, trail[..6], x);
  }

  lemma Silent(g: Graph, w: World, x: nat)
    requires Kept(g, w) && x < |w.svc| && x !in w.prop
    ensures OnlyPins(w.svc[x])
  {
    assert EntryAt(w, x, 0);
  }

  // A second transition is no other than news that the service is up, or not, or down, unless it waits to stop: so histories
  // with second turns are histories
  lemma SecondTurn(g: Graph, a: World, b: World, x: nat, outcome: BringUp, downAtOnce: bool)
    requires Kept(g, a) && x < |a.svc| && x !in a.trans && !WaitsToStop(a.svc[x]) && Transitioned(g, a, b, x, outcome, downAtOnce)
    ensures b == a || Handled(g, a, b, IsUp(x)) || Handled(g, a, b, NotUp(x, true)) || Handled(g, a, b, IsDown(x))
  {
    hide Order, UpDone, DownDone, FailDone;
    assert a.trans - {x} == a.trans;
    GraphValid(g, a);
    if CanProceed(g, a.svc, a.lnk, x) {
      if a.svc[x].state == Starting && a.svc[x].waitingForDeps {
        WaitingForSomething(g, a, x);
      } else {
        assert Proceeding(a, x) == a;
        if a.svc[x].state == Starting && outcome == Refused {
          RefusedFails(g, a, b, x);
        }
      }
    }
  }

  // a start that is refused has failed
  lemma RefusedFails(g: Graph, a: World, b: World, x: nat)
    requires g.Valid() && Shape(g, a) && x < |a.svc| && a.svc[x].state == Starting && !a.svc[x].waitingForDeps
    requires FailDone(g, Cancelled(a, x), b, x, true)
    ensures FailDone(g, a, b, x, true)
  {
    hide AllFailed, AllWoken, LetGo, JoinedAbove, OnlyFails, OnlyInto;
    var w := Cancelled(a, x);
    AllFailSince(a.svc, w.svc, b.svc, x);
    forall s | s in b.trans && s !in a.trans ensures Roused(g, a, x, s) {
      if l: nat :| SoftListens(g, w, l, s, x) {
        g.Ends(l);
        assert SoftListens(g, a, l, s, x);
      }
    }
  }

  // A service that has been launched is launched again in a second turn
  lemma LaunchedAgain(g: Graph, a: World, b: World, x: nat, downAtOnce: bool)
    requires Shape(g, a) && Transitioned(g, a, b, x, Launched, downAtOnce) && CanProceed(g, a.svc, a.lnk, x) && a.svc[x].state == Starting
    ensures CanProceed(g, b.svc, b.lnk, x) && b.svc[x].state == Starting && !b.svc[x].waitingForDeps
  {
  }
}
