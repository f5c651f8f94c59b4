// Runs of a service set, from loading on.
module ServiceRuns {
  import opened ServiceRecords
  import opened ServiceBooks
  import opened ServiceSteps
  import opened ServicePasses
  import opened ServicePins
  import opened ServiceHistories
  import opened ServiceWaking
  import opened ServiceExamples
  import opened Services

  // any events at all have a history
  method RunFromStart(g: Graph, events: seq<Event>) returns (services: ServiceSet, ghost history: seq<World>)
    requires g.Valid() && |g.dependsOn| == |g.rank| == |g.dependents|
    ensures services.g == g && FromTheStart(g, history, events) && history[|events|] == services.Now()
  {
    hide Order, Handled;
    services := new ServiceSet(g);
    history := services.Run(events);
  }

  // a service waits for one that runs, and is never told
  method RunLate() returns (services: ServiceSet)
    ensures |services.svc| == 2 && services.propQueue == services.transitionQueue == {} && services.lnk == [Link(true, true)]
    ensures services.svc[0].state == Starting && services.svc[0].waitingForDeps && services.svc[1].state == Started
  {
    hide Order, Handled, Kept;
    PairIsRow();
    RowValid(PairGraph(), 2);
    ghost var history;
    services, history := RunFromStart(PairGraph(), LATE);
    LateExample(history);
    HistoryAt(PairGraph(), history, LATE, |LATE|);
  }

  // a service stays pinned on account of one that is not
  method RunStale() returns (services: ServiceSet)
    ensures |services.svc| == 2 && services.svc[1].pins.dept && !Pending(services.svc, services.propQueue, 1)
    ensures !PinnedFromAbove(PairGraph(), services.svc, services.lnk, 1)
  {
    hide Order, Handled, Kept, PinnedFromAbove;
    PairIsRow();
    RowValid(PairGraph(), 2);
    ghost var history;
    services, history := RunFromStart(PairGraph(), STALE);
    StalePinExample(history);
    HistoryAt(PairGraph(), history, STALE, |STALE|);
  }

  // a service is required, and no one holds it
  method RunTwice() returns (services: ServiceSet)
    ensures |services.svc| == 2 && services.propQueue == {} && services.svc[1].state == Started
    ensures services.svc[1].requiredBy == 1 && services.lnk == [Link(false, false)] && !services.svc[1].startExplicit
  {
    hide Order, Handled, Kept;
    PairIsRow();
    RowValid(PairGraph(), 2);
    ghost var history;
    services, history := RunFromStart(PairGraph(), TWICE);
    TwiceExample(history);
    HistoryAt(PairGraph(), history, TWICE, |TWICE|);
  }

  // a service runs, and nothing requires it
  method RunUnasked() returns (services: ServiceSet)
    ensures |services.svc| == 3 && services.propQueue == services.transitionQueue == {} && services.svc[1].state == Started
    ensures services.svc[1].requiredBy == 0 && !services.svc[1].IsStartPinned()
  {
    hide Order, Handled, Kept;
    ForkGraphValid();
    ghost var history;
    services, history := RunFromStart(ForkGraph(), UNASKED);
    UnaskedExample(history);
    HistoryAt(ForkGraph(), history, UNASKED, |UNASKED|);
  }

  lemma ForkGraphValid()
    ensures ForkGraph().Valid()
  {
    var g := ForkGraph();
    assert g.dependsOn[0][0] == 0 && g.dependsOn[0][1] == 1;
    assert g.dependents[1][0] == 0 && g.dependents[2][0] == 1;
  }

  // a service waits for ever to stop
  method RunStranded() returns (services: ServiceSet)
    ensures |services.svc| == 3 && services.propQueue == services.transitionQueue == {}
    ensures WaitsToStop(services.svc[2]) && services.svc[1].state == Starting && services.svc[1].waitingForDeps
  {
    hide Order, Handled, Kept;
    ChainIsRow();
    RowValid(ChainGraph(), 3);
    ghost var history;
    services, history := RunFromStart(ChainGraph(), STRANDED);
    StrandedExample(history);
    HistoryAt(ChainGraph(), history, STRANDED, |STRANDED|);
  }
}
