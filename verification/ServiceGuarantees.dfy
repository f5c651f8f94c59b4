// What a service set in order guarantees, in terms of its services and links alone
module ServiceGuarantees {
  import opened ServiceRecords
  import opened ServiceBooks
  import opened ServiceSteps

  function Holders(g: Graph, lnk: seq<Link>, s: nat): set<nat> {
    set l | 0 <= l < |lnk| && l < |g.to| && g.to[l] == s && lnk[l].holdingAcq
  }

  // required_by counts the links that hold the service, its explicit activation, and what was acquired twice over
  lemma RequiredByIsExact(g: Graph, w: World, s: nat)
    requires Shape(g, w) && Order(g, w) && s < |w.svc|
    ensures w.svc[s].requiredBy == |Holders(g, w.lnk, s)| + (if w.svc[s].startExplicit then 1 else 0) + w.notes[s].surplus
    ensures w.svc[s].requiredBy >= |Holders(g, w.lnk, s)| + (if w.svc[s].startExplicit then 1 else 0) >= 0
  {
    TiesExact(g, w, s);
    assert EntryAt(w, s, 0);
    assert Holders(g, w.lnk, s) == w.ties.held[s];
  }

  // A service that nothing requires is held by no link and was not activated explicitly
  lemma UnrequiredIsUnheld(g: Graph, w: World, s: nat, l: nat)
    requires Shape(g, w) && Order(g, w) && s < |w.svc| && w.svc[s].requiredBy == 0 && l < |w.lnk| && g.to[l] == s
    ensures !w.lnk[l].holdingAcq && !w.svc[s].startExplicit
  {
    RequiredByIsExact(g, w, s);
    assert |Holders(g, w.lnk, s)| == 0;
    assert l !in Holders(g, w.lnk, s);
  }

  // A link waits only on a service that has not started, unless that one came up pinned with a stop outstanding
  lemma WaitingOnUnstarted(g: Graph, w: World, l: nat)
    requires Shape(g, w) && Order(g, w) && l < |w.lnk| && w.lnk[l].waitingOn
    ensures g.to[l] < |w.svc| && (w.svc[g.to[l]].state != Started || w.notes[g.to[l]].late)
  {
    g.Ends(l);
    TiesExact(g, w, g.to[l]);
    assert l in w.ties.waiters[g.to[l]];
    assert EntryAt(w, g.to[l], 0);
  }

  // A starting service that waits for dependencies is queued, or some link of its does wait
  lemma WaitingForSomething(g: Graph, w: World, s: nat)
    requires Shape(g, w) && Order(g, w) && s < |w.svc| && w.svc[s].state == Starting && w.svc[s].waitingForDeps
    ensures s in w.trans || exists l :: 0 <= l < |w.lnk| && g.from[l] == s && w.lnk[l].waitingOn
  {
    TiesExact(g, w, s);
    assert EntryAt(w, s, 0);
    if s !in w.trans {
      var l :| l in w.ties.waits[s];
      assert g.from[l] == s && w.lnk[l].waitingOn;
    }
  }

  // No lost wake-ups: with the queues empty, a service still waiting has a dependency that has yet to start
  lemma QuietMeansBlocked(g: Graph, w: World, s: nat)
    requires Shape(g, w) && Order(g, w) && w.trans == {}
    requires s < |w.svc| && w.svc[s].state == Starting && w.svc[s].waitingForDeps
    requires forall t :: 0 <= t < |w.svc| ==> !w.notes[t].late
    ensures exists l :: 0 <= l < |w.lnk| && g.from[l] == s && w.lnk[l].waitingOn && g.to[l] < |w.svc| && w.svc[g.to[l]].state != Started
  {
    WaitingForSomething(g, w, s);
    var l :| 0 <= l < |w.lnk| && g.from[l] == s && w.lnk[l].waitingOn;
    WaitingOnUnstarted(g, w, l);
  }

  // Between propagation passes every message is queued, and requiring and releasing are never both outstanding
  lemma MessagesAreQueued(g: Graph, w: World, s: nat)
    requires Shape(g, w) && Order(g, w) && s < |w.svc| && AllDone(w.notes)
    ensures !OnlyPins(w.svc[s]) ==> s in w.prop
    ensures !(w.svc[s].prop.require && w.svc[s].prop.release)
    ensures w.svc[s].prop.require ==> w.svc[s].state != Started
  {
    assert EntryAt(w, s, 0);
  }
}
