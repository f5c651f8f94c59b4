// What the service set owes to itself, kept per service so that one step touches one entry.
module ServiceBooks {
  import opened ServiceRecords

  // Propagation flags that a propagation pass has taken off the queue and not yet acted on
  datatype Mask = Mask(require: bool, release: bool, failure: bool, start: bool, stop: bool)

  const NOTHING := Mask(false, false, false, false, false)

  datatype Note = Note(surplus: nat, late: bool, mask: Mask)

  datatype Ties = Ties(held: seq<set<nat>>, waits: seq<set<nat>>, waiters: seq<set<nat>>)

  datatype World = World(svc: seq<Service>, lnk: seq<Link>, prop: set<nat>, trans: set<nat>, ties: Ties, notes: seq<Note>)

  ghost predicate Entry(s: Service, note: Note, held: nat, waits: bool, waiters: bool, inProp: bool, inTrans: bool, due: int) {
    && s.requiredBy == held + (if s.startExplicit then 1 else 0) + note.surplus + due
    && !(s.prop.require && s.prop.release)
    && (s.prop.require ==> s.state != Started && (s.state == Starting ==> s.waitingForDeps))
    && (s.prop.require ==> inProp || note.mask.require)
    && (s.prop.release ==> inProp || note.mask.release)
    && (s.prop.failure ==> inProp || note.mask.failure)
    && (s.prop.start ==> inProp || note.mask.start)
    && (s.prop.stop ==> inProp || note.mask.stop)
    && (s.state == Starting && s.waitingForDeps ==> inTrans || waits)
    && (s.state == Starting && inTrans ==> s.waitingForDeps)
    && (s.state == Started && !note.late ==> !waiters)
  }

  ghost predicate Shape(g: Graph, w: World) {
    && |w.svc| == |w.notes| == |g.rank| == |g.dependsOn| == |g.dependents|
    && |w.ties.held| == |w.ties.waits| == |w.ties.waiters| == |w.svc|
    && |w.lnk| == |g.from| == |g.to| == |g.kind|
  }

  ghost predicate Fits(g: Graph, w: World) {
    && g.Valid() && Shape(g, w)
    && (forall s :: s in w.prop ==> s < |w.svc|)
    && (forall s :: s in w.trans ==> s < |w.svc|)
  }

  ghost predicate EntryAt(w: World, s: nat, due: int)
    requires |w.ties.held| == |w.ties.waits| == |w.ties.waiters| == |w.svc| == |w.notes| && s < |w.svc|
  {
    Entry(w.svc[s], w.notes[s], |w.ties.held[s]|, w.ties.waits[s] != {}, w.ties.waiters[s] != {}, s in w.prop, s in w.trans, due)
  }

  ghost predicate Holds(to: seq<nat>, lnk: seq<Link>, held: seq<set<nat>>) {
    && |lnk| == |to|
    && (forall l :: 0 <= l < |lnk| ==> to[l] < |held| && (lnk[l].holdingAcq <==> l in held[to[l]]))
    && (forall s, l {:trigger l in held[s]} :: 0 <= s < |held| && l in held[s] ==> l < |lnk| && to[l] == s)
  }

  ghost predicate Waits(end: seq<nat>, lnk: seq<Link>, waits: seq<set<nat>>) {
    && |lnk| == |end|
    && (forall l :: 0 <= l < |lnk| ==> end[l] < |waits| && (lnk[l].waitingOn <==> l in waits[end[l]]))
    && (forall s, l {:trigger l in waits[s]} :: 0 <= s < |waits| && l in waits[s] ==> l < |lnk| && end[l] == s)
  }

  // the books record exactly which links hold and wait
  ghost predicate Agree(g: Graph, lnk: seq<Link>, ties: Ties) {
    Holds(g.to, lnk, ties.held) && Waits(g.from, lnk, ties.waits) && Waits(g.to, lnk, ties.waiters)
  }

  // every service but x is in order
  ghost predicate OrderOff(g: Graph, w: World, x: nat) {
    && Fits(g, w) && Agree(g, w.lnk, w.ties)
    && (forall s :: 0 <= s < |w.svc| && s != x ==> EntryAt(w, s, 0))
  }

  ghost predicate Order(g: Graph, w: World) {
    && Fits(g, w) && Agree(g, w.lnk, w.ties)
    && (forall s :: 0 <= s < |w.svc| ==> EntryAt(w, s, 0))
  }

  lemma Open(g: Graph, w: World, x: nat)
    requires Order(g, w) && x < |w.svc|
    ensures Shape(g, w) && OrderOff(g, w, x) && EntryAt(w, x, 0)
  {
    hide Entry, Holds, Waits, Graph.Valid;
  }

  lemma Close(g: Graph, w: World, x: nat)
    requires Shape(g, w) && OrderOff(g, w, x) && x < |w.svc| && EntryAt(w, x, 0)
    ensures Order(g, w)
  {
    hide Entry, Holds, Waits, Graph.Valid;
  }

  ghost predicate ButFor<T>(a: seq<T>, b: seq<T>, x: nat) {
    |a| == |b| && forall i {:trigger b[i]} :: 0 <= i < |a| && i != x ==> b[i] == a[i]
  }

  // v is w but for service x's own record and note, and for x joining queues
  ghost predicate Differs(w: World, v: World, x: nat) {
    && x < |w.svc| == |w.notes|
    && v.lnk == w.lnk && v.ties == w.ties
    && ButFor(w.svc, v.svc, x) && ButFor(w.notes, v.notes, x)
    && w.prop <= v.prop <= w.prop + {x} && w.trans <= v.trans <= w.trans + {x}
  }

  lemma Touch(g: Graph, w: World, v: World, x: nat)
    requires OrderOff(g, w, x) && Differs(w, v, x)
    ensures OrderOff(g, v, x) && Shape(g, v)
  {
    hide Entry, Holds, Waits, Graph.Valid;
    forall s | 0 <= s < |v.svc| && s != x ensures EntryAt(v, s, 0) {
      assert EntryAt(w, s, 0);
    }
  }

  // ---- one link's flags, with the books kept in step ----

  ghost function Unhold(g: Graph, w: World, l: nat): World
    requires Shape(g, w) && l < |w.lnk| && g.to[l] < |w.svc|
  {
    var x := g.to[l];
    w.(lnk := w.lnk[l := w.lnk[l].(holdingAcq := false)],
       ties := w.ties.(held := w.ties.held[x := w.ties.held[x] - {l}]))
  }

  ghost function Hold(g: Graph, w: World, l: nat): World
    requires Shape(g, w) && l < |w.lnk| && g.to[l] < |w.svc|
  {
    var x := g.to[l];
    w.(lnk := w.lnk[l := w.lnk[l].(holdingAcq := true)],
       ties := w.ties.(held := w.ties.held[x := w.ties.held[x] + {l}]))
  }

  ghost function Unwait(g: Graph, w: World, l: nat): World
    requires Shape(g, w) && l < |w.lnk| && g.to[l] < |w.svc| && g.from[l] < |w.svc|
  {
    var x, y := g.to[l], g.from[l];
    w.(lnk := w.lnk[l := w.lnk[l].(waitingOn := false)],
       ties := w.ties.(waits := w.ties.waits[y := w.ties.waits[y] - {l}], waiters := w.ties.waiters[x := w.ties.waiters[x] - {l}]))
  }

  ghost function Wait(g: Graph, w: World, l: nat): World
    requires Shape(g, w) && l < |w.lnk| && g.to[l] < |w.svc| && g.from[l] < |w.svc|
  {
    var x, y := g.to[l], g.from[l];
    w.(lnk := w.lnk[l := w.lnk[l].(waitingOn := true)],
       ties := w.ties.(waits := w.ties.waits[y := w.ties.waits[y] + {l}], waiters := w.ties.waiters[x := w.ties.waiters[x] + {l}]))
  }

  lemma WaitsSame(end: seq<nat>, lnk: seq<Link>, waits: seq<set<nat>>, l: nat, b: bool)
    requires Waits(end, lnk, waits) && l < |lnk|
    ensures Waits(end, lnk[l := lnk[l].(holdingAcq := b)], waits)
  {
  }

  lemma HoldsSame(to: seq<nat>, lnk: seq<Link>, held: seq<set<nat>>, l: nat, b: bool)
    requires Holds(to, lnk, held) && l < |lnk|
    ensures Holds(to, lnk[l := lnk[l].(waitingOn := b)], held)
  {
  }

  lemma HoldsDrop(to: seq<nat>, lnk: seq<Link>, held: seq<set<nat>>, l: nat)
    requires Holds(to, lnk, held) && l < |lnk|
    ensures to[l] < |held| && (lnk[l].holdingAcq <==> l in held[to[l]])
    ensures Holds(to, lnk[l := lnk[l].(holdingAcq := false)], held[to[l] := held[to[l]] - {l}])
    ensures Holds(to, lnk[l := lnk[l].(holdingAcq := true)], held[to[l] := held[to[l]] + {l}])
  {
  }

  lemma WaitsDrop(end: seq<nat>, lnk: seq<Link>, waits: seq<set<nat>>, l: nat)
    requires Waits(end, lnk, waits) && l < |lnk|
    ensures end[l] < |waits| && (lnk[l].waitingOn <==> l in waits[end[l]])
    ensures Waits(end, lnk[l := lnk[l].(waitingOn := false)], waits[end[l] := waits[end[l]] - {l}])
    ensures Waits(end, lnk[l := lnk[l].(waitingOn := true)], waits[end[l] := waits[end[l]] + {l}])
  {
  }

  lemma HoldAgree(g: Graph, w: World, l: nat)
    requires Fits(g, w) && Agree(g, w.lnk, w.ties) && l < |w.lnk|
    ensures g.to[l] < |w.svc| && (w.lnk[l].holdingAcq <==> l in w.ties.held[g.to[l]])
    ensures Agree(g, Unhold(g, w, l).lnk, Unhold(g, w, l).ties)
    ensures Agree(g, Hold(g, w, l).lnk, Hold(g, w, l).ties)
  {
    hide Holds, Waits, Graph.Valid;
    HoldsDrop(g.to, w.lnk, w.ties.held, l);
    WaitsSame(g.from, w.lnk, w.ties.waits, l, false);
    WaitsSame(g.to, w.lnk, w.ties.waiters, l, false);
    WaitsSame(g.from, w.lnk, w.ties.waits, l, true);
    WaitsSame(g.to, w.lnk, w.ties.waiters, l, true);
  }

  lemma WaitAgree(g: Graph, w: World, l: nat)
    requires Fits(g, w) && Agree(g, w.lnk, w.ties) && l < |w.lnk|
    ensures g.to[l] < |w.svc| && g.from[l] < |w.svc|
    ensures w.lnk[l].waitingOn <==> l in w.ties.waits[g.from[l]]
    ensures w.lnk[l].waitingOn <==> l in w.ties.waiters[g.to[l]]
    ensures Agree(g, Unwait(g, w, l).lnk, Unwait(g, w, l).ties)
    ensures Agree(g, Wait(g, w, l).lnk, Wait(g, w, l).ties)
  {
    hide Holds, Waits, Graph.Valid;
    WaitsDrop(g.from, w.lnk, w.ties.waits, l);
    WaitsDrop(g.to, w.lnk, w.ties.waiters, l);
    HoldsSame(g.to, w.lnk, w.ties.held, l, false);
    HoldsSame(g.to, w.lnk, w.ties.held, l, true);
  }

  // Clearing an acquisition leaves its target owing one
  lemma UnholdOrder(g: Graph, w: World, l: nat)
    requires Order(g, w) && l < |w.lnk| && w.lnk[l].holdingAcq
    ensures Shape(g, w) && g.to[l] < |w.svc|
    ensures OrderOff(g, Unhold(g, w, l), g.to[l]) && EntryAt(Unhold(g, w, l), g.to[l], 1)
  {
    hide Holds, Waits, Graph.Valid;
    HoldAgree(g, w, l);
    var x := g.to[l];
    assert EntryAt(w, x, 0);
    var v := Unhold(g, w, l);
    assert OrderOff(g, v, x) by {
      hide Entry;
      forall s | 0 <= s < |v.svc| && s != x ensures EntryAt(v, s, 0) {
        assert EntryAt(w, s, 0);
      }
    }
  }

  // Taking an acquisition settles a target that owes one
  lemma HoldOrder(g: Graph, w: World, l: nat)
    requires l < |w.lnk| && Shape(g, w) && g.to[l] < |w.svc| && !w.lnk[l].holdingAcq
    requires OrderOff(g, w, g.to[l]) && EntryAt(w, g.to[l], 1)
    ensures Order(g, Hold(g, w, l))
  {
    hide Holds, Waits, Graph.Valid;
    HoldAgree(g, w, l);
    var x := g.to[l];
    var v := Hold(g, w, l);
    assert EntryAt(v, x, 0);
    assert Order(g, v) by {
      hide Entry;
      forall s | 0 <= s < |v.svc| ensures EntryAt(v, s, 0) {
        assert s != x ==> EntryAt(w, s, 0);
      }
    }
  }

  // A link stops waiting: its dependent is back in order once queued if it still needs to be
  lemma UnwaitOrder(g: Graph, w: World, l: nat, trans: set<nat>)
    requires Order(g, w) && l < |w.lnk| && Shape(g, w) && g.from[l] < |w.svc| && g.to[l] < |w.svc|
    requires w.trans <= trans <= w.trans + {g.from[l]}
    requires w.svc[g.from[l]].state == Starting && w.svc[g.from[l]].waitingForDeps ==> g.from[l] in trans
    requires w.svc[g.from[l]].state == Starting && !w.svc[g.from[l]].waitingForDeps ==> trans == w.trans
    ensures Order(g, Unwait(g, w, l).(trans := trans))
  {
    hide Holds, Waits, Graph.Valid;
    WaitAgree(g, w, l);
    var v := Unwait(g, w, l).(trans := trans);
    forall s | 0 <= s < |v.svc| ensures EntryAt(v, s, 0) {
      assert EntryAt(w, s, 0);
    }
  }

  // A link starts waiting on a service that has not started
  lemma WaitOrder(g: Graph, w: World, l: nat, x: nat)
    requires OrderOff(g, w, x) && l < |w.lnk| && Shape(g, w) && g.from[l] < |w.svc| && g.to[l] < |w.svc|
    requires w.svc[g.to[l]].state != Started
    ensures OrderOff(g, Wait(g, w, l), x)
    ensures x < |w.svc| && EntryAt(w, x, 0) ==> EntryAt(Wait(g, w, l), x, 0)
    ensures Wait(g, w, l).ties.waits[g.from[l]] != {}
  {
    hide Holds, Waits, Graph.Valid;
    WaitAgree(g, w, l);
    var v := Wait(g, w, l);
    assert l in v.ties.waits[g.from[l]];
    forall s | 0 <= s < |v.svc| && (s != x || EntryAt(w, s, 0)) ensures EntryAt(v, s, 0) {
      assert EntryAt(w, s, 0);
    }
  }

  // x is in order, were it known to be waiting on something
  ghost predicate EntryIfWaiting(w: World, s: nat)
    requires |w.ties.held| == |w.ties.waits| == |w.ties.waiters| == |w.svc| == |w.notes| && s < |w.svc|
  {
    Entry(w.svc[s], w.notes[s], |w.ties.held[s]|, true, w.ties.waiters[s] != {}, s in w.prop, s in w.trans, 0)
  }

  lemma WaitEntry(g: Graph, w: World, l: nat, x: nat)
    requires OrderOff(g, w, x) && l < |w.lnk| && Shape(g, w) && g.from[l] < |w.svc| && g.to[l] < |w.svc| && x < |w.svc|
    requires w.svc[g.to[l]].state != Started
    requires EntryIfWaiting(w, x)
    ensures OrderOff(g, Wait(g, w, l), x) && EntryIfWaiting(Wait(g, w, l), x)
    ensures Wait(g, w, l).ties.waits[g.from[l]] != {}
    ensures w.ties.waits[x] != {} ==> Wait(g, w, l).ties.waits[x] != {}
  {
    hide OrderOff;
    WaitOrder(g, w, l, x);
  }

  // the ties of a service in order are exactly its flagged links
  lemma TiesExact(g: Graph, w: World, s: nat)
    requires Order(g, w) && Shape(g, w) && s < |w.svc|
    ensures w.ties.held[s] == set l | 0 <= l < |w.lnk| && g.to[l] == s && w.lnk[l].holdingAcq
    ensures w.ties.waits[s] == set l | 0 <= l < |w.lnk| && g.from[l] == s && w.lnk[l].waitingOn
    ensures w.ties.waiters[s] == set l | 0 <= l < |w.lnk| && g.to[l] == s && w.lnk[l].waitingOn
  {
  }

  // x is taken off the transition queue
  lemma TakeOff(g: Graph, w: World, x: nat)
    requires Order(g, w) && Shape(g, w) && x < |w.svc|
    ensures Shape(g, w.(trans := w.trans - {x})) && OrderOff(g, w.(trans := w.trans - {x}), x)
    ensures EntryAt(w, x, 0) && EntryIfWaiting(w.(trans := w.trans - {x}), x)
    ensures w.svc[x].state != Starting ==> Order(g, w.(trans := w.trans - {x}))
  {
    hide Holds, Waits, Graph.Valid;
    var v := w.(trans := w.trans - {x});
    assert EntryAt(w, x, 0);
    forall s | 0 <= s < |v.svc| && (s != x || w.svc[x].state != Starting) ensures EntryAt(v, s, 0) {
      assert EntryAt(w, s, 0);
    }
  }

  lemma StillWaiting(g: Graph, w: World, x: nat)
    requires Shape(g, w) && OrderOff(g, w, x) && x < |w.svc| && EntryIfWaiting(w, x) && w.ties.waits[x] != {}
    ensures Order(g, w)
  {
    hide OrderOff, Order;
    Close(g, w, x);
  }

  // x is taken off the propagation queue, with every message it has to pass on noted
  lemma TakeProp(g: Graph, w: World, v: World, x: nat)
    requires Order(g, w) && Shape(g, w) && x < |w.svc|
    requires v == w.(prop := v.prop, notes := v.notes) && v.prop == w.prop - {x}
    requires ButFor(w.notes, v.notes, x) && v.notes[x].surplus == w.notes[x].surplus && v.notes[x].late == w.notes[x].late
    requires v.notes[x].mask == Mask(w.svc[x].prop.require, w.svc[x].prop.release, w.svc[x].prop.failure, w.svc[x].prop.start, w.svc[x].prop.stop)
    ensures Order(g, v)
  {
    hide Holds, Waits, Graph.Valid;
    forall s | 0 <= s < |v.svc| ensures EntryAt(v, s, 0) {
      assert EntryAt(w, s, 0);
    }
  }
}
