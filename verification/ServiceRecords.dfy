// Services, the links between them, and the graph these form. Links and services are addressed by index.
module ServiceRecords {

  datatype State = Stopped | Starting | Started | Stopping

  datatype DepType = Regular | Soft | WaitsFor | Milestone | Before | After

  datatype Link = Link(waitingOn: bool, holdingAcq: bool)

  // messages to pass on when the propagation queue is processed
  datatype Props = Props(require: bool, release: bool, failure: bool, start: bool, stop: bool, pinDpt: bool)

  // pinned stopped, pinned started, and pinned started on account of a dependent
  datatype Pins = Pins(stopped: bool, started: bool, dept: bool)

  datatype Service = Service(
    state: State,
    desired: State,
    requiredBy: int,
    startExplicit: bool,
    waitingForDeps: bool,
    forceStop: bool,
    inUserRestart: bool,
    pins: Pins,
    prop: Props)
  {
    predicate IsStartPinned() {
      pins.started || pins.dept
    }

    predicate IsFundamentallyStopped() {
      state == Stopped || (state == Starting && waitingForDeps)
    }

    predicate CanInterruptStop() {
      waitingForDeps && !forceStop
    }
  }

  datatype Graph = Graph(
    from: seq<nat>, to: seq<nat>, kind: seq<DepType>,
    dependsOn: seq<seq<nat>>, dependents: seq<seq<nat>>,
    rank: seq<nat>, top: nat)
  {
    // every link is listed at both its ends, and services rank above what they depend on
    ghost predicate Valid() {
      && |from| == |to| == |kind|
      && |dependsOn| == |dependents| == |rank|
      && (forall l :: 0 <= l < |from| ==> from[l] < |rank| && to[l] < |rank| && rank[from[l]] > rank[to[l]])
      && (forall s :: 0 <= s < |rank| ==> rank[s] <= top)
      && (forall s, i :: 0 <= s < |rank| && 0 <= i < |dependsOn[s]| ==> dependsOn[s][i] < |from| && from[dependsOn[s][i]] == s)
      && (forall s, i :: 0 <= s < |rank| && 0 <= i < |dependents[s]| ==> dependents[s][i] < |from| && to[dependents[s][i]] == s)
      && (forall l :: 0 <= l < |from| ==> l in dependsOn[from[l]] && l in dependents[to[l]])
      && (forall s, i, j :: 0 <= s < |rank| && 0 <= i < j < |dependsOn[s]| ==> dependsOn[s][i] != dependsOn[s][j])
    }

    predicate IsOnlyOrdering(l: nat)
      requires l < |kind|
    {
      kind[l] == Before || kind[l] == After
    }

    // a milestone is hard only until it has been reached
    predicate IsHard(l: nat, lnk: Link)
      requires l < |kind|
    {
      kind[l] == Regular || (kind[l] == Milestone && lnk.waitingOn)
    }

    lemma Ends(l: nat)
      requires Valid() && l < |from|
      ensures |from| == |to| == |kind| && |dependsOn| == |dependents| == |rank|
      ensures from[l] < |rank| && to[l] < |rank| && rank[to[l]] < rank[from[l]] <= top
    {
    }

    lemma DependentAt(s: nat, i: nat)
      requires Valid() && s < |dependents| && i < |dependents[s]|
      ensures dependents[s][i] < |from| && |from| == |to| == |kind| && to[dependents[s][i]] == s
    {
    }

    lemma DependsOnAt(s: nat, i: nat)
      requires Valid() && s < |dependsOn| && i < |dependsOn[s]|
      ensures dependsOn[s][i] < |from| && |from| == |to| == |kind| && from[dependsOn[s][i]] == s
    {
    }

    lemma DependsOnOnce(s: nat, i: nat)
      requires Valid() && s < |dependsOn| && i < |dependsOn[s]|
      ensures dependsOn[s][i] !in dependsOn[s][..i]
    {
      assert forall j :: 0 <= j < i ==> dependsOn[s][j] != dependsOn[s][i];
    }
  }
}
