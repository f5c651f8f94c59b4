// Recursive loading of services and the services they depend on, with dummy records to detect cycles.
module Loading {
  import opened Wrappers
  import Cycles = CycleSearch

  // a line of a service description
  datatype Setting = DependsOn(name: string) | Malformed

  datatype Record = Dummy | Loaded(dependsOn: seq<string>)

  datatype LoadError = NotFound | CyclicDependency | DependencyNotLoaded | BadDescription

  function DependsOnOf(settings: seq<Setting>): seq<string> {
    if settings == [] then []
    else DependsOnOf(settings[..|settings| - 1]) + if settings[|settings| - 1].DependsOn? then [settings[|settings| - 1].name] else []
  }

  predicate WellFormed(settings: seq<Setting>) {
    Malformed !in settings
  }

  predicate IsLoaded(records: map<string, Record>, name: string) {
    name in records && records[name].Loaded?
  }

  // what a loaded service depends on is loaded, and lower in rank
  ghost predicate Complete(records: map<string, Record>, rank: map<string, nat>) {
    forall n :: IsLoaded(records, n) ==> n in rank && AllBelow(records, rank, records[n].dependsOn, rank[n])
  }

  ghost predicate AllBelow(records: map<string, Record>, rank: map<string, nat>, ds: seq<string>, limit: nat) {
    forall i :: 0 <= i < |ds| ==> IsLoaded(records, ds[i]) && ds[i] in rank && rank[ds[i]] < limit
  }

  // the descriptions in s can be loaded, in an order of rising rank
  ghost predicate InOrder(disk: map<string, seq<Setting>>, records: map<string, Record>, s: set<string>, order: map<string, nat>) {
    forall n :: n in s ==> n in order && n in disk && WellFormed(disk[n]) && AllBefore(disk, records, s, order, disk[n], order[n])
  }

  ghost predicate AllBefore(disk: map<string, seq<Setting>>, records: map<string, Record>, s: set<string>, order: map<string, nat>, settings: seq<Setting>, limit: nat) {
    forall i :: 0 <= i < |settings| && settings[i].DependsOn? ==>
      var d := settings[i].name; IsLoaded(records, d) || (d in s && d in order && order[d] < limit)
  }

  // records only get added, complete ones
  ghost predicate Grown(disk: map<string, seq<Setting>>, a: map<string, Record>, b: map<string, Record>) {
    && (forall n :: n in a ==> n in b && b[n] == a[n])
    && (forall n :: n in b && n !in a ==> n in disk && WellFormed(disk[n]) && b[n] == Loaded(DependsOnOf(disk[n])))
  }

  // ranks of loaded services stay
  ghost predicate RanksStay(a: map<string, Record>, ranks: map<string, nat>, more: map<string, nat>) {
    forall n :: IsLoaded(a, n) && n in ranks ==> n in more && more[n] == ranks[n]
  }

  // the name is loaded, or is in s with no service being loaded below it
  ghost predicate CanStart(records: map<string, Record>, s: set<string>, order: map<string, nat>, name: string) {
    IsLoaded(records, name)
    || (name in s && name in order && forall n :: n in records && n in s && n in order && records[n].Dummy? ==> order[name] < order[n])
  }

  lemma GrownTrans(disk: map<string, seq<Setting>>, a: map<string, Record>, b: map<string, Record>, c: map<string, Record>)
    requires Grown(disk, a, b) && Grown(disk, b, c)
    ensures Grown(disk, a, c)
  {
  }

  lemma RanksTrans(disk: map<string, seq<Setting>>, a: map<string, Record>, b: map<string, Record>, r0: map<string, nat>, r1: map<string, nat>, r2: map<string, nat>)
    requires Grown(disk, a, b) && RanksStay(a, r0, r1) && RanksStay(b, r1, r2)
    ensures RanksStay(a, r0, r2)
  {
  }

  lemma DummyAdded(disk: map<string, seq<Setting>>, records: map<string, Record>, rank: map<string, nat>, name: string)
    requires Complete(records, rank) && name !in records
    ensures Complete(records[name := Dummy], rank)
  {
    var with := records[name := Dummy];
    forall n | IsLoaded(with, n) ensures n in rank && AllBelow(with, rank, with[n].dependsOn, rank[n]) {
      assert IsLoaded(records, n) && AllBelow(records, rank, records[n].dependsOn, rank[n]);
    }
  }

  // a service is taken out again, its dependencies staying
  lemma DummyRemoved(disk: map<string, seq<Setting>>, before: map<string, Record>, records: map<string, Record>, rank: map<string, nat>, ranks: map<string, nat>, name: string)
    requires Complete(records, ranks) && Grown(disk, before[name := Dummy], records) && name !in before && RanksStay(before[name := Dummy], rank, ranks)
    ensures Complete(records - {name}, ranks) && Grown(disk, before, records - {name}) && RanksStay(before, rank, ranks)
  {
    var without := records - {name};
    forall n | IsLoaded(without, n) ensures n in ranks && AllBelow(without, ranks, without[n].dependsOn, ranks[n]) {
      assert IsLoaded(records, n) && AllBelow(records, ranks, records[n].dependsOn, ranks[n]);
    }
    StillRanked(before, rank, ranks, name);
  }

  lemma StillRanked(before: map<string, Record>, rank: map<string, nat>, ranks: map<string, nat>, name: string)
    requires name !in before && RanksStay(before[name := Dummy], rank, ranks)
    ensures RanksStay(before, rank, ranks)
  {
    forall n | IsLoaded(before, n) && n in rank ensures n in ranks && ranks[n] == rank[n] {
      assert IsLoaded(before[name := Dummy], n);
    }
  }

  // the dummy is replaced by the service itself
  lemma DummyReplaced(disk: map<string, seq<Setting>>, before: map<string, Record>, records: map<string, Record>, rank: map<string, nat>, ranks: map<string, nat>, name: string, top: nat)
    requires Complete(records, ranks) && Grown(disk, before[name := Dummy], records) && name !in before && RanksStay(before[name := Dummy], rank, ranks)
    requires name in disk && WellFormed(disk[name]) && AllBelow(records, ranks, DependsOnOf(disk[name]), top)
    ensures var after := records[name := Loaded(DependsOnOf(disk[name]))];
      Complete(after, ranks[name := top]) && Grown(disk, before, after) && RanksStay(before, rank, ranks[name := top])
  {
    var after := records[name := Loaded(DependsOnOf(disk[name]))];
    var more := ranks[name := top];
    assert records[name] == before[name := Dummy][name] == Dummy;
    forall n | IsLoaded(after, n) ensures n in more && AllBelow(after, more, after[n].dependsOn, more[n]) {
      if n != name {
        assert IsLoaded(records, n) && AllBelow(records, ranks, records[n].dependsOn, ranks[n]);
      }
    }
    StillRanked(before, rank, ranks, name);
  }

  lemma AllBelowMore(disk: map<string, seq<Setting>>, a: map<string, Record>, b: map<string, Record>, r0: map<string, nat>, r1: map<string, nat>, ds: seq<string>, top: nat, d: string, top2: nat)
    requires AllBelow(a, r0, ds, top) && Grown(disk, a, b) && RanksStay(a, r0, r1)
    requires IsLoaded(b, d) && d in r1 && top <= top2 && r1[d] < top2
    ensures AllBelow(b, r1, ds + [d], top2)
  {
  }

  lemma DependsOnMore(settings: seq<Setting>, i: nat)
    requires i < |settings|
    ensures DependsOnOf(settings[..i + 1]) == DependsOnOf(settings[..i]) + if settings[i].DependsOn? then [settings[i].name] else []
    ensures WellFormed(settings[..i + 1]) <==> WellFormed(settings[..i]) && settings[i].DependsOn?
  {
    var more := settings[..i + 1];
    assert more[..|more| - 1] == settings[..i];
    assert more == settings[..i] + [settings[i]];
  }

  // a description in order can be read on while what it depends on is loaded
  lemma CanGoOn(disk: map<string, seq<Setting>>, before: map<string, Record>, records: map<string, Record>, s: set<string>, order: map<string, nat>, name: string, i: nat)
    requires InOrder(disk, before, s, order) && CanStart(before, s, order, name) && name !in before && name in disk && i < |disk[name]|
    requires Grown(disk, before[name := Dummy], records)
    ensures disk[name][i].DependsOn? && InOrder(disk, records, s, order) && CanStart(records, s, order, disk[name][i].name)
  {
    assert AllBefore(disk, before, s, order, disk[name], order[name]);
    var d := disk[name][i].name;
    forall n | n in before ensures n in records && records[n] == before[n] {
      assert before[name := Dummy][n] == before[n];
    }
    forall n | n in s ensures AllBefore(disk, records, s, order, disk[n], order[n]) {
      assert AllBefore(disk, before, s, order, disk[n], order[n]);
    }
    if !IsLoaded(records, d) {
      forall n | n in records && n in s && n in order && records[n].Dummy? ensures order[d] < order[n] {
        assert n == name || n in before;
      }
    }
  }

  ghost function Left(all: set<string>, some: set<string>): nat {
    |all - some|
  }

  lemma FewerNames(all: set<string>, some: set<string>, name: string)
    requires name in all && name !in some
    ensures Left(all, some + {name}) < Left(all, some)
  {
    assert all - some == (all - (some + {name})) + {name};
  }

  lemma FewerLeft(all: set<string>, some: set<string>, more: set<string>)
    requires some <= more
    ensures Left(all, more) <= Left(all, some)
  {
    assert all - some == (all - more) + ((all - some) - (all - more));
  }

  class RecordSet {
    const disk: map<string, seq<Setting>>
    var records: map<string, Record>
    ghost var rank: map<string, nat>

    ghost predicate Valid()
      reads this
    {
      Complete(records, rank)
    }

    constructor (disk: map<string, seq<Setting>>)
      ensures this.disk == disk && records == map[] && Valid() && NoDummies(records)
    {
      this.disk, records, rank := disk, map[], map[];
    }

    // load_service(): s and order are any names and order in which they might be loaded
    method LoadService(name: string, ghost s: set<string>, ghost order: map<string, nat>) returns (r: Result<(), LoadError>)
      requires Valid()
      modifies this
      ensures Valid() && Grown(disk, old(records), records) && RanksStay(old(records), old(rank), rank)
      ensures r.Ok? ==> IsLoaded(records, name)
      ensures InOrder(disk, old(records), s, order) && CanStart(old(records), s, order, name) ==> r.Ok?
      ensures name !in old(records) && name !in disk <==> r == Err(NotFound)
      ensures name in old(records) && old(records)[name].Dummy? <==> r == Err(CyclicDependency)
      decreases Left(disk.Keys, records.Keys), 0
    {
      hide Complete, InOrder, Grown, CanStart, RanksStay, AllBelow, Left;
      Unchanged(disk, records, rank);
      if name in records {
        if records[name].Dummy? {
          BeingLoaded(records, s, order, name);
          return Err(CyclicDependency);
        }
        return Ok(());
      }
      if name !in disk {
        NotOnDisk(disk, records, s, order, name);
        return Err(NotFound);
      }
      ghost var before, rank0 := records, rank;
      DummyAdded(disk, records, rank, name);
      records := records[name := Dummy];
      FewerNames(disk.Keys, before.Keys, name);
      assert records.Keys == before.Keys + {name};
      var dependsOn;
      ghost var top;
      r, dependsOn, top := LoadDependencies(name, before, s, order);
      if r.Err? {
        DummyRemoved(disk, before, records, rank0, rank, name);
        records := records - {name};
        return;
      }
      DummyReplaced(disk, before, records, rank0, rank, name, top);
      records := records[name := Loaded(dependsOn)];
      rank := rank[name := top];
    }

    // process the lines of a description
    method LoadDependencies(name: string, ghost before: map<string, Record>, ghost s: set<string>, ghost order: map<string, nat>)
      returns (r: Result<(), LoadError>, dependsOn: seq<string>, ghost top: nat)
      requires Valid() && name in disk && name !in before && records == before[name := Dummy]
      modifies this
      ensures Valid() && Grown(disk, old(records), records) && RanksStay(old(records), old(rank), rank)
      ensures r.Ok? ==> WellFormed(disk[name]) && dependsOn == DependsOnOf(disk[name]) && AllBelow(records, rank, dependsOn, top)
      ensures InOrder(disk, before, s, order) && CanStart(before, s, order, name) ==> r.Ok?
      ensures r.Err? ==> r.error == DependencyNotLoaded || (r.error == BadDescription && !WellFormed(disk[name]))
      decreases Left(disk.Keys, records.Keys), 1
    {
      hide Complete, InOrder, Grown, CanStart, RanksStay, AllBelow, Left;
      ghost var with, rank0 := records, rank;
      Unchanged(disk, records, rank);
      var settings := disk[name];
      dependsOn, top := [], 0;
      assert settings[..0] == [];
      AllBelowNone(records, rank);
      for i := 0 to |settings|
        invariant Valid() && Grown(disk, with, records) && RanksStay(with, rank0, rank)
        invariant dependsOn == DependsOnOf(settings[..i]) && WellFormed(settings[..i])
        invariant AllBelow(records, rank, dependsOn, top)
      {
        DependsOnMore(settings, i);
        if InOrder(disk, before, s, order) && CanStart(before, s, order, name) {
          CanGoOn(disk, before, records, s, order, name, i);
        }
        if settings[i].Malformed? {
          return Err(BadDescription), dependsOn, top;
        }
        ghost var records1, rank1 := records, rank;
        GrownKeys(disk, with, records);
        FewerLeft(disk.Keys, with.Keys, records.Keys);
        var loaded := LoadService(settings[i].name, s, order);
        GrownTrans(disk, with, records1, records);
        RanksTrans(disk, with, records1, rank0, rank1, rank);
        if loaded.Err? {
          return Err(DependencyNotLoaded), dependsOn, top;
        }
        LoadedRanked(records, rank, settings[i].name);
        ghost var above := if top > rank[settings[i].name] then top else rank[settings[i].name] + 1;
        AllBelowMore(disk, records1, records, rank1, rank, dependsOn, top, settings[i].name, above);
        top := above;
        dependsOn := dependsOn + [settings[i].name];
      }
      assert settings[..|settings|] == settings;
      r := Ok(());
    }

    // load_service() for a user: nothing is being loaded
    method Load(name: string) returns (r: Result<(), LoadError>)
      requires Valid() && NoDummies(records)
      modifies this
      ensures Valid() && NoDummies(records) && Grown(disk, old(records), records)
      ensures r.Ok? <==> Loadable(disk, old(records), name)
      ensures r.Ok? ==> IsLoaded(records, name)
      ensures r == Err(NotFound) <==> name !in old(records) && name !in disk
    {
      hide Complete, InOrder, Grown, CanStart, RanksStay, AllBelow, Left;
      ghost var s: set<string>, order: map<string, nat> := {}, map[];
      if Loadable(disk, records, name) && !IsLoaded(records, name) {
        s, order :| InOrder(disk, records, s, order) && name in s;
        NoneBeingLoaded(disk, records, s, order, name);
      }
      ghost var before := records;
      r := LoadService(name, s, order);
      StillNoDummies(disk, before, records);
      if r.Ok? {
        LoadedWasLoadable(disk, before, records, rank, name);
      } else {
        LoadedCanStart(disk, before, s, order, name);
      }
    }
  }

  ghost predicate NoDummies(records: map<string, Record>) {
    forall n :: n in records ==> records[n].Loaded?
  }

  // the service is loaded, or there is an order in which it and what it needs can be
  ghost predicate Loadable(disk: map<string, seq<Setting>>, records: map<string, Record>, name: string) {
    IsLoaded(records, name) || exists s: set<string>, order: map<string, nat> :: InOrder(disk, records, s, order) && name in s
  }

  lemma NoneBeingLoaded(disk: map<string, seq<Setting>>, records: map<string, Record>, s: set<string>, order: map<string, nat>, name: string)
    requires InOrder(disk, records, s, order) && name in s && NoDummies(records)
    ensures CanStart(records, s, order, name)
  {
  }

  lemma LoadedCanStart(disk: map<string, seq<Setting>>, records: map<string, Record>, s: set<string>, order: map<string, nat>, name: string)
    ensures IsLoaded(records, name) ==> CanStart(records, s, order, name)
    ensures s == {} ==> InOrder(disk, records, s, order)
  {
  }

  lemma StillNoDummies(disk: map<string, seq<Setting>>, before: map<string, Record>, records: map<string, Record>)
    requires Grown(disk, before, records) && NoDummies(before)
    ensures NoDummies(records)
  {
  }

  // What has been loaded shows how it can be
  lemma LoadedWasLoadable(disk: map<string, seq<Setting>>, before: map<string, Record>, records: map<string, Record>, rank: map<string, nat>, name: string)
    requires Grown(disk, before, records) && Complete(records, rank) && IsLoaded(records, name)
    ensures Loadable(disk, before, name)
  {
    var s := records.Keys - before.Keys;
    forall n | n in s ensures n in rank && n in disk && WellFormed(disk[n]) && AllBefore(disk, before, s, rank, disk[n], rank[n]) {
      assert IsLoaded(records, n);
      forall i | 0 <= i < |disk[n]| && disk[n][i].DependsOn?
        ensures var d := disk[n][i].name; IsLoaded(before, d) || (d in s && d in rank && rank[d] < rank[n])
      {
        ListsAll(disk[n], i);
        var k :| 0 <= k < |records[n].dependsOn| && records[n].dependsOn[k] == disk[n][i].name;
        assert AllBelow(records, rank, records[n].dependsOn, rank[n]);
      }
    }
    assert InOrder(disk, before, s, rank);
  }

  lemma {:induction false} ListsAll(settings: seq<Setting>, i: nat)
    requires i < |settings| && settings[i].DependsOn?
    ensures settings[i].name in DependsOnOf(settings)
    decreases |settings|
  {
    if i < |settings| - 1 {
      ListsAll(settings[..|settings| - 1], i);
    }
  }

  lemma Unchanged(disk: map<string, seq<Setting>>, records: map<string, Record>, rank: map<string, nat>)
    ensures Grown(disk, records, records) && RanksStay(records, rank, rank)
  {
  }

  lemma BeingLoaded(records: map<string, Record>, s: set<string>, order: map<string, nat>, name: string)
    requires name in records && records[name].Dummy?
    ensures !CanStart(records, s, order, name)
  {
  }

  lemma NotOnDisk(disk: map<string, seq<Setting>>, records: map<string, Record>, s: set<string>, order: map<string, nat>, name: string)
    requires name !in records && name !in disk
    ensures !(InOrder(disk, records, s, order) && CanStart(records, s, order, name))
  {
  }

  lemma AllBelowNone(records: map<string, Record>, rank: map<string, nat>)
    ensures AllBelow(records, rank, [], 0)
  {
  }

  lemma GrownKeys(disk: map<string, seq<Setting>>, a: map<string, Record>, b: map<string, Record>)
    requires Grown(disk, a, b)
    ensures a.Keys <= b.Keys
  {
  }

  lemma LoadedRanked(records: map<string, Record>, rank: map<string, nat>, name: string)
    requires Complete(records, rank) && IsLoaded(records, name)
    ensures name in rank
  {
  }

  // ---- loadable, in terms of the dependencies that lead from a service ----

  // what the descriptions of services that are not loaded depend on
  function ToLoad(disk: map<string, seq<Setting>>, records: map<string, Record>): Cycles.Dependencies {
    map n | n in disk && !IsLoaded(records, n) :: DependsOnOf(disk[n])
  }

  // the description is without fault, and what it depends on is loaded or described
  ghost predicate CanRead(disk: map<string, seq<Setting>>, records: map<string, Record>, n: string) {
    && n in disk && WellFormed(disk[n])
    && forall i :: 0 <= i < |disk[n]| && disk[n][i].DependsOn? ==> IsLoaded(records, disk[n][i].name) || disk[n][i].name in ToLoad(disk, records)
  }

  ghost predicate Leads(g: Cycles.Dependencies, p: seq<string>, a: string, b: string) {
    Cycles.Walk(g, p) && p[0] == a && p[|p| - 1] == b
  }

  ghost predicate Reaches(g: Cycles.Dependencies, a: string, b: string) {
    exists p :: Leads(g, p, a, b)
  }

  ghost predicate NoObstacle(disk: map<string, seq<Setting>>, records: map<string, Record>, name: string) {
    && name in ToLoad(disk, records)
    && !Cycles.ReachesCycle(ToLoad(disk, records), name)
    && forall n :: Reaches(ToLoad(disk, records), name, n) ==> CanRead(disk, records, n)
  }

  lemma LeadsSelf(g: Cycles.Dependencies, a: string)
    requires a in g
    ensures Reaches(g, a, a)
  {
    assert Leads(g, [a], a, a);
  }

  lemma LeadsOn(g: Cycles.Dependencies, a: string, b: string, c: string)
    requires Reaches(g, a, b) && b in g && c in g[b] && c in g
    ensures Reaches(g, a, c)
  {
    var p :| Leads(g, p, a, b);
    assert Leads(g, p + [c], a, c);
  }

  lemma LeadsJoin(g: Cycles.Dependencies, a: string, p: seq<string>, b: string, q: seq<string>, c: string)
    requires Leads(g, p, a, b) && Leads(g, q, b, c)
    ensures Leads(g, p + q[1..], a, c)
  {
    var r := p + q[1..];
    forall i | 0 <= i < |r| ensures r[i] in g && (i + 1 < |r| ==> r[i + 1] in g[r[i]]) {
      if i < |p| - 1 {
        assert r[i] == p[i] && r[i + 1] == p[i + 1];
      } else {
        assert r[i] == q[i - (|p| - 1)];
      }
    }
  }

  // back to where it has been, a walk shows a cycle
  lemma BackIsCycle(g: Cycles.Dependencies, r: string, a: string, b: string)
    requires Reaches(g, r, a) && a in g && b in g[a] && Reaches(g, b, a)
    ensures Cycles.ReachesCycle(g, r)
  {
    var p :| Leads(g, p, r, a);
    var q :| Leads(g, q, b, a);
    var w := [a] + q;
    assert Leads(g, w, a, a);
    LeadsJoin(g, r, p, a, w, a);
    var all := p + w[1..];
    assert all[|p| - 1] == all[|all| - 1] == a;
  }

  ghost function Reached(g: Cycles.Dependencies, a: string): set<string> {
    set t | t in g && Reaches(g, a, t)
  }

  lemma ReachedLess(g: Cycles.Dependencies, r: string, a: string, b: string)
    requires Reaches(g, r, a) && a in g && b in g[a] && b in g && !Cycles.ReachesCycle(g, r)
    ensures |Reached(g, b)| < |Reached(g, a)|
  {
    LeadsSelf(g, a);
    if Reaches(g, b, a) {
      BackIsCycle(g, r, a, b);
    }
    forall t | t in Reached(g, b) ensures t in Reached(g, a) {
      var q :| Leads(g, q, b, t);
      assert Leads(g, [a, b], a, b);
      LeadsJoin(g, a, [a, b], b, q, t);
      assert Leads(g, [a, b] + q[1..], a, t);
    }
    var more := Reached(g, a) - Reached(g, b);
    assert a in more;
    assert Reached(g, a) == Reached(g, b) + more;
  }

  // With no obstacle, the number of services reached gives the order
  lemma NoObstacleLoads(disk: map<string, seq<Setting>>, records: map<string, Record>, name: string)
    requires NoObstacle(disk, records, name)
    ensures Loadable(disk, records, name)
  {
    var g := ToLoad(disk, records);
    var s := Reached(g, name);
    var order := map n | n in s :: |Reached(g, n)|;
    LeadsSelf(g, name);
    forall n | n in s ensures n in disk && WellFormed(disk[n]) && AllBefore(disk, records, s, order, disk[n], order[n]) {
      assert CanRead(disk, records, n);
      forall i | 0 <= i < |disk[n]| && disk[n][i].DependsOn?
        ensures var d := disk[n][i].name; IsLoaded(records, d) || (d in s && d in order && order[d] < order[n])
      {
        var d := disk[n][i].name;
        ListsAll(disk[n], i);
        if !IsLoaded(records, d) {
          LeadsOn(g, name, n, d);
          ReachedLess(g, name, n, d);
        }
      }
    }
    assert InOrder(disk, records, s, order);
  }

  lemma {:induction false} ListedIsSetting(settings: seq<Setting>, d: string) returns (i: nat)
    requires d in DependsOnOf(settings)
    ensures i < |settings| && settings[i] == DependsOn(d)
    decreases |settings|
  {
    var n := |settings| - 1;
    if settings[n] == DependsOn(d) {
      i := n;
    } else {
      i := ListedIsSetting(settings[..n], d);
    }
  }

  // in order, a walk only goes down
  lemma {:induction false} WalkDown(disk: map<string, seq<Setting>>, records: map<string, Record>, s: set<string>, order: map<string, nat>, p: seq<string>, i: nat, j: nat)
    requires InOrder(disk, records, s, order) && Cycles.Walk(ToLoad(disk, records), p) && i <= j < |p| && p[i] in s
    ensures p[j] in s && (i < j ==> order[p[j]] < order[p[i]])
    decreases j - i
  {
    if i < j {
      WalkDown(disk, records, s, order, p, i, j - 1);
      var n := p[j - 1];
      assert n in ToLoad(disk, records) && p[(j - 1) + 1] in ToLoad(disk, records)[n];
      var k := ListedIsSetting(disk[n], p[j]);
      assert p[j] in ToLoad(disk, records);
      assert AllBefore(disk, records, s, order, disk[n], order[n]);
    }
  }

  lemma OrderHasNoObstacle(disk: map<string, seq<Setting>>, records: map<string, Record>, s: set<string>, order: map<string, nat>, name: string)
    requires InOrder(disk, records, s, order) && name in s && !IsLoaded(records, name)
    ensures NoObstacle(disk, records, name)
  {
    var g := ToLoad(disk, records);
    if p, i :| Cycles.Walk(g, p) && p[0] == name && 0 <= i < |p| - 1 && p[i] == p[|p| - 1] {
      WalkDown(disk, records, s, order, p, 0, i);
      WalkDown(disk, records, s, order, p, i, |p| - 1);
    }
    forall n | Reaches(g, name, n) ensures CanRead(disk, records, n) {
      var p :| Leads(g, p, name, n);
      WalkDown(disk, records, s, order, p, 0, |p| - 1);
      assert AllBefore(disk, records, s, order, disk[n], order[n]);
    }
  }

  // A service can be loaded exactly if it is, or if every description reached from it can be read and leads to no cycle
  lemma LoadableExactly(disk: map<string, seq<Setting>>, records: map<string, Record>, name: string)
    ensures Loadable(disk, records, name) <==> IsLoaded(records, name) || NoObstacle(disk, records, name)
  {
    if Loadable(disk, records, name) && !IsLoaded(records, name) {
      var s: set<string>, order: map<string, nat> :| InOrder(disk, records, s, order) && name in s;
      OrderHasNoObstacle(disk, records, s, order, name);
    }
    if NoObstacle(disk, records, name) {
      NoObstacleLoads(disk, records, name);
    }
  }

  // Loaded services depend on one another in no cycle
  lemma LoadedAreAcyclic(records: map<string, Record>, rank: map<string, nat>, p: seq<string>, i: nat, j: nat)
    requires Complete(records, rank) && i < j < |p|
    requires forall k :: 0 <= k < |p| ==> IsLoaded(records, p[k]) && (k + 1 < |p| ==> p[k + 1] in records[p[k]].dependsOn)
    ensures p[i] != p[j]
  {
    RanksFall(records, rank, p, i, j);
  }

  lemma {:induction false} RanksFall(records: map<string, Record>, rank: map<string, nat>, p: seq<string>, i: nat, j: nat)
    requires Complete(records, rank) && i <= j < |p|
    requires forall k :: 0 <= k < |p| ==> IsLoaded(records, p[k]) && (k + 1 < |p| ==> p[k + 1] in records[p[k]].dependsOn)
    ensures p[j] in rank && p[i] in rank && (i < j ==> rank[p[j]] < rank[p[i]])
    decreases j - i
  {
    assert IsLoaded(records, p[i]) && IsLoaded(records, p[j]);
    if i < j {
      RanksFall(records, rank, p, i, j - 1);
      var n := p[j - 1];
      assert p[(j - 1) + 1] in records[n].dependsOn;
      var k :| 0 <= k < |records[n].dependsOn| && records[n].dependsOn[k] == p[j];
      assert AllBelow(records, rank, records[n].dependsOn, rank[n]);
    }
  }
}
