// Environments: variables set, unset or taken from a parent, in any order, and the mapping they amount to.
module Environments {
  import opened Wrappers
  import opened UnorderedSets

  // ---- names and assignments ----

  function NameLength(s: string): (n: nat)
    ensures n <= |s| && '=' !in s[..n] && (n < |s| ==> s[n] == '=')
  {
    if s == "" || s[0] == '=' then 0 else
      assert s[..1 + NameLength(s[1..])] == [s[0]] + s[1..][..NameLength(s[1..])];
      1 + NameLength(s[1..])
  }

  function NameOf(s: string): string {
    s[..NameLength(s)]
  }

  predicate IsAssignment(s: string) {
    NameLength(s) < |s|
  }

  predicate Assigns(s: string, name: string) {
    IsAssignment(s) && NameOf(s) == name
  }

  function Same(s: string): string {
    s
  }

  // getenv(): the first assignment to a name in a list
  function First(list: seq<string>, name: string): Option<string> {
    if list == [] then None
    else
      var before := First(list[..|list| - 1], name);
      var last := list[|list| - 1];
      if before.Some? then before else if Assigns(last, name) then Some(last) else None
  }

  // ---- what commands amount to ----

  datatype Command = Set(text: string) | Unset(name: string) | Import(name: string) | Clear

  datatype Status = Defined(text: string) | Undefined | Inherited

  // one command after the other
  function StatusIn(log: seq<Command>, name: string): Status {
    if log == [] then Inherited else Given(log[|log| - 1], StatusIn(log[..|log| - 1], name), name)
  }

  function Given(c: Command, before: Status, name: string): Status {
    if About(c, name) then Said(c) else before
  }

  predicate About(c: Command, name: string) {
    match c
    case Set(text) => NameOf(text) == name
    case Unset(n) => n == name
    case Import(n) => n == name
    case Clear => true
  }

  function Said(c: Command): Status {
    match c
    case Set(text) => Defined(text)
    case Unset(n) => Undefined
    case Import(n) => Inherited
    case Clear => Undefined
  }

  // The last command about a name, or to clear everything, decides; without one the name is inherited
  lemma {:induction false} LastDecides(log: seq<Command>, name: string, k: nat)
    requires k <= |log| && (k > 0 ==> About(log[k - 1], name))
    requires forall j :: k <= j < |log| ==> !About(log[j], name)
    ensures StatusIn(log, name) == if k == 0 then Inherited else Said(log[k - 1])
    decreases |log|
  {
    if k < |log| {
      LastDecides(log[..|log| - 1], name, k);
    }
  }

  lemma StatusAfter(log: seq<Command>, c: Command, name: string)
    ensures StatusIn(log + [c], name) == Given(c, StatusIn(log, name), name)
  {
    assert (log + [c])[..|log|] == log;
  }

  // what the three sets say of a name
  ghost function StatusOf(keep: bool, imported: map<string, string>, undefined: map<string, string>, defined: map<string, string>, name: string): Status {
    if name in defined then Defined(defined[name])
    else if keep then (if name in undefined then Undefined else Inherited)
    else if name in imported then Inherited else Undefined
  }

  // the sets are disjoint, and say what the commands do
  ghost predicate Refines(keep: bool, imported: map<string, string>, undefined: map<string, string>, defined: map<string, string>, log: seq<Command>) {
    && imported.Keys !! undefined.Keys && imported.Keys !! defined.Keys && undefined.Keys !! defined.Keys
    && (keep <==> Clear !in log) && (keep ==> imported == map[]) && (!keep ==> undefined == map[])
    && (forall n :: n in defined ==> Assigns(defined[n], n))
    && (forall n :: StatusOf(keep, imported, undefined, defined, n) == StatusIn(log, n))
  }

  class Environment {
    const maxBuckets: nat
    var keepParentEnv: bool
    const importFromParent: UnorderedSet<string, string>
    const undefine: UnorderedSet<string, string>
    const setVars: UnorderedSet<string, string>
    ghost var log: seq<Command>

    ghost predicate Valid()
      reads this, importFromParent, undefine, setVars
    {
      && 4 <= maxBuckets && importFromParent != undefine && importFromParent != setVars && undefine != setVars
      && importFromParent.Valid() && undefine.Valid() && setVars.Valid()
      && importFromParent.key == Same && undefine.key == Same && setVars.key == NameOf
      && Refines(keepParentEnv, importFromParent.contents, undefine.contents, setVars.contents, log)
    }

    ghost function Sets(): set<object>
    {
      {importFromParent, undefine, setVars}
    }

    constructor (hash: string -> nat, maxBuckets: nat)
      requires 4 <= maxBuckets
      ensures Valid() && fresh(Sets()) && log == []
    {
      this.maxBuckets, keepParentEnv, log := maxBuckets, true, [];
      importFromParent := new UnorderedSet(hash, Same, maxBuckets);
      undefine := new UnorderedSet(hash, Same, maxBuckets);
      setVars := new UnorderedSet(hash, NameOf, maxBuckets);
    }

    method SetVar(varAndVal: string)
      requires Valid() && IsAssignment(varAndVal)
      modifies this, Sets()
      ensures Valid() && log == old(log) + [Set(varAndVal)]
    {
      hide UnorderedSet.Valid, Refines, NameOf, IsAssignment;
      var name := NameOf(varAndVal);
      AfterSet(keepParentEnv, importFromParent.contents, undefine.contents, setVars.contents, log, varAndVal);
      Unmark(name);
      Assign(varAndVal);
      log := log + [Set(varAndVal)];
    }

    // the name is neither imported nor undefined
    method Unmark(name: string)
      requires importFromParent != undefine && importFromParent.Valid() && undefine.Valid()
      modifies importFromParent, undefine
      ensures importFromParent.Valid() && undefine.Valid()
      ensures importFromParent.contents == old(importFromParent.contents) - {name} && undefine.contents == old(undefine.contents) - {name}
    {
      hide UnorderedSet.Valid;
      var _ := importFromParent.Erase(name);
      var _ := undefine.Erase(name);
    }

    // the assignment takes the place of one to the same name
    method Assign(varAndVal: string)
      requires setVars.Valid() && setVars.key == NameOf
      modifies setVars
      ensures setVars.Valid() && setVars.contents == old(setVars.contents)[NameOf(varAndVal) := varAndVal]
    {
      hide UnorderedSet.Valid;
      var inserted, b, i := setVars.Insert(varAndVal);
      if !inserted {
        setVars.Replace(b, i, varAndVal);
      }
    }

    method ImportParentVar(name: string)
      requires Valid()
      modifies this, Sets()
      ensures Valid() && log == old(log) + [Import(name)]
    {
      hide UnorderedSet.Valid, Refines;
      AfterImport(keepParentEnv, importFromParent.contents, undefine.contents, setVars.contents, log, name);
      var _ := undefine.Erase(name);
      var _ := setVars.Erase(name);
      if !keepParentEnv {
        var inserted, b, i := importFromParent.Insert(name);
      }
      log := log + [Import(name)];
    }

    method UndefineVar(name: string)
      requires Valid()
      modifies this, Sets()
      ensures Valid() && log == old(log) + [Unset(name)]
    {
      hide UnorderedSet.Valid, Refines;
      AfterUnset(keepParentEnv, importFromParent.contents, undefine.contents, setVars.contents, log, name);
      var _ := importFromParent.Erase(name);
      var _ := setVars.Erase(name);
      if keepParentEnv {
        var inserted, b, i := undefine.Insert(name);
      }
      log := log + [Unset(name)];
    }

    method ClearNoInherit()
      requires Valid()
      modifies this, Sets()
      ensures Valid() && log == old(log) + [Clear]
    {
      hide UnorderedSet.Valid;
      AfterClear(log);
      keepParentEnv := false;
      importFromParent.Clear();
      undefine.Clear();
      setVars.Clear();
      log := log + [Clear];
    }

    // getenv(), in the environment of the process
    static method GetEnv(environ: seq<string>, name: string) returns (r: Option<string>)
      ensures r == First(environ, name)
    {
      for i := 0 to |environ|
        invariant First(environ[..i], name) == None
      {
        FirstMore(environ, i, name);
        if IsAssignment(environ[i]) && NameOf(environ[i]) == name {
          FirstStays(environ, i + 1, name);
          return Some(environ[i]);
        }
      }
      assert environ[..|environ|] == environ;
      r := None;
    }

    // get(): an assignment here or, failing that, in the environment of the process
    method Get(environ: seq<string>, name: string) returns (r: Option<string>)
      requires Valid()
      ensures r == Got(keepParentEnv, importFromParent.contents, setVars.contents, environ, name)
      ensures r == Layered(StatusIn(log, name), Inherited, First(environ, name)) <==>
                !(Clear !in log && StatusIn(log, name) == Undefined && First(environ, name).Some?)
    {
      hide UnorderedSet.Valid, Refines;
      GotExactly(keepParentEnv, importFromParent.contents, undefine.contents, setVars.contents, log, environ, name);
      var found, b, i := setVars.Find(name);
      if found {
        return Some(setVars.buckets[b][i]);
      }
      var imported := importFromParent.Contains(name);
      if !keepParentEnv && !imported {
        return None;
      }
      r := GetEnv(environ, name);
    }

    // build(): all of the parent's variables, but for those undefined or excluded
    method InheritAll(environ: seq<string>, exclude: UnorderedSet<string, string>) returns (m: EnvMap)
      requires Valid() && exclude.Valid()
      ensures FromParent(m, environ, |environ|, undefine.contents, exclude.contents)
    {
      hide UnorderedSet.Valid, Refines, FromParent;
      m := EnvMap([], map[]);
      FromParentNone(m, environ, undefine.contents, exclude.contents);
      for i := 0 to |environ|
        invariant FromParent(m, environ, i, undefine.contents, exclude.contents)
      {
        FromParentMore(m, environ, i, undefine.contents, exclude.contents);
        if IsAssignment(environ[i]) {
          var undefined := undefine.Contains(NameOf(environ[i]));
          var excluded := exclude.Contains(NameOf(environ[i]));
          if !undefined && !excluded {
            m := WithParents(m, environ[i]);
          }
        }
      }
    }

    // build(): the variables imported, as the source gives them
    static method GetFrom(environ: seq<string>, parent: Environment?, name: string) returns (r: Option<string>)
      requires parent != null ==> parent.Valid()
      ensures parent == null ==> r == Got(true, map[], map[], environ, name)
      ensures parent != null ==> r == Got(parent.keepParentEnv, parent.importFromParent.contents, parent.setVars.contents, environ, name)
    {
      if parent == null {
        r := GetEnv(environ, name);
      } else {
        r := parent.Get(environ, name);
      }
    }

    // build(): the variables imported, from the parent or, without one, from the environment of the process
    method InheritImported(environ: seq<string>, parent: Environment?) returns (m: EnvMap)
      requires Valid() && (parent != null ==> parent.Valid())
      ensures parent == null ==> FromImports(m, importFromParent.contents, true, map[], map[], environ)
      ensures parent != null ==> FromImports(m, importFromParent.contents, parent.keepParentEnv, parent.importFromParent.contents, parent.setVars.contents, environ)
    {
      hide UnorderedSet.Valid, Refines, EnvMap.Agrees, FromImports, Got, WithParents, Lists;
      ghost var k, im, de := true, map[], map[];
      if parent != null {
        k, im, de := parent.keepParentEnv, parent.importFromParent.contents, parent.setVars.contents;
        DefinedAssigns(k, im, parent.undefine.contents, de, parent.log);
      }
      ghost var all := Concat(importFromParent.buckets, |importFromParent.buckets|);
      importFromParent.Listed();
      m := EnvMap([], map[]);
      FromImportsNone(m, k, im, de, environ);
      var end, b: nat, i: nat := importFromParent.Begin();
      ghost var o: nat, done: map<string, string> := 0, map[];
      NothingListed(Same);
      assert all[..0] == [];
      while !end
        invariant if end then o == |all| else
          b < |importFromParent.buckets| && i < |importFromParent.buckets[b]| && o == Offset(importFromParent.buckets, b, i)
        invariant o <= |all| && Lists(Same, all[..o], done) && FromImports(m, done, k, im, de, environ)
        decreases |all| - o
      {
        var name := importFromParent.buckets[b][i];
        ConcatAt(importFromParent.buckets, b, i, |importFromParent.buckets|);
        ListedOne(Same, all, importFromParent.contents, done, o);
        FromImportsMore(m, done, k, im, de, environ, name);
        var text := GetFrom(environ, parent, name);
        if text.Some? {
          m := WithParents(m, text.value);
        }
        done := done[name := name];
        end, b, i := importFromParent.Next(b, i);
        o := o + 1;
      }
      assert all[..o] == all;
      ListedAll(Same, all, importFromParent.contents, done);
    }

    // build(), with the environment of the process as the parent
    method Build(environ: seq<string>, exclude: UnorderedSet<string, string>) returns (m: EnvMap)
      requires Valid() && exclude.Valid()
      ensures m.Agrees()
      ensures forall n :: m.Lookup(n) == BuiltFor(log, First(environ, n), n in exclude.contents, n)
    {
      hide UnorderedSet.Valid, Refines, EnvMap.Agrees, EnvMap.Lookup, First;
      var base;
      if keepParentEnv {
        base := InheritAll(environ, exclude);
        assert environ[..|environ|] == environ;
      } else {
        base := InheritImported(environ, null);
      }
      m := AddOwn(base, exclude);
      forall n ensures m.Lookup(n) == BuiltFor(log, First(environ, n), n in exclude.contents, n) {
        BuiltExactly(keepParentEnv, importFromParent.contents, undefine.contents, setVars.contents, log,
                     First(environ, n), n in exclude.contents, n);
      }
    }

    // build(), over a parent environment
    method BuildOver(environ: seq<string>, parent: Environment) returns (m: EnvMap)
      requires Valid() && parent.Valid()
      ensures m.Agrees()
      ensures forall n :: m.Lookup(n) == Layered(StatusIn(log, n), StatusIn(parent.log, n), First(environ, n)) <==>
                !(First(environ, n).Some? && Slips(log, parent.log, n))
    {
      hide UnorderedSet.Valid, Refines, EnvMap.Agrees, EnvMap.Lookup, First;
      var none := new UnorderedSet(setVars.hash, Same, maxBuckets);
      var base;
      if keepParentEnv {
        base := parent.Build(environ, undefine);
      } else {
        base := InheritImported(environ, parent);
      }
      m := AddOwn(base, none);
      forall n ensures m.Lookup(n) == Layered(StatusIn(log, n), StatusIn(parent.log, n), First(environ, n)) <==>
                !(First(environ, n).Some? && Slips(log, parent.log, n))
      {
        LayersExactly(keepParentEnv, importFromParent.contents, undefine.contents, setVars.contents, log,
                      parent.keepParentEnv, parent.importFromParent.contents, parent.undefine.contents, parent.setVars.contents, parent.log,
                      First(environ, n), base.Lookup(n), m.Lookup(n), n);
      }
    }

    // build(): own variables take precedence
    method AddOwn(base: EnvMap, exclude: UnorderedSet<string, string>) returns (m: EnvMap)
      requires Valid() && exclude.Valid() && base.Agrees()
      ensures Over(m, base, setVars.contents, exclude.contents)
    {
      hide UnorderedSet.Valid, Refines, Over, EnvMap.Agrees;
      ghost var all := Concat(setVars.buckets, |setVars.buckets|);
      setVars.Listed();
      m := base;
      OverNone(base, exclude.contents);
      var end, b: nat, i: nat := setVars.Begin();
      ghost var o: nat, done: map<string, string> := 0, map[];
      assert all[..0] == [];
      while !end
        invariant if end then o == |all| else b < |setVars.buckets| && i < |setVars.buckets[b]| && o == Offset(setVars.buckets, b, i)
        invariant o <= |all| && Lists(NameOf, all[..o], done) && Over(m, base, done, exclude.contents)
        decreases |all| - o
      {
        var text := setVars.buckets[b][i];
        ConcatAt(setVars.buckets, b, i, |setVars.buckets|);
        ListedOne(NameOf, all, setVars.contents, done, o);
        OwnAssigned(keepParentEnv, importFromParent.contents, undefine.contents, setVars.contents, log, all, o);
        OverMore(m, base, done, exclude.contents, text);
        var excluded := exclude.Contains(NameOf(text));
        if !excluded {
          m := WithOwn(m, text);
        }
        done := done[NameOf(text) := text];
        end, b, i := setVars.Next(b, i);
        o := o + 1;
      }
      assert all[..o] == all;
      ListedAll(NameOf, all, setVars.contents, done);
    }
  }

  lemma AfterSet(keep: bool, imported: map<string, string>, undefined: map<string, string>, defined: map<string, string>, log: seq<Command>, text: string)
    requires Refines(keep, imported, undefined, defined, log) && IsAssignment(text)
    ensures var n := NameOf(text); Refines(keep, imported - {n}, undefined - {n}, defined[n := text], log + [Set(text)])
  {
    forall n ensures StatusIn(log + [Set(text)], n) == if NameOf(text) == n then Defined(text) else StatusIn(log, n) {
      StatusAfter(log, Set(text), n);
    }
  }

  lemma AfterImport(keep: bool, imported: map<string, string>, undefined: map<string, string>, defined: map<string, string>, log: seq<Command>, name: string)
    requires Refines(keep, imported, undefined, defined, log)
    ensures Refines(keep, if keep || name in imported then imported else imported[name := name], undefined - {name}, defined - {name}, log + [Import(name)])
  {
    forall n ensures StatusIn(log + [Import(name)], n) == if name == n then Inherited else StatusIn(log, n) {
      StatusAfter(log, Import(name), n);
    }
  }

  lemma AfterUnset(keep: bool, imported: map<string, string>, undefined: map<string, string>, defined: map<string, string>, log: seq<Command>, name: string)
    requires Refines(keep, imported, undefined, defined, log)
    ensures Refines(keep, imported - {name}, if keep && name !in undefined then undefined[name := name] else undefined, defined - {name}, log + [Unset(name)])
  {
    forall n ensures StatusIn(log + [Unset(name)], n) == if name == n then Undefined else StatusIn(log, n) {
      StatusAfter(log, Unset(name), n);
    }
  }

  lemma AfterClear(log: seq<Command>)
    ensures Refines(false, map[], map[], map[], log + [Clear])
  {
    forall n ensures StatusIn(log + [Clear], n) == Undefined {
      StatusAfter(log, Clear, n);
    }
  }

  // ---- the mapping ----

  // assignments, and for each name the place of the first to it
  datatype EnvMap = EnvMap(envList: seq<string>, varMap: map<string, nat>) {

    // env_map::lookup(), the assignment rather than the value within it
    function Lookup(name: string): Option<string>
      requires Agrees()
    {
      if name in varMap then Some(envList[varMap[name]]) else None
    }

    predicate Agrees() {
      && (forall n :: n in varMap ==> varMap[n] < |envList| && Assigns(envList[varMap[n]], n))
      && (forall i :: 0 <= i < |envList| ==> var n := NameOf(envList[i]); Assigns(envList[i], n) && n in varMap && varMap[n] <= i)
    }
  }

  // an assignment to a name that already has one is kept, but not found
  function WithParents(m: EnvMap, text: string): EnvMap {
    var n := NameOf(text);
    EnvMap(m.envList + [text], if n in m.varMap then m.varMap else m.varMap[n := |m.envList|])
  }

  function WithOwn(m: EnvMap, text: string): EnvMap {
    var n := NameOf(text);
    if n in m.varMap && m.varMap[n] < |m.envList| then m.(envList := m.envList[m.varMap[n] := text])
    else EnvMap(m.envList + [text], m.varMap[n := |m.envList|])
  }

  lemma WithParentsLooksUp(m: EnvMap, text: string)
    requires m.Agrees() && IsAssignment(text)
    ensures WithParents(m, text).Agrees()
    ensures forall n :: WithParents(m, text).Lookup(n) == if n == NameOf(text) && m.Lookup(n).None? then Some(text) else m.Lookup(n)
  {
    Added(m, text, WithParents(m, text));
  }

  lemma WithOwnLooksUp(m: EnvMap, text: string)
    requires m.Agrees() && IsAssignment(text)
    ensures WithOwn(m, text).Agrees()
    ensures forall n :: WithOwn(m, text).Lookup(n) == if n == NameOf(text) then Some(text) else m.Lookup(n)
  {
    var n := NameOf(text);
    assert Assigns(text, n);
    if n in m.varMap {
      assert m.varMap[n] < |m.envList|;
      Replaced(m, n, text);
    } else {
      Added(m, text, WithOwn(m, text));
    }
  }

  // an assignment is added at the end
  lemma Added(m: EnvMap, text: string, more: EnvMap)
    requires m.Agrees() && IsAssignment(text) && more.envList == m.envList + [text]
    requires var n := NameOf(text); more.varMap == if n in m.varMap then m.varMap else m.varMap[n := |m.envList|]
    ensures more.Agrees()
    ensures forall n :: more.Lookup(n) == if n == NameOf(text) && m.Lookup(n).None? then Some(text) else m.Lookup(n)
  {
    hide NameOf, IsAssignment;
    var name := NameOf(text);
    assert Assigns(text, name);
    hide Assigns;
    forall n | n in more.varMap ensures more.varMap[n] < |more.envList| && Assigns(more.envList[more.varMap[n]], n) {
      if n in m.varMap {
        assert more.envList[m.varMap[n]] == m.envList[m.varMap[n]];
      }
    }
    forall i | 0 <= i < |more.envList|
      ensures var n := NameOf(more.envList[i]); Assigns(more.envList[i], n) && n in more.varMap && more.varMap[n] <= i
    {
      assert i < |m.envList| ==> more.envList[i] == m.envList[i];
    }
  }

  // an assignment takes the place of another to the same name
  lemma Replaced(m: EnvMap, name: string, text: string)
    requires m.Agrees() && name in m.varMap && Assigns(text, name) && m.varMap[name] < |m.envList|
    ensures var r := m.(envList := m.envList[m.varMap[name] := text]);
      && r.Agrees()
      && forall n :: r.Lookup(n) == if n == name then Some(text) else m.Lookup(n)
  {
    var r := m.(envList := m.envList[m.varMap[name] := text]);
    var at := m.varMap[name];
    assert Assigns(m.envList[at], name);
    forall n | n in m.varMap && n != name ensures m.varMap[n] != at {
      assert Assigns(m.envList[m.varMap[n]], n);
    }
    hide NameOf, IsAssignment;
    forall i | 0 <= i < |r.envList| ensures var n := NameOf(r.envList[i]); Assigns(r.envList[i], n) && n in r.varMap && r.varMap[n] <= i {
      assert i != at ==> r.envList[i] == m.envList[i];
    }
  }

  // what the parent gives, in the first k of its variables
  ghost predicate FromParent(m: EnvMap, environ: seq<string>, k: nat, left: map<string, string>, excluded: map<string, string>) {
    && m.Agrees() && k <= |environ|
    && forall n :: m.Lookup(n) == if n in left || n in excluded then None else First(environ[..k], n)
  }

  lemma FromParentNone(m: EnvMap, environ: seq<string>, left: map<string, string>, excluded: map<string, string>)
    requires m == EnvMap([], map[])
    ensures FromParent(m, environ, 0, left, excluded)
  {
  }

  lemma FromParentMore(m: EnvMap, environ: seq<string>, k: nat, left: map<string, string>, excluded: map<string, string>)
    requires FromParent(m, environ, k, left, excluded) && k < |environ|
    ensures var n := NameOf(environ[k]);
      FromParent(if IsAssignment(environ[k]) && n !in left && n !in excluded then WithParents(m, environ[k]) else m, environ, k + 1, left, excluded)
  {
    hide EnvMap.Agrees, EnvMap.Lookup, WithParents, NameOf, IsAssignment, First;
    var name := NameOf(environ[k]);
    var r := if IsAssignment(environ[k]) && name !in left && name !in excluded then WithParents(m, environ[k]) else m;
    if IsAssignment(environ[k]) {
      WithParentsLooksUp(m, environ[k]);
    }
    forall n ensures r.Lookup(n) == if n in left || n in excluded then None else First(environ[..k + 1], n) {
      FirstMore(environ, k, n);
      assert m.Lookup(n) == if n in left || n in excluded then None else First(environ[..k], n);
    }
  }

  // get(), as it goes
  ghost function Got(keep: bool, imported: map<string, string>, defined: map<string, string>, environ: seq<string>, name: string): Option<string> {
    if name in defined then Some(defined[name])
    else if !keep && name !in imported then None
    else First(environ, name)
  }

  // An own variable is found as its commands say, unless it is undefined and the process has it
  lemma GotExactly(keep: bool, im: map<string, string>, un: map<string, string>, de: map<string, string>, log: seq<Command>, environ: seq<string>, n: string)
    requires Refines(keep, im, un, de, log)
    ensures Got(keep, im, de, environ, n) == Layered(StatusIn(log, n), Inherited, First(environ, n)) <==>
              !(Clear !in log && StatusIn(log, n) == Undefined && First(environ, n).Some?)
  {
    assert StatusOf(keep, im, un, de, n) == StatusIn(log, n);
  }

  ghost predicate FromImports(m: EnvMap, names: map<string, string>, keep: bool, imported: map<string, string>, defined: map<string, string>, environ: seq<string>) {
    && m.Agrees() && (forall n :: n in defined ==> Assigns(defined[n], n))
    && forall n :: m.Lookup(n) == if n in names then Got(keep, imported, defined, environ, n) else None
  }

  lemma DefinedAssigns(keep: bool, imported: map<string, string>, undefined: map<string, string>, defined: map<string, string>, log: seq<Command>)
    requires Refines(keep, imported, undefined, defined, log)
    ensures forall n :: n in defined ==> Assigns(defined[n], n)
  {
  }

  lemma NothingListed(key: string -> string)
    ensures Lists(key, [], map[])
  {
  }

  lemma FromImportsNone(m: EnvMap, keep: bool, imported: map<string, string>, defined: map<string, string>, environ: seq<string>)
    requires m == EnvMap([], map[]) && forall n :: n in defined ==> Assigns(defined[n], n)
    ensures FromImports(m, map[], keep, imported, defined, environ)
  {
  }

  lemma FromImportsMore(m: EnvMap, names: map<string, string>, keep: bool, imported: map<string, string>, defined: map<string, string>, environ: seq<string>, name: string)
    requires FromImports(m, names, keep, imported, defined, environ) && name !in names
    ensures var r := Got(keep, imported, defined, environ, name);
      FromImports(if r.Some? then WithParents(m, r.value) else m, names[name := name], keep, imported, defined, environ)
  {
    hide EnvMap.Agrees, EnvMap.Lookup, WithParents, First, IsAssignment, NameOf;
    FirstIs(environ, name);
    var r := Got(keep, imported, defined, environ, name);
    if r.Some? {
      assert Assigns(r.value, name);
      WithParentsLooksUp(m, r.value);
    }
    var after := if r.Some? then WithParents(m, r.value) else m;
    assert m.Lookup(name) == None;
    forall n ensures after.Lookup(n) == if n in names[name := name] then Got(keep, imported, defined, environ, n) else None {
      assert m.Lookup(n) == if n in names then Got(keep, imported, defined, environ, n) else None;
    }
  }

  // what an environment ought to give over a parent, over the environment of the process
  function Layered(own: Status, parents: Status, process: Option<string>): Option<string> {
    match own
    case Defined(text) => Some(text)
    case Undefined => None
    case Inherited =>
      match parents
      case Defined(text) => Some(text)
      case Undefined => None
      case Inherited => process
  }

  // what build() gives, with some names excluded: a name that is imported one by one is not
  function BuiltFor(log: seq<Command>, process: Option<string>, excluded: bool, n: string): Option<string> {
    if !excluded then Layered(StatusIn(log, n), Inherited, process)
    else if Clear in log && StatusIn(log, n) == Inherited then process else None
  }

  // One of the two environments is selective and imports a name, and the other undefines it
  predicate Slips(log: seq<Command>, parentLog: seq<Command>, n: string) {
    || (Clear !in log && StatusIn(log, n) == Undefined && Clear in parentLog && StatusIn(parentLog, n) == Inherited)
    || (Clear in log && StatusIn(log, n) == Inherited && Clear !in parentLog && StatusIn(parentLog, n) == Undefined)
  }

  lemma LayersExactly(keep: bool, im: map<string, string>, un: map<string, string>, de: map<string, string>, log: seq<Command>,
                      pkeep: bool, pim: map<string, string>, pun: map<string, string>, pde: map<string, string>, plog: seq<Command>,
                      process: Option<string>, base: Option<string>, found: Option<string>, n: string)
    requires Refines(keep, im, un, de, log) && Refines(pkeep, pim, pun, pde, plog)
    requires found == if n in de then Some(de[n]) else base
    requires base ==
      if keep then BuiltFor(plog, process, n in un, n)
      else if n !in im then None
      else if n in pde then Some(pde[n])
      else if !pkeep && n !in pim then None
      else process
    ensures found == Layered(StatusIn(log, n), StatusIn(plog, n), process) <==> !(process.Some? && Slips(log, plog, n))
  {
    assert StatusOf(keep, im, un, de, n) == StatusIn(log, n);
    assert StatusOf(pkeep, pim, pun, pde, n) == StatusIn(plog, n);
  }

  // Both ways for a name to slip through: undefined over a parent that imports it, and imported from one that undefines it
  lemma SlipsExample(text: string)
    requires IsAssignment(text)
    ensures var n := NameOf(text);
      && Slips([Unset(n)], [Clear, Import(n)], n) && Layered(StatusIn([Unset(n)], n), StatusIn([Clear, Import(n)], n), Some(text)) == None
      && Slips([Clear, Import(n)], [Unset(n)], n) && Layered(StatusIn([Clear, Import(n)], n), StatusIn([Unset(n)], n), Some(text)) == None
      && First([text], n) == Some(text)
  {
    var n := NameOf(text);
    LastDecides([Unset(n)], n, 1);
    LastDecides([Clear, Import(n)], n, 2);
    assert [text][..0] == [] && First([], n) == None;
  }

  // An environment on its own gives what its commands say
  lemma BuiltExactly(keep: bool, im: map<string, string>, un: map<string, string>, de: map<string, string>, log: seq<Command>,
                     process: Option<string>, excluded: bool, n: string)
    requires Refines(keep, im, un, de, log)
    ensures BuiltFor(log, process, excluded, n) ==
      if n in de && !excluded then Some(de[n])
      else if keep then (if n in un || excluded then None else process)
      else if n in im then process else None
  {
    assert StatusOf(keep, im, un, de, n) == StatusIn(log, n);
  }

  // the mapping with own variables over what the parent gives
  ghost predicate Over(m: EnvMap, base: EnvMap, own: map<string, string>, excluded: map<string, string>) {
    && m.Agrees() && base.Agrees()
    && forall n :: m.Lookup(n) == if n in own && n !in excluded then Some(own[n]) else base.Lookup(n)
  }

  lemma OverNone(base: EnvMap, excluded: map<string, string>)
    requires base.Agrees()
    ensures Over(base, base, map[], excluded)
  {
  }

  lemma OverMore(m: EnvMap, base: EnvMap, own: map<string, string>, excluded: map<string, string>, text: string)
    requires Over(m, base, own, excluded) && IsAssignment(text)
    ensures var n := NameOf(text); Over(if n in excluded then m else WithOwn(m, text), base, own[n := text], excluded)
  {
    hide EnvMap.Agrees, EnvMap.Lookup, WithOwn, NameOf, IsAssignment;
    WithOwnLooksUp(m, text);
    var name := NameOf(text);
    var r := if name in excluded then m else WithOwn(m, text);
    forall n ensures r.Lookup(n) == if n in own[name := text] && n !in excluded then Some(own[name := text][n]) else base.Lookup(n) {
      assert m.Lookup(n) == if n in own && n !in excluded then Some(own[n]) else base.Lookup(n);
    }
  }

  lemma OwnAssigned(keep: bool, imported: map<string, string>, undefined: map<string, string>, defined: map<string, string>, log: seq<Command>, all: seq<string>, i: nat)
    requires Refines(keep, imported, undefined, defined, log) && Lists(NameOf, all, defined) && i < |all|
    ensures IsAssignment(all[i])
  {
    assert Keeps(NameOf, defined, all[i]);
  }

  lemma {:induction false} FirstStays(environ: seq<string>, k: nat, n: string)
    requires k <= |environ| && First(environ[..k], n).Some?
    ensures First(environ, n) == First(environ[..k], n)
    decreases |environ|
  {
    if k == |environ| {
      assert environ[..k] == environ;
    } else {
      var before := environ[..|environ| - 1];
      assert before[..k] == environ[..k];
      FirstStays(before, k, n);
    }
  }

  lemma FirstMore(environ: seq<string>, k: nat, n: string)
    requires k < |environ|
    ensures First(environ[..k + 1], n) ==
      if First(environ[..k], n).Some? then First(environ[..k], n)
      else if Assigns(environ[k], n) then Some(environ[k]) else None
  {
    assert environ[..k + 1][..k] == environ[..k];
  }

  lemma {:induction false} FirstIs(environ: seq<string>, n: string)
    ensures First(environ, n).Some? ==> Assigns(First(environ, n).value, n)
  {
    if environ != [] {
      FirstIs(environ[..|environ| - 1], n);
    }
  }
}
