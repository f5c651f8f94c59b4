// The numbers by which a control connection's client refers to services.
module ServiceHandles {
  import opened Wrappers

  // a service record, told apart from others by its place
  type Service = nat

  // in the order of an ordered map's iteration
  ghost predicate Ascending(keys: seq<nat>) {
    forall i, j :: 0 <= i < j < |keys| ==> keys[i] < keys[j]
  }

  ghost predicate Distinct(keys: seq<nat>) {
    forall i, j :: 0 <= i < j < |keys| ==> keys[i] != keys[j]
  }

  // the second table is the first one turned round
  ghost predicate Inverse(services: map<nat, Service>, handles: map<Service, seq<nat>>) {
    && (forall h :: h in services ==> services[h] in handles && h in handles[services[h]])
    && (forall s, h :: s in handles && h in handles[s] ==> h in services && services[h] == s)
    && (forall s :: s in handles ==> handles[s] != [] && Distinct(handles[s]))
  }

  function Without(keys: seq<nat>, i: nat): seq<nat>
    requires i < |keys|
  {
    keys[..i] + keys[i + 1..]
  }

  function Inserted(keys: seq<nat>, i: nat, key: nat): seq<nat>
    requires i <= |keys|
  {
    keys[..i] + [key] + keys[i..]
  }

  class Handles {
    var keyServiceMap: map<nat, Service>
    // its keys, in ascending order
    var keys: seq<nat>
    // a service may have more than one handle
    var serviceKeyMap: map<Service, seq<nat>>
    // the services that the connection is a listener of
    var listening: set<Service>

    ghost predicate Valid()
      reads this
    {
      && Ascending(keys) && (forall h :: h in keys <==> h in keyServiceMap)
      && Inverse(keyServiceMap, serviceKeyMap)
      && (forall s :: s in listening <==> s in serviceKeyMap)
    }

    constructor ()
      ensures Valid() && keyServiceMap == map[] && listening == {}
    {
      keyServiceMap, keys, serviceKeyMap, listening := map[], [], map[], {};
    }

    method FindServiceForKey(key: nat) returns (r: Option<Service>)
      requires Valid()
      ensures r.Some? <==> key in keyServiceMap
      ensures r.Some? ==> r.value == keyServiceMap[key] && r.value in listening
    {
      r := if key in keyServiceMap then Some(keyServiceMap[key]) else None;
    }

    // allocate_service_handle()
    method Allocate(service: Service) returns (candidate: nat)
      requires Valid()
      modifies this
      ensures Valid()
      ensures candidate !in old(keyServiceMap) && forall k: nat :: k < candidate ==> k in old(keyServiceMap)
      ensures keyServiceMap == old(keyServiceMap)[candidate := service]
      ensures listening == old(listening) + {service}
    {
      hide Inverse, Ascending, Inserted;
      candidate := FirstGap();
      var isUnique := service !in serviceKeyMap;
      if isUnique {
        listening := listening + {service};
      }
      var others := if isUnique then [] else serviceKeyMap[service];
      InsertedInverse(keyServiceMap, serviceKeyMap, service, candidate, others);
      InsertedAscending(keys, candidate);
      keyServiceMap := keyServiceMap[candidate := service];
      keys := Inserted(keys, candidate, candidate);
      serviceKeyMap := serviceKeyMap[service := others + [candidate]];
    }

    // the smallest number that is not a key, which is also where it belongs among the keys
    method FirstGap() returns (candidate: nat)
      requires Valid()
      ensures candidate <= |keys| && candidate !in keyServiceMap
      ensures forall k: nat :: k < candidate ==> keys[k] == k && k in keyServiceMap
    {
      candidate := 0;
      var i := 0;
      while i < |keys|
        invariant i <= |keys| && candidate == i
        invariant forall k :: 0 <= k < i ==> keys[k] == k
      {
        if keys[i] != candidate {
          break;
        }
        candidate := candidate + 1;
        i := i + 1;
      }
      GapFound(keys, candidate);
      forall k: nat | k < candidate ensures keys[k] == k && k in keyServiceMap {
        assert keys[k] in keys;
      }
    }

    // process_close_handle(): whether there is such a handle
    method Close(handle: nat) returns (ok: bool)
      requires Valid()
      modifies this
      ensures Valid()
      ensures ok <==> handle in old(keyServiceMap)
      ensures keyServiceMap == old(keyServiceMap) - {handle}
      ensures forall s :: s in listening <==> s in keyServiceMap.Values
    {
      hide Inverse, Ascending, Without;
      if handle !in keyServiceMap {
        assert keyServiceMap == keyServiceMap - {handle};
        ListenedTo(keyServiceMap, serviceKeyMap);
        return false;
      }
      HasHandle(keyServiceMap, serviceKeyMap, handle);
      var service := keyServiceMap[handle];
      var k := IndexOf(keys, handle);
      WithoutAscending(keys, k);
      var range := serviceKeyMap[service];
      var it := IndexOf(range, handle);
      var haveOtherHandle := it != 0;
      if !haveOtherHandle {
        haveOtherHandle := it + 1 != |range|;
      }
      ClosedInverse(keyServiceMap, serviceKeyMap, handle, it);
      keyServiceMap := keyServiceMap - {handle};
      keys := Without(keys, k);
      if haveOtherHandle {
        serviceKeyMap := serviceKeyMap[service := Without(range, it)];
      } else {
        serviceKeyMap := serviceKeyMap - {service};
        listening := listening - {service};
      }
      ListenedTo(keyServiceMap, serviceKeyMap);
      ok := true;
    }

    static method IndexOf(range: seq<nat>, handle: nat) returns (it: nat)
      requires handle in range
      ensures it < |range| && range[it] == handle
    {
      it := 0;
      while range[it] != handle
        invariant it < |range| && handle in range[it..]
        decreases |range| - it
      {
        it := it + 1;
      }
    }
  }

  // ---- the tables ----

  lemma GapFound(keys: seq<nat>, c: nat)
    requires Ascending(keys) && c <= |keys| && (forall k :: 0 <= k < c ==> keys[k] == k)
    requires c < |keys| ==> keys[c] != c
    ensures c !in keys
  {
    if c in keys {
      var i: nat :| i < |keys| && keys[i] == c;
      assert i >= c;
      Grows(keys, c, i);
    }
  }

  // ascending numbers are at least as large as their indices
  lemma {:induction false} Grows(keys: seq<nat>, c: nat, i: nat)
    requires Ascending(keys) && c <= i < |keys| && keys[c] != c && (forall k :: 0 <= k < c ==> keys[k] == k)
    ensures keys[i] > c
  {
    if c > 0 {
      assert keys[c - 1] < keys[c];
    }
    if i > c {
      assert keys[c] < keys[i];
    }
  }

  lemma InsertedAscending(keys: seq<nat>, c: nat)
    requires Ascending(keys) && c <= |keys| && c !in keys && (forall k :: 0 <= k < c ==> keys[k] == k)
    ensures Ascending(Inserted(keys, c, c)) && forall h :: h in Inserted(keys, c, c) <==> h in keys || h == c
  {
    forall i | c <= i < |keys| ensures keys[i] > c {
      assert keys[c] in keys;
      Grows(keys, c, i);
    }
    assert keys == keys[..c] + keys[c..];
  }

  lemma WithoutAscending(keys: seq<nat>, i: nat)
    requires Ascending(keys) && i < |keys|
    ensures Ascending(Without(keys, i)) && forall h :: h in Without(keys, i) <==> h in keys && h != keys[i]
  {
    WithoutKeeps(keys, i);
  }

  lemma WithoutKeeps(keys: seq<nat>, i: nat)
    requires Distinct(keys) && i < |keys|
    ensures Distinct(Without(keys, i)) && forall h :: h in Without(keys, i) <==> h in keys && h != keys[i]
  {
    assert keys == keys[..i] + [keys[i]] + keys[i + 1..];
  }

  lemma HasHandle(services: map<nat, Service>, handles: map<Service, seq<nat>>, handle: nat)
    requires Inverse(services, handles) && handle in services
    ensures services[handle] in handles && handle in handles[services[handle]]
  {
  }

  lemma InsertedInverse(services: map<nat, Service>, handles: map<Service, seq<nat>>, service: Service, c: nat, others: seq<nat>)
    requires Inverse(services, handles) && c !in services
    requires others == if service in handles then handles[service] else []
    ensures Inverse(services[c := service], handles[service := others + [c]])
  {
  }

  lemma ClosedInverse(services: map<nat, Service>, handles: map<Service, seq<nat>>, handle: nat, it: nat)
    requires Inverse(services, handles) && handle in services
    requires it < |handles[services[handle]]| && handles[services[handle]][it] == handle
    ensures var s := services[handle];
            var range := handles[s];
            Inverse(services - {handle}, if |range| > 1 then handles[s := Without(range, it)] else handles - {s})
  {
    var range := handles[services[handle]];
    WithoutKeeps(range, it);
    if |range| == 1 {
      assert range == [handle];
    }
  }

  // A service is among the keys of the second table exactly if it has a handle
  lemma ListenedTo(services: map<nat, Service>, handles: map<Service, seq<nat>>)
    requires Inverse(services, handles)
    ensures forall s :: s in handles <==> s in services.Values
  {
    forall s | s in handles ensures s in services.Values {
      var h := handles[s][0];
      assert h in services && services[h] == s;
    }
  }
}
