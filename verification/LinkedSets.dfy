// A set that keeps the order in which its elements were added.
module LinkedSets {
  import opened UnorderedSets

  class LinkedRecord<K> {
    const value: K
    var next: LinkedRecord?<K>

    constructor (value: K)
      ensures this.value == value && next == null
    {
      this.value, next := value, null;
    }
  }

  function ValueOf<K>(r: LinkedRecord<K>): K {
    r.value
  }

  class LinkedSet<K(==)> {
    const backing: UnorderedSet<LinkedRecord<K>, K>
    var first: LinkedRecord?<K>
    var last: LinkedRecord?<K>
    ghost var order: seq<LinkedRecord<K>>
    ghost var Repr: set<object>

    ghost predicate Valid()
      reads this, Repr
    {
      && this in Repr && backing in Repr && (forall i :: 0 <= i < |order| ==> order[i] in Repr)
      && backing.Valid() && backing.key == ValueOf<K>
      && (order == [] <==> first == null) && (order == [] <==> last == null)
      && (order != [] ==> first == order[0] && last == order[|order| - 1] && last.next == null)
      && (forall i :: 0 <= i < |order| - 1 ==> order[i].next == order[i + 1])
      && Lists(ValueOf<K>, order, backing.contents)
    }

    // the elements, in the order in which they were added
    ghost function Values(): (r: seq<K>)
      reads this
      ensures |r| == |order|
    {
      seq(|order|, i requires 0 <= i < |order| reads this => order[i].value)
    }

    constructor (hash: K -> nat, maxBuckets: nat)
      requires 4 <= maxBuckets
      ensures Valid() && fresh(Repr) && Values() == []
    {
      backing := new UnorderedSet(hash, ValueOf<K>, maxBuckets);
      first, last, order := null, null, [];
      Repr := {this, backing};
    }

    method AddBack(value: K) returns (added: bool)
      requires Valid()
      modifies Repr
      ensures Valid() && fresh(Repr - old(Repr)) && added == (value !in old(Values()))
      ensures Values() == if added then old(Values()) + [value] else old(Values())
      ensures old(order) <= order
    {
      hide Lists, UnorderedSet.Valid;
      var record := new LinkedRecord(value);
      var b, i;
      label before:
      InOrder(order, backing.contents, Values(), value);
      added, b, i := backing.Insert(record);
      if added {
        var entry := backing.buckets[b][i];
        Appended(order, old@before(backing.contents), record);
        if last != null {
          last.next := entry;
        }
        last := entry;
        if first == null {
          first := entry;
        }
        order := order + [record];
        Repr := Repr + {record};
      }
    }

    // iteration starts at first, and follows the links
    lemma NextIs(i: nat)
      requires Valid() && i < |order|
      ensures order[i].next == if i + 1 < |order| then order[i + 1] else null
      ensures order[i].value == Values()[i]
    {
    }

    lemma FirstIs()
      requires Valid()
      ensures first == if order == [] then null else order[0]
    {
    }

    // every value is there once
    lemma ValuesOnce()
      requires Valid()
      ensures forall i, j :: 0 <= i < j < |order| ==> Values()[i] != Values()[j]
    {
      assert forall i :: 0 <= i < |order| ==> Values()[i] == ValueOf(order[i]);
    }
  }

  lemma InOrder<K>(order: seq<LinkedRecord<K>>, contents: map<K, LinkedRecord<K>>, values: seq<K>, value: K)
    requires Lists(ValueOf<K>, order, contents) && |values| == |order|
    requires forall i :: 0 <= i < |order| ==> values[i] == order[i].value
    ensures value in contents <==> value in values
  {
    if value in contents {
      var i :| 0 <= i < |order| && order[i] == contents[value];
      assert values[i] == value;
    }
    if i :| 0 <= i < |order| && values[i] == value {
      assert Keeps(ValueOf<K>, contents, order[i]);
    }
  }

  lemma Appended<K>(order: seq<LinkedRecord<K>>, contents: map<K, LinkedRecord<K>>, r: LinkedRecord<K>)
    requires Lists(ValueOf<K>, order, contents) && r.value !in contents
    ensures Lists(ValueOf<K>, order + [r], contents[r.value := r])
  {
    var more, after := order + [r], contents[r.value := r];
    forall i | 0 <= i < |more| ensures Keeps(ValueOf<K>, after, more[i]) {
      if i < |order| {
        assert Keeps(ValueOf<K>, contents, order[i]);
      }
    }
    forall i, j | 0 <= i < j < |more| ensures ValueOf(more[i]) != ValueOf(more[j]) {
      assert Keeps(ValueOf<K>, contents, order[i]);
    }
    forall k | k in after ensures after[k] in more {
      if k == r.value {
        assert more[|order|] == r;
      } else {
        var i :| 0 <= i < |order| && order[i] == contents[k];
        assert more[i] == contents[k];
      }
    }
  }
}
