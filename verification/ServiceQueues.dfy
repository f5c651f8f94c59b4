// The queues of a service set: stacks, linked through the records themselves.
module ServiceQueues {
  import opened Wrappers

  ghost predicate Distinct(s: seq<nat>) {
    forall i, j :: 0 <= i < j < |s| ==> s[i] != s[j]
  }

  function Count(s: seq<nat>, e: nat): nat {
    if s == [] then 0 else (if s[0] == e then 1 else 0) + Count(s[1..], e)
  }

  // all but the last
  function Early(s: seq<nat>): seq<nat> {
    if s == [] then [] else s[..|s| - 1]
  }

  // A service is linked once, but the one that comes out last may come out earlier as well: the list is then circular,
  // until it does and its link is cleared
  ghost predicate Linked(first: Option<nat>, next: seq<Option<nat>>, turns: seq<nat>) {
    && first == (if turns == [] then None else Some(turns[0]))
    && (forall i :: 0 <= i < |turns| ==> turns[i] < |next|)
    && Distinct(Early(turns))
    && (forall i, j :: 0 <= i && j == i + 1 && j < |turns| ==> next[turns[i]] == Some(turns[j]))
    && (forall e :: 0 <= e < |next| ==> (next[e].Some? <==> e in Early(turns)))
  }

  lemma Pushed(first: Option<nat>, next: seq<Option<nat>>, turns: seq<nat>, e: nat)
    requires Linked(first, next, turns) && e < |next| && next[e] == None
    ensures Linked(Some(e), next[e := first], [e] + turns)
  {
    var t := [e] + turns;
    if turns != [] {
      assert Early(t) == [e] + Early(turns);
      forall i, j | 0 <= i && j == i + 1 && j < |t| ensures next[e := first][t[i]] == Some(t[j]) {
        if i > 0 {
          assert t[i] == turns[i - 1] == Early(turns)[i - 1] && t[j] == turns[j - 1];
        }
      }
    }
  }

  lemma EarlyWithout(turns: seq<nat>)
    requires |turns| > 1 && Distinct(Early(turns))
    ensures Early(turns) == [turns[0]] + Early(turns[1..]) && Distinct(Early(turns[1..])) && turns[0] !in Early(turns[1..])
  {
    var early := Early(turns[1..]);
    assert Early(turns) == [turns[0]] + early;
    forall i, j | 0 <= i < j < |early| ensures early[i] != early[j] {
      assert Early(turns)[i + 1] != Early(turns)[j + 1];
    }
    forall i | 0 <= i < |early| ensures early[i] != turns[0] {
      assert Early(turns)[0] != Early(turns)[i + 1];
    }
  }

  lemma EarlyAt(turns: seq<nat>, i: nat)
    requires i < |turns| - 1
    ensures i < |Early(turns)| && Early(turns)[i] == turns[i]
  {
  }

  lemma Popped(first: Option<nat>, next: seq<Option<nat>>, turns: seq<nat>)
    requires Linked(first, next, turns) && turns != []
    ensures Linked(next[turns[0]], next[turns[0] := None], turns[1..])
  {
    hide Early, Distinct;
    var e, t := turns[0], turns[1..];
    if t == [] {
      EarlyNone(turns);
      EarlyNone(t);
    } else {
      EarlyWithout(turns);
      forall i, j | 0 <= i && j == i + 1 && j < |t| ensures next[e := None][t[i]] == Some(t[j]) {
        EarlyAt(t, i);
        assert t[i] == turns[i + 1] && t[j] == turns[j + 1];
      }
    }
  }

  lemma EarlyNone(turns: seq<nat>)
    requires |turns| < 2
    ensures Early(turns) == [] && Distinct(Early(turns))
  {
  }

  class Queue {
    var first: Option<nat>
    // the link in each record
    var next: seq<Option<nat>>
    // the services in the order in which they come out
    ghost var turns: seq<nat>

    ghost predicate Valid()
      reads this
    {
      Linked(first, next, turns)
    }

    constructor (n: nat)
      ensures Valid() && |next| == n && turns == []
    {
      first, next, turns := None, seq(n, i => None), [];
    }

    // is_queued(): does not see the last service, unless it is the only one, or comes out earlier as well
    method IsQueued(e: nat) returns (queued: bool)
      requires Valid() && e < |next|
      ensures queued <==> turns == [e] || e in Early(turns)
      ensures queued <==> next[e].Some? || first == Some(e)
    {
      queued := next[e].Some? || first == Some(e);
      if first == Some(e) && turns != [e] {
        assert Early(turns)[0] == e;
      }
    }

    method Insert(e: nat)
      requires Valid() && e < |next| && next[e] == None
      modifies this
      ensures Valid() && |next| == old(|next|) && turns == [e] + old(turns)
    {
      Pushed(first, next, turns, e);
      next := next[e := first];
      first := Some(e);
      turns := [e] + turns;
    }

    method PopFront() returns (e: nat)
      requires Valid() && turns != []
      modifies this
      ensures Valid() && |next| == old(|next|) && e == old(turns)[0] && turns == old(turns)[1..]
    {
      Popped(first, next, turns);
      e := first.value;
      first := next[e];
      next := next[e := None];
      turns := turns[1..];
    }

    // add_prop_queue(), add_transition_queue(): the service has a turn; a second one exactly if it was to come out last,
    // behind others, and not before
    method Add(e: nat)
      requires Valid() && e < |next|
      modifies this
      ensures Valid() && |next| == old(|next|) && e in turns
      ensures turns == old(turns) || turns == [e] + old(turns)
      ensures e !in old(turns) ==> turns == [e] + old(turns)
      ensures e in old(turns) ==> (turns == [e] + old(turns) <==> old(turns) != [e] && e !in Early(old(turns)))
    {
      var queued := IsQueued(e);
      if !queued {
        Insert(e);
      }
    }

    // No service has more than two turns, and the last alone may have two
    lemma TwoTurnsAtMost(e: nat)
      requires Valid()
      ensures Count(turns, e) <= 2
      ensures Count(turns, e) == 2 ==> e == turns[|turns| - 1]
    {
      if turns != [] {
        var last := turns[|turns| - 1];
        assert turns == Early(turns) + [last];
        CountSplit(Early(turns), [last], e);
        CountDistinct(Early(turns), e);
        assert [last][1..] == [];
      }
    }
  }

  lemma {:induction false} CountSplit(a: seq<nat>, b: seq<nat>, e: nat)
    ensures Count(a + b, e) == Count(a, e) + Count(b, e)
  {
    if a == [] {
      assert a + b == b;
    } else {
      assert (a + b)[1..] == a[1..] + b;
      CountSplit(a[1..], b, e);
    }
  }

  lemma {:induction false} CountDistinct(s: seq<nat>, e: nat)
    requires Distinct(s)
    ensures Count(s, e) == if e in s then 1 else 0
  {
    if s != [] {
      CountDistinct(s[1..], e);
      assert forall i :: 0 < i < |s| ==> s[i] == s[1..][i - 1];
    }
  }

  // two services are queued, and the lower one is queued again: it comes out before the other and after it
  method QueueTwice() returns (order: seq<nat>)
    ensures order == [0, 1, 0]
  {
    var queue := new Queue(2);
    queue.Add(0);
    queue.Add(1);
    queue.Add(0);
    var a := queue.PopFront();
    var b := queue.PopFront();
    var c := queue.PopFront();
    order := [a, b, c];
  }
}
