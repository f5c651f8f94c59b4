// The lock under which threads poll for events, or keep others from doing so.
module PollLocks {
  import opened WaitQueues

  // Attention is asked for to change what is watched; a poller waits behind all that do
  datatype Kind = Attention | Poller

  datatype Phase = Asking(kind: Kind) | Holding(kind: Kind)

  datatype State<T> = State(attn: seq<T>, wait: seq<T>, polling: bool, interrupted: bool, phase: map<T, Phase>)

  ghost predicate Distinct<T>(q: seq<T>) {
    forall i, j :: 0 <= i < j < |q| ==> q[i] != q[j]
  }

  ghost predicate Apart<T>(p: seq<T>, q: seq<T>) {
    forall i, j :: 0 <= i < |p| && 0 <= j < |q| ==> p[i] != q[j]
  }

  ghost predicate Invariant<T>(s: State<T>) {
    && Distinct(s.attn) && Distinct(s.wait) && Apart(s.attn, s.wait)
    && (forall t :: t in s.phase ==> t in s.attn || t in s.wait)
    && (forall i :: 0 <= i < |s.attn| ==> s.attn[i] in s.phase) && (forall i :: 0 <= i < |s.wait| ==> s.wait[i] in s.phase)
    // only the head of the queue can hold the lock, and only there is a poller
    && (forall i :: 1 <= i < |s.attn| ==> s.phase[s.attn[i]] == Asking(Attention))
    && (forall i :: 0 <= i < |s.wait| ==> s.phase[s.wait[i]] == Asking(Poller))
    && (s.attn == [] ==> s.wait == [])
    && (s.polling <==> s.attn != [] && s.phase[s.attn[0]].kind == Poller)
    && (s.polling && |s.attn| > 1 ==> s.interrupted)
  }

  // ---- the critical sections of the threads ----

  datatype Step<T> = AskAttention(t: T) | TryAttention(t: T) | AskPoll(t: T) | Resume(t: T) | Release(t: T)

  ghost predicate Enabled<T>(s: State<T>, a: Step<T>) {
    match a
    case Resume(t) => t in s.phase && s.phase[t].Asking?
    case Release(t) => t in s.phase && s.phase[t].Holding?
    case _ => a.t !in s.phase
  }

  // Whoever finds itself at the head holds the lock
  ghost function Checked<T>(s: State<T>, t: T, kind: Kind): State<T> {
    if s.attn != [] && s.attn[0] == t then s.(phase := s.phase[t := Holding(kind)]) else s.(phase := s.phase[t := Asking(kind)])
  }

  ghost function After<T>(s: State<T>, a: Step<T>): State<T>
    requires Enabled(s, a) && Invariant(s)
  {
    match a
    case AskAttention(t) =>
      Checked(s.(attn := s.attn + [t], interrupted := s.interrupted || (s.polling && |s.attn| == 1)), t, Attention)
    case TryAttention(t) =>
      if s.polling then s else Checked(s.(attn := s.attn + [t]), t, Attention)
    case AskPoll(t) =>
      if s.attn == [] then Checked(s.(attn := [t], polling := true, interrupted := false), t, Poller)
      else Checked(s.(wait := s.wait + [t]), t, Poller)
    case Resume(t) =>
      Checked(s, t, s.phase[t].kind)
    case Release(t) =>
      var rest := s.(attn := s.attn[1..], phase := s.phase - {t});
      if |s.attn| > 1 || s.wait == [] then rest.(polling := false)
      else rest.(attn := [s.wait[0]], wait := s.wait[1..], polling := true, interrupted := false)
  }

  lemma HolderIsHead<T>(s: State<T>, t: T)
    requires Invariant(s) && t in s.phase && s.phase[t].Holding?
    ensures s.attn != [] && s.attn[0] == t
  {
  }

  // No two threads hold the lock
  lemma OneHolder<T>(s: State<T>, t: T, u: T)
    requires Invariant(s) && t in s.phase && s.phase[t].Holding? && u in s.phase && s.phase[u].Holding?
    ensures t == u
  {
    HolderIsHead(s, t);
    HolderIsHead(s, u);
  }

  lemma CheckedInvariant<T>(s: State<T>, t: T, kind: Kind)
    requires Invariant(s) && t in s.phase && s.phase[t].kind == kind
    ensures Invariant(Checked(s, t, kind)) || (s.phase[t].Holding? && (s.attn == [] || s.attn[0] != t))
  {
  }

  lemma QueuedInvariant<T>(s: State<T>, t: T)
    requires Invariant(s) && t !in s.phase
    ensures var r := s.(attn := s.attn + [t], phase := s.phase[t := Asking(Attention)], interrupted := s.interrupted || (s.polling && |s.attn| == 1));
      Invariant(r)
    ensures !s.polling ==> Invariant(s.(attn := s.attn + [t], phase := s.phase[t := Asking(Attention)]))
  {
  }

  lemma PollInvariant<T>(s: State<T>, t: T)
    requires Invariant(s) && t !in s.phase
    ensures s.attn == [] ==> Invariant(s.(attn := [t], polling := true, interrupted := false, phase := s.phase[t := Asking(Poller)]))
    ensures s.attn != [] ==> Invariant(s.(wait := s.wait + [t], phase := s.phase[t := Asking(Poller)]))
  {
  }

  // the attention requester behind the holder is next
  lemma NextInvariant<T>(s: State<T>)
    requires Invariant(s) && |s.attn| > 1
    ensures Invariant(s.(attn := s.attn[1..], phase := s.phase - {s.attn[0]}, polling := false))
  {
    var rest, phase := s.attn[1..], s.phase - {s.attn[0]};
    assert forall i :: 0 <= i < |rest| ==> rest[i] == s.attn[i + 1];
    forall i | 0 <= i < |rest| ensures rest[i] in phase && phase[rest[i]] == Asking(Attention) {
      assert s.phase[s.attn[i + 1]] == Asking(Attention);
    }
  }

  // with no attention requester, the first poller waiting is next
  lemma NextPollerInvariant<T>(s: State<T>)
    requires Invariant(s) && |s.attn| == 1
    ensures s.wait == [] ==> Invariant(s.(attn := s.attn[1..], phase := s.phase - {s.attn[0]}, polling := false))
    ensures s.wait != [] ==> Invariant(s.(attn := [s.wait[0]], wait := s.wait[1..], phase := s.phase - {s.attn[0]}, polling := true, interrupted := false))
  {
    if s.wait != [] {
      var rest := s.wait[1..];
      assert forall i :: 0 <= i < |rest| ==> rest[i] == s.wait[i + 1];
    }
  }

  lemma CheckedTwice<T>(s: State<T>, t: T, kind: Kind, p: Phase)
    ensures Checked(s.(phase := s.phase[t := p]), t, kind) == Checked(s, t, kind)
  {
    assert s.phase[t := p][t := Holding(kind)] == s.phase[t := Holding(kind)];
    assert s.phase[t := p][t := Asking(kind)] == s.phase[t := Asking(kind)];
  }

  // t, asking and in a queue, finds out whether it is at the head
  lemma AskedInvariant<T>(s: State<T>, t: T, kind: Kind)
    requires Invariant(s.(phase := s.phase[t := Asking(kind)]))
    ensures Invariant(Checked(s, t, kind))
  {
    CheckedTwice(s, t, kind, Asking(kind));
    CheckedInvariant(s.(phase := s.phase[t := Asking(kind)]), t, kind);
  }

  // Every step of every thread keeps the invariant
  lemma AfterInvariant<T>(s: State<T>, a: Step<T>)
    requires Enabled(s, a) && Invariant(s)
    ensures Invariant(After(s, a))
  {
    hide Invariant, Checked;
    match a
    case AskAttention(t) =>
      QueuedInvariant(s, t);
      AskedInvariant(s.(attn := s.attn + [t], interrupted := s.interrupted || (s.polling && |s.attn| == 1)), t, Attention);
    case TryAttention(t) =>
      QueuedInvariant(s, t);
      if !s.polling {
        AskedInvariant(s.(attn := s.attn + [t]), t, Attention);
      }
    case AskPoll(t) =>
      PollInvariant(s, t);
      AskedInvariant(if s.attn == [] then s.(attn := [t], polling := true, interrupted := false) else s.(wait := s.wait + [t]), t, Poller);
    case Resume(t) =>
      ResumeInvariant(s, t);
    case Release(t) =>
      HolderIsHead(s, t);
      if |s.attn| > 1 {
        NextInvariant(s);
      } else {
        NextPollerInvariant(s);
      }
  }

  lemma ResumeInvariant<T>(s: State<T>, t: T)
    requires Invariant(s) && t in s.phase && s.phase[t].Asking?
    ensures Invariant(Checked(s, t, s.phase[t].kind))
  {
    CheckedInvariant(s, t, s.phase[t].kind);
  }

  // ---- any run of any threads ----

  // the steps taken one after another; those that are not enabled are not taken
  ghost function Outcome<T>(s: State<T>, run: seq<Step<T>>): State<T>
    requires Invariant(s)
    decreases |run|
  {
    if run == [] then s
    else
      AfterAny(s, run[0]);
      Outcome(AfterOrSame(s, run[0]), run[1..])
  }

  ghost function AfterOrSame<T>(s: State<T>, a: Step<T>): State<T>
    requires Invariant(s)
  {
    if Enabled(s, a) then After(s, a) else s
  }

  lemma AfterAny<T>(s: State<T>, a: Step<T>)
    requires Invariant(s)
    ensures Invariant(AfterOrSame(s, a))
  {
    if Enabled(s, a) {
      AfterInvariant(s, a);
    }
  }

  // how often the lock is released
  ghost function Releases<T>(s: State<T>, run: seq<Step<T>>): nat
    requires Invariant(s)
    decreases |run|
  {
    if run == [] then 0
    else
      AfterAny(s, run[0]);
      (if run[0].Release? && Enabled(s, run[0]) then 1 else 0) + Releases(AfterOrSame(s, run[0]), run[1..])
  }

  lemma {:induction false} OutcomeInvariant<T>(s: State<T>, run: seq<Step<T>>)
    requires Invariant(s)
    ensures Invariant(Outcome(s, run))
    decreases |run|
  {
    if run != [] {
      AfterAny(s, run[0]);
      OutcomeInvariant(AfterOrSame(s, run[0]), run[1..]);
    }
  }

  // Nobody overtakes a thread that has asked for attention: each release, and nothing else, moves it up by one
  lemma MovesUp<T>(s: State<T>, a: Step<T>, i: nat)
    requires Invariant(s) && Enabled(s, a) && i < |s.attn|
    ensures !a.Release? ==> i < |After(s, a).attn| && After(s, a).attn[i] == s.attn[i]
    ensures a.Release? && i > 0 ==> i - 1 < |After(s, a).attn| && After(s, a).attn[i - 1] == s.attn[i]
  {
  }

  // so it is at the head after as many releases as there were threads before it
  lemma {:induction false} AttentionIsServed<T>(s: State<T>, run: seq<Step<T>>, i: nat)
    requires Invariant(s) && i < |s.attn| && Releases(s, run) <= i
    ensures var j := i - Releases(s, run); j < |Outcome(s, run).attn| && Outcome(s, run).attn[j] == s.attn[i]
    decreases |run|
  {
    hide Invariant, After, Enabled;
    if run != [] {
      var a := run[0];
      AfterAny(s, a);
      if Enabled(s, a) {
        MovesUp(s, a, i);
        AttentionIsServed(After(s, a), run[1..], if a.Release? then i - 1 else i);
      } else {
        AttentionIsServed(s, run[1..], i);
      }
    }
  }

  // pollers keep their order among themselves
  lemma PollersInOrder<T>(s: State<T>, a: Step<T>, i: nat)
    requires Invariant(s) && Enabled(s, a) && i < |s.wait|
    ensures var r := After(s, a);
      (i < |r.wait| && r.wait[i] == s.wait[i])
      || (a.Release? && |s.attn| == 1 && (if i == 0 then r.attn == [s.wait[0]] else i - 1 < |r.wait| && r.wait[i - 1] == s.wait[i]))
  {
  }

  // ---- the critical sections themselves, on linked queues ----

  class PollLock {
    const attnWaitqueue: WaitQueue
    const waitWaitqueue: WaitQueue
    var longPollRunning: bool
    var interrupted: bool
    ghost var phase: map<Node, Phase>

    ghost function Current(): State<Node>
      reads this, attnWaitqueue, waitWaitqueue
    {
      State(attnWaitqueue.nodes, waitWaitqueue.nodes, longPollRunning, interrupted, phase)
    }

    ghost predicate Valid()
      reads this, attnWaitqueue, waitWaitqueue, attnWaitqueue.nodes, waitWaitqueue.nodes
    {
      && attnWaitqueue != waitWaitqueue && attnWaitqueue.Valid() && waitWaitqueue.Valid() && Invariant(Current())
    }

    constructor ()
      ensures Valid() && fresh(attnWaitqueue) && fresh(waitWaitqueue)
      ensures Current() == State([], [], false, false, map[])
    {
      attnWaitqueue := new WaitQueue();
      waitWaitqueue := new WaitQueue();
      longPollRunning, interrupted, phase := false, false, map[];
    }

    // under the mutex: whether the thread that owns the node has the lock, or has to wait
    method Check(node: Node, kind: Kind) returns (acquired: bool)
      requires attnWaitqueue.Valid()
      modifies this`phase
      ensures Current() == Checked(old(Current()), node, kind)
      ensures acquired <==> attnWaitqueue.nodes != [] && attnWaitqueue.nodes[0] == node
    {
      attnWaitqueue.Ends();
      acquired := attnWaitqueue.head == node;
      phase := phase[node := if acquired then Holding(kind) else Asking(kind)];
    }

    // get_attn_lock(), up to the first wait
    method GetAttnLock(node: Node) returns (acquired: bool)
      requires Valid() && Enabled(Current(), AskAttention(node))
      modifies this, attnWaitqueue, attnWaitqueue.nodes, node
      ensures Current() == After(old(Current()), AskAttention(node)) && Valid()
      ensures acquired <==> Current().phase[node].Holding?
    {
      hide Invariant, WaitQueue.Valid;
      attnWaitqueue.Ends();
      waitWaitqueue.Ends();
      NotQueued(Current(), node);
      AfterInvariant(Current(), AskAttention(node));
      attnWaitqueue.Queue(node);
      attnWaitqueue.Ends();
      if attnWaitqueue.head != node {
        if longPollRunning {
          var second := attnWaitqueue.Second();
          SecondIs(attnWaitqueue.nodes, node);
          if second == node {
            interrupted := true;
          }
        }
      }
      acquired := Check(node, Attention);
    }

    // poll_attn_lock(), up to the first wait; fails if there is a poll
    method PollAttnLock(node: Node) returns (queued: bool, acquired: bool)
      requires Valid() && Enabled(Current(), TryAttention(node))
      modifies this, attnWaitqueue, attnWaitqueue.nodes, node
      ensures Current() == After(old(Current()), TryAttention(node)) && Valid()
      ensures queued == !old(longPollRunning) && (acquired <==> queued && Current().phase[node].Holding?)
    {
      hide Invariant, WaitQueue.Valid;
      attnWaitqueue.Ends();
      waitWaitqueue.Ends();
      NotQueued(Current(), node);
      AfterInvariant(Current(), TryAttention(node));
      if longPollRunning {
        return false, false;
      }
      attnWaitqueue.Queue(node);
      acquired := Check(node, Attention);
      queued := true;
    }

    // get_pollwait_lock(), up to the first wait
    method GetPollwaitLock(node: Node) returns (acquired: bool)
      requires Valid() && Enabled(Current(), AskPoll(node))
      modifies this, attnWaitqueue, waitWaitqueue, waitWaitqueue.nodes, node
      ensures Current() == After(old(Current()), AskPoll(node)) && Valid()
      ensures acquired <==> Current().phase[node].Holding?
    {
      hide Invariant, WaitQueue.Valid;
      attnWaitqueue.Ends();
      waitWaitqueue.Ends();
      NotQueued(Current(), node);
      AfterInvariant(Current(), AskPoll(node));
      QueuePoller(node);
      acquired := Check(node, Poller);
      if acquired {
        longPollRunning := true;
        // a poll that has not begun has not been interrupted
        interrupted := false;
      }
    }

    // a poller gets in line for attention only if there is no line
    method QueuePoller(node: Node)
      requires attnWaitqueue != waitWaitqueue && attnWaitqueue.Valid() && waitWaitqueue.Valid()
      requires node !in attnWaitqueue.nodes && node !in waitWaitqueue.nodes && Apart(attnWaitqueue.nodes, waitWaitqueue.nodes)
      modifies attnWaitqueue, waitWaitqueue, waitWaitqueue.nodes, node
      ensures attnWaitqueue.Valid() && waitWaitqueue.Valid()
      ensures attnWaitqueue.nodes == if old(attnWaitqueue.nodes) == [] then [node] else old(attnWaitqueue.nodes)
      ensures waitWaitqueue.nodes == old(waitWaitqueue.nodes) + if old(attnWaitqueue.nodes) == [] then [] else [node]
    {
      hide WaitQueue.Valid;
      attnWaitqueue.Ends();
      waitWaitqueue.Ends();
      if attnWaitqueue.head == null {
        attnWaitqueue.Queue(node);
      } else {
        waitWaitqueue.Queue(node);
      }
    }

    // a waiting thread, a poller or one that asks for attention, wakes up and checks again
    method Awake(node: Node, poller: bool) returns (acquired: bool)
      requires Valid() && Enabled(Current(), Resume(node)) && phase[node].kind == if poller then Poller else Attention
      modifies this
      ensures Current() == After(old(Current()), Resume(node)) && Valid()
      ensures acquired <==> Current().phase[node].Holding?
    {
      hide Invariant, WaitQueue.Valid;
      attnWaitqueue.Ends();
      waitWaitqueue.Ends();
      AfterInvariant(Current(), Resume(node));
      PollsIf(Current(), node);
      acquired := Check(node, if poller then Poller else Attention);
      if acquired && poller {
        longPollRunning := true;
      }
    }

    // release_lock(): the thread to wake up
    method ReleaseLock(node: Node) returns (signalled: Node?)
      requires Valid() && Enabled(Current(), Release(node))
      modifies this, attnWaitqueue, waitWaitqueue, waitWaitqueue.nodes
      ensures Current() == After(old(Current()), Release(node)) && Valid()
      ensures signalled == if attnWaitqueue.nodes == [] then null else attnWaitqueue.nodes[0]
    {
      hide Invariant, WaitQueue.Valid;
      attnWaitqueue.Ends();
      waitWaitqueue.Ends();
      HolderIsHead(Current(), node);
      AfterInvariant(Current(), Release(node));
      QueuesApart(Current());
      longPollRunning := false;
      phase := phase - {node};
      signalled := attnWaitqueue.Unqueue();
      if signalled == null {
        signalled := PromotePoller();
      }
    }

    // nobody waits for attention: the first poller is next
    method PromotePoller() returns (next: Node?)
      requires attnWaitqueue != waitWaitqueue && attnWaitqueue.Valid() && waitWaitqueue.Valid() && attnWaitqueue.nodes == []
      modifies this`longPollRunning, this`interrupted, attnWaitqueue, waitWaitqueue, waitWaitqueue.nodes
      ensures attnWaitqueue.Valid() && waitWaitqueue.Valid()
      ensures old(waitWaitqueue.nodes) == [] ==> next == null && Current() == old(Current())
      ensures old(waitWaitqueue.nodes) != [] ==>
                && next == old(waitWaitqueue.nodes)[0]
                && Current() == old(Current()).(attn := [next], wait := old(waitWaitqueue.nodes)[1..], polling := true, interrupted := false)
    {
      hide WaitQueue.Valid;
      waitWaitqueue.Ends();
      attnWaitqueue.Ends();
      next := null;
      if waitWaitqueue.head != null {
        next := waitWaitqueue.head;
        var _ := waitWaitqueue.Unqueue();
        attnWaitqueue.Queue(next);
        assert attnWaitqueue.nodes == [next];
        longPollRunning := true;
        interrupted := false;
      }
    }
  }

  lemma NotQueued<T>(s: State<T>, t: T)
    requires Invariant(s) && t !in s.phase
    ensures t !in s.attn && t !in s.wait && Apart(s.attn, s.wait)
  {
  }

  lemma QueuesApart<T>(s: State<T>)
    requires Invariant(s)
    ensures Apart(s.attn, s.wait)
  {
  }

  // a thread just queued is second exactly if there was one other
  lemma SecondIs<T>(q: seq<T>, t: T)
    requires q != [] && q[|q| - 1] == t && Distinct(q)
    ensures |q| > 1 ==> (q[1] == t <==> |q| == 2)
  {
  }

  // a poller at the head is polling already
  lemma PollsIf<T>(s: State<T>, t: T)
    requires Invariant(s) && t in s.phase
    ensures s.attn != [] && s.attn[0] == t && s.phase[t].kind == Poller ==> s.polling
  {
  }
}
