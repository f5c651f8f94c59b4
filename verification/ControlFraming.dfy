// The requests on a control connection, told apart in a stream of bytes.
module ControlFraming {
  import opened ByteNumbers
  import opened RingBuffers

  const QUERYVERSION := 0
  const FINDSERVICE := 1
  const LOADSERVICE := 2
  const STARTSERVICE := 3
  const STOPSERVICE := 4
  const WAKESERVICE := 5
  const RELEASESERVICE := 6
  const UNPINSERVICE := 7
  const LISTSERVICES := 8
  const UNLOADSERVICE := 9
  const SHUTDOWN := 10
  const ADD_DEP := 11
  const REM_DEP := 12
  const QUERY_LOAD_MECH := 13
  const ENABLESERVICE := 14
  const QUERYSERVICENAME := 15
  const RELOADSERVICE := 16
  const SETENV := 17
  const SERVICESTATUS := 18
  const SETTRIGGER := 19
  const CATLOG := 20
  const SIGNAL := 21
  const QUERYSERVICEDSCDIR := 22
  const CLOSEHANDLE := 23
  const GETALLENV := 24
  const LISTSERVICES5 := 25
  const SERVICESTATUS5 := 26
  const LISTENENV := 27

  // the capacity of the receive buffer
  const CAPACITY: nat := 1024

  // ---- packets ----

  // the length of a packet follows the command
  predicate Counted(command: int) {
    command == FINDSERVICE || command == LOADSERVICE || command == SETENV
  }

  // the length of a packet that has a fixed one, or 0
  function FixedSize(command: int): (n: nat)
    ensures n <= 10
  {
    if command in [QUERYVERSION, LISTSERVICES, QUERY_LOAD_MECH, LISTSERVICES5, LISTENENV] then 1
    else if command in [SHUTDOWN, GETALLENV] then 2
    else if command in [UNPINSERVICE, UNLOADSERVICE, RELOADSERVICE, SERVICESTATUS, CLOSEHANDLE, SERVICESTATUS5] then 5
    else if command in [STARTSERVICE, STOPSERVICE, WAKESERVICE, RELEASESERVICE] then 6
    else if command in [QUERYSERVICENAME, SETTRIGGER, CATLOG, QUERYSERVICEDSCDIR] then 6
    else if command == SIGNAL then 9
    else if command in [ADD_DEP, REM_DEP, ENABLESERVICE] then 10
    else 0
  }

  // a packet of n bytes, the beginning of a packet of which n bytes must be seen next, or neither
  datatype Frame = Whole(n: nat) | Partial(n: nat) | Bad

  function FrameOf(bytes: seq<char>): (f: Frame)
    requires bytes != []
    ensures f.Whole? ==> 0 < f.n <= |bytes|
    ensures f.Partial? ==> |bytes| < f.n <= CAPACITY
  {
    var command := bytes[0] as int;
    if Counted(command) then
      if |bytes| < 4 then Partial(4)
      else
        var n := SizeOf(bytes[1..3]);
        if n == 0 || n > CAPACITY - 3 then Bad else if |bytes| < n + 3 then Partial(n + 3) else Whole(n + 3)
    else
      var n := FixedSize(command);
      if n == 0 then Bad else if |bytes| < n then Partial(n) else Whole(n)
  }

  // the packets a stream begins with
  function Packets(stream: seq<char>): seq<seq<char>>
    decreases |stream|
  {
    if stream == [] then []
    else match FrameOf(stream) {
      case Whole(n) => [stream[..n]] + Packets(stream[n..])
      case _ => []
    }
  }

  function Joined(chunks: seq<seq<char>>): seq<char> {
    if chunks == [] then [] else Joined(chunks[..|chunks| - 1]) + chunks[|chunks| - 1]
  }

  predicate IsPacket(p: seq<char>) {
    p != [] && FrameOf(p) == Whole(|p|)
  }

  predicate ArePackets(ps: seq<seq<char>>) {
    forall i :: 0 <= i < |ps| ==> IsPacket(ps[i])
  }

  // a request with a counted text
  function Request(command: int, text: seq<char>): seq<char>
    requires 0 <= command < 256
  {
    [command as char] + SizeBytes(|text|, 2) + text
  }

  // What follows a packet, or a bad one, does not matter
  lemma FrameStays(bytes: seq<char>, more: seq<char>)
    requires bytes != []
    ensures !FrameOf(bytes).Partial? ==> FrameOf(bytes + more) == FrameOf(bytes)
    ensures FrameOf(bytes).Partial? && |bytes + more| < FrameOf(bytes).n ==> FrameOf(bytes + more) == FrameOf(bytes)
  {
    if |bytes| >= 4 {
      assert (bytes + more)[1..3] == bytes[1..3];
    }
  }

  // A packet is found whole whatever is behind it
  lemma WholeAlone(bytes: seq<char>)
    requires bytes != [] && FrameOf(bytes).Whole?
    ensures IsPacket(bytes[..FrameOf(bytes).n])
  {
    var n := FrameOf(bytes).n;
    if Counted(bytes[0] as int) {
      assert bytes[..n][1..3] == bytes[1..3];
    }
  }

  lemma RequestIsPacket(command: int, text: seq<char>)
    requires 0 <= command < 256 && Counted(command) && 0 < |text| <= CAPACITY - 3
    ensures IsPacket(Request(command, text))
  {
    var p := Request(command, text);
    assert p[1..3] == SizeBytes(|text|, 2);
    assert Power256(2) == 256 * Power256(1) && Power256(1) == 256 * Power256(0);
    SizeReadBack(|text|, 2);
  }

  lemma JoinedFront(p: seq<char>, ps: seq<seq<char>>)
    ensures Joined([p] + ps) == p + Joined(ps)
    decreases |ps|
  {
    if ps == [] {
      assert ([p] + ps)[..0] == [];
    } else {
      var n := |ps| - 1;
      JoinedFront(p, ps[..n]);
      assert ([p] + ps)[..n + 1] == [p] + ps[..n];
      assert p + Joined(ps[..n]) + ps[n] == p + (Joined(ps[..n]) + ps[n]);
    }
  }

  lemma JoinedNone(rest: seq<char>)
    ensures Joined([]) + rest == rest
  {
  }

  lemma FirstPacket(p: seq<char>, behind: seq<char>)
    requires IsPacket(p)
    ensures Packets(p + behind) == [p] + Packets(behind)
  {
    FrameStays(p, behind);
    hide FrameOf;
    assert (p + behind)[|p|..] == behind && (p + behind)[..|p|] == p;
  }

  // Packets sent one behind the other are told apart again
  lemma {:induction false} PacketsReadBack(ps: seq<seq<char>>, rest: seq<char>)
    requires ArePackets(ps)
    ensures Packets(Joined(ps) + rest) == ps + Packets(rest)
    decreases |ps|
  {
    hide IsPacket, Packets, Joined;
    if ps == [] {
      JoinedNone(rest);
    } else {
      var p, behind := ps[0], Joined(ps[1..]) + rest;
      assert ps == [p] + ps[1..];
      JoinedFront(p, ps[1..]);
      assert Joined(ps) + rest == p + behind;
      FirstPacket(p, behind);
      PacketsReadBack(ps[1..], rest);
    }
  }

  // ---- a connection's input ----

  // contents: what has been received and not been taken as a packet; they are looked at again once they are chklen long
  datatype State = State(chklen: nat, contents: seq<char>, handled: seq<seq<char>>)

  const START: State := State(0, [], [])

  // commands that leave the length to wait for as it is
  predicate Keeps(command: int) {
    command == QUERYVERSION || command == GETALLENV || command == LISTENENV
  }

  function AtLeast1(n: nat): (r: nat)
    ensures r >= 1 && r >= n
  {
    if n < 1 then 1 else n
  }

  function Taken(s: State, n: nat): State
    requires 0 < n <= |s.contents|
  {
    State(if Keeps(s.contents[0] as int) then s.chklen else 0, s.contents[n..], s.handled + [s.contents[..n]])
  }

  // the state once the first packet has been looked at
  function Step(s: State): State
    requires s.contents != []
  {
    match FrameOf(s.contents) {
      case Whole(n) => Taken(s, n)
      case Partial(n) => s.(chklen := n)
      case Bad => s
    }
  }

  function Rearmed(s: State): State {
    s.(chklen := AtLeast1(s.chklen))
  }

  // packets are handled as long as there are any
  function Serve(s: State): State
    decreases |s.contents|
  {
    if s.contents == [] || |s.contents| < s.chklen then s
    else match FrameOf(s.contents) {
      case Whole(n) => Serve(Rearmed(Taken(s, n)))
      case Partial(n) => s.(chklen := n)
      case Bad => s
    }
  }

  function Received(s: State, more: seq<char>): State {
    s.(contents := s.contents + more)
  }

  // the state once the chunks have been received, one read each, as long as the connection is not given up
  function ServeAll(chunks: seq<seq<char>>): State {
    if chunks == [] then START
    else
      var s := ServeAll(chunks[..|chunks| - 1]);
      if Rejected(s) then s else Serve(Received(s, chunks[|chunks| - 1]))
  }

  predicate Waiting(s: State) {
    |s.contents| < AtLeast1(s.chklen)
  }

  predicate Rejected(s: State) {
    s.contents != [] && |s.contents| >= s.chklen && FrameOf(s.contents).Bad?
  }

  // k bytes are what is to be waited for
  predicate Awaits(contents: seq<char>, k: nat) {
    && contents != []
    && if Counted(contents[0] as int)
       then k == 4 || (|contents| >= 4 && 0 < SizeOf(contents[1..3]) <= CAPACITY - 3 && k == SizeOf(contents[1..3]) + 3)
       else k == FixedSize(contents[0] as int)
  }

  // a length of two is still waited for, although the request that it was for has been handled
  predicate Lingers(handled: seq<seq<char>>)
    decreases |handled|
  {
    && handled != []
    && var last := handled[|handled| - 1];
       && last != []
       && (last[0] as int == GETALLENV || (Keeps(last[0] as int) && Lingers(handled[..|handled| - 1])))
  }

  ghost predicate Steady(s: State) {
    && ArePackets(s.handled)
    && (s.chklen >= 2 ==> Awaits(s.contents, s.chklen) || (s.chklen == 2 && Lingers(s.handled)))
  }

  lemma SteadyReceived(s: State, more: seq<char>)
    requires Steady(s)
    ensures Steady(Received(s, more))
  {
    if |s.contents| >= 4 {
      assert (s.contents + more)[1..3] == s.contents[1..3];
    }
  }

  lemma SteadyTaken(s: State)
    requires Steady(s) && s.contents != [] && |s.contents| >= s.chklen && FrameOf(s.contents).Whole?
    ensures Steady(Rearmed(Taken(s, FrameOf(s.contents).n)))
  {
    var n := FrameOf(s.contents).n;
    var packet, t := s.contents[..n], Rearmed(Taken(s, n));
    WholeAlone(s.contents);
    if t.chklen >= 2 {
      assert t.handled[..|s.handled|] == s.handled;
      assert packet[0] == s.contents[0];
    }
  }

  lemma {:induction false} ServeSteady(s: State)
    requires Steady(s)
    ensures Steady(Serve(s)) && (Waiting(Serve(s)) || Rejected(Serve(s)))
    decreases |s.contents|
  {
    if s.contents != [] && |s.contents| >= s.chklen {
      match FrameOf(s.contents) {
        case Whole(n) =>
          SteadyTaken(s);
          ServeSteady(Rearmed(Taken(s, n)));
        case _ =>
      }
    }
  }

  // nothing that was received is lost
  lemma {:induction false} ServeConserves(s: State)
    ensures Joined(Serve(s).handled) + Serve(s).contents == Joined(s.handled) + s.contents
    decreases |s.contents|
  {
    if s.contents != [] && |s.contents| >= s.chklen {
      match FrameOf(s.contents) {
        case Whole(n) =>
          var t := Rearmed(Taken(s, n));
          assert t.handled[..|s.handled|] == s.handled;
          assert s.contents[..n] + s.contents[n..] == s.contents;
          assert Joined(s.handled) + s.contents[..n] + s.contents[n..] == Joined(s.handled) + (s.contents[..n] + s.contents[n..]);
          ServeConserves(t);
        case _ =>
      }
    }
  }

  lemma {:induction false} ServeExtends(s: State)
    ensures s.handled <= Serve(s).handled
    decreases |s.contents|
  {
    if s.contents != [] && |s.contents| >= s.chklen && FrameOf(s.contents).Whole? {
      ServeExtends(Rearmed(Taken(s, FrameOf(s.contents).n)));
    }
  }

  // ---- how the stream arrives does not matter ----

  // a packet that is one byte long is there and is left, because two are waited for
  predicate Overlooks(s: State) {
    |s.contents| == 1 && s.chklen == 2 && FixedSize(s.contents[0] as int) == 1
  }

  // What is left when the connection waits holds no packet, but for one that is overlooked
  lemma NothingLeft(s: State)
    requires Steady(s) && (Waiting(s) || Rejected(s))
    ensures Overlooks(s) ==> Packets(s.contents) == [s.contents] && Lingers(s.handled)
    ensures !Overlooks(s) ==> Packets(s.contents) == []
    ensures !Rejected(s) ==> |s.contents| < CAPACITY
  {
    if Overlooks(s) {
      assert s.contents[..1] == s.contents && s.contents[1..] == [];
      assert Packets([]) == [];
    }
  }

  // the state when the stream has been received
  ghost predicate Serves(s: State, stream: seq<char>) {
    && Steady(s) && (Waiting(s) || Rejected(s))
    && Joined(s.handled) + s.contents <= stream
    && (!Rejected(s) ==> Joined(s.handled) + s.contents == stream)
  }

  lemma ServesMore(s: State, stream: seq<char>, more: seq<char>)
    requires Serves(s, stream) && !Rejected(s)
    ensures Serves(Serve(Received(s, more)), stream + more)
  {
    hide Steady, Waiting, Rejected, Serve, Joined;
    SteadyReceived(s, more);
    ServeSteady(Received(s, more));
    ServeConserves(Received(s, more));
    assert Joined(s.handled) + (s.contents + more) == Joined(s.handled) + s.contents + more;
  }

  lemma {:induction false} ServedAll(chunks: seq<seq<char>>)
    ensures Serves(ServeAll(chunks), Joined(chunks))
    decreases |chunks|
  {
    if chunks == [] {
      assert Joined(START.handled) + START.contents == [];
    } else {
      hide Steady, Waiting, Rejected, Serve;
      var front, more := chunks[..|chunks| - 1], chunks[|chunks| - 1];
      ServedAll(front);
      if !Rejected(ServeAll(front)) {
        ServesMore(ServeAll(front), Joined(front), more);
      }
    }
  }

  // a piece of the input ends where the stream is p bytes long
  ghost predicate Boundary(chunks: seq<seq<char>>, p: nat) {
    exists k :: 0 <= k <= |chunks| && p == |Joined(chunks[..k])|
  }

  // Of the packets, one is a request for the environment that arrived in two pieces, and those behind it leave the
  // length to wait for as it is
  ghost predicate Armed(chunks: seq<seq<char>>, packets: seq<seq<char>>) {
    exists i: nat :: ArmedBy(chunks, packets, i)
  }

  ghost predicate ArmedBy(chunks: seq<seq<char>>, packets: seq<seq<char>>, i: nat) {
    && i < |packets| && AsksEnvironment(packets[i]) && Boundary(chunks, |Joined(packets[..i])| + 1)
    && forall j :: i < j < |packets| ==> KeepsLength(packets[j])
  }

  predicate AsksEnvironment(packet: seq<char>) {
    packet != [] && packet[0] as int == GETALLENV
  }

  predicate KeepsLength(packet: seq<char>) {
    packet != [] && Keeps(packet[0] as int)
  }

  // the input ends in a packet of one byte, behind packets that leave two bytes to be waited for
  ghost predicate EndsOverlooked(chunks: seq<seq<char>>) {
    var packets := Packets(Joined(chunks));
    && packets != [] && Joined(packets) == Joined(chunks) && |packets[|packets| - 1]| == 1
    && Armed(chunks, packets[..|packets| - 1])
  }

  lemma {:induction false} JoinedGrows(chunks: seq<seq<char>>, k: nat)
    requires k <= |chunks|
    ensures |Joined(chunks[..k])| <= |Joined(chunks)|
    ensures k < |chunks| ==> |Joined(chunks[..k])| + |chunks[k]| <= |Joined(chunks)|
    decreases |chunks|
  {
    var front := chunks[..if chunks == [] then 0 else |chunks| - 1];
    if k < |front| {
      JoinedGrows(front, k);
      assert front[..k] == chunks[..k];
    } else if k < |chunks| {
      assert front == chunks[..k];
    } else {
      assert chunks[..k] == chunks;
    }
  }

  lemma BoundaryMore(chunks: seq<seq<char>>, more: seq<char>, p: nat)
    ensures Boundary(chunks + [more], p) <==> Boundary(chunks, p) || p == |Joined(chunks)| + |more|
    ensures Boundary(chunks, p) ==> p <= |Joined(chunks)|
  {
    var all := chunks + [more];
    assert all[..|all|] == all && all[..|all| - 1] == chunks;
    if Boundary(all, p) {
      var k :| 0 <= k <= |all| && p == |Joined(all[..k])|;
      assert k < |all| ==> all[..k] == chunks[..k];
    }
    if Boundary(chunks, p) {
      var k :| 0 <= k <= |chunks| && p == |Joined(chunks[..k])|;
      assert all[..k] == chunks[..k];
      JoinedGrows(chunks, k);
    }
  }

  // The length to wait for tells whether a split request for the environment has been or is being handled. No piece but
  // the last one ends behind the first packet that is left, and a packet of one byte is not the last to be handled
  // when two are waited for.
  ghost predicate Marked(s: State, chunks: seq<seq<char>>) {
    var at, end := |Joined(s.handled)|, |Joined(chunks)|;
    && end == at + |s.contents|
    && (s.chklen >= 2 ==>
          || Armed(chunks, s.handled)
          || (Awaits(s.contents, s.chklen) && (AsksEnvironment(s.contents) ==> Boundary(chunks, at + 1))))
    && (Armed(chunks, s.handled) ==> s.chklen >= 2)
    && (AsksEnvironment(s.contents) && |s.contents| >= 2 && Boundary(chunks, at + 1) ==> s.chklen >= 2)
    && (s.contents != [] && FrameOf(s.contents).Whole? ==> EndsWithin(chunks, at + FrameOf(s.contents).n))
    && (s.handled != [] && s.contents == [] && Armed(chunks, s.handled[..|s.handled| - 1]) ==> |s.handled[|s.handled| - 1]| != 1)
  }

  // all pieces but the last end at p at the latest
  ghost predicate EndsWithin(chunks: seq<seq<char>>, p: nat) {
    forall q: nat :: Boundary(chunks, q) && q < |Joined(chunks)| ==> q <= p
  }

  lemma ArmedByMore(chunks: seq<seq<char>>, packets: seq<seq<char>>, p: seq<char>, i: nat)
    requires p != []
    ensures ArmedBy(chunks, packets + [p], i) ==> i <= |packets|
    ensures ArmedBy(chunks, packets, i) ==> i < |packets|
    ensures i < |packets| ==> (ArmedBy(chunks, packets + [p], i) <==> KeepsLength(p) && ArmedBy(chunks, packets, i))
    ensures i == |packets| ==> (ArmedBy(chunks, packets + [p], i) <==> AsksEnvironment(p) && Boundary(chunks, |Joined(packets)| + 1))
  {
    var all := packets + [p];
    hide Joined, Boundary, KeepsLength, AsksEnvironment;
    if i <= |packets| {
      assert all[..i] == packets[..i] && packets[..|packets|] == packets;
      assert all[|packets|] == p;
      forall j | i < j < |packets| ensures all[j] == packets[j] {
      }
    }
  }

  lemma ArmedMore(chunks: seq<seq<char>>, packets: seq<seq<char>>, p: seq<char>)
    requires p != []
    ensures Armed(chunks, packets + [p]) <==>
              || (KeepsLength(p) && Armed(chunks, packets))
              || (AsksEnvironment(p) && Boundary(chunks, |Joined(packets)| + 1))
  {
    hide ArmedBy, Boundary, KeepsLength, AsksEnvironment;
    if Armed(chunks, packets + [p]) {
      var i: nat :| ArmedBy(chunks, packets + [p], i);
      ArmedByMore(chunks, packets, p, i);
    }
    if KeepsLength(p) && Armed(chunks, packets) {
      var i: nat :| ArmedBy(chunks, packets, i);
      ArmedByMore(chunks, packets, p, i);
    }
    ArmedByMore(chunks, packets, p, |packets|);
  }

  lemma MarkedTaken(s: State, chunks: seq<seq<char>>)
    requires Marked(s, chunks) && s.contents != [] && |s.contents| >= s.chklen && FrameOf(s.contents).Whole?
    ensures Marked(Rearmed(Taken(s, FrameOf(s.contents).n)), chunks)
  {
    var n := FrameOf(s.contents).n;
    var p, t := s.contents[..n], Rearmed(Taken(s, n));
    assert t.handled[..|s.handled|] == s.handled;
    assert |Joined(t.handled)| == |Joined(s.handled)| + n;
    assert p[0] == s.contents[0];
    ArmedMore(chunks, s.handled, p);
    hide Armed, Boundary, Joined;
    assert |t.contents| >= 2 ==> !Boundary(chunks, |Joined(t.handled)| + 1);
  }

  lemma {:induction false} MarkedServe(s: State, chunks: seq<seq<char>>)
    requires Marked(s, chunks)
    ensures Marked(Serve(s), chunks)
    decreases |s.contents|
  {
    if s.contents != [] && |s.contents| >= s.chklen {
      match FrameOf(s.contents) {
        case Whole(n) =>
          MarkedTaken(s, chunks);
          MarkedServe(Rearmed(Taken(s, n)), chunks);
        case Partial(n) =>
          EndIsBoundary(chunks);
          hide Armed, Boundary, Joined;
        case Bad =>
      }
    }
  }

  lemma EndIsBoundary(chunks: seq<seq<char>>)
    ensures Boundary(chunks, |Joined(chunks)|)
  {
    assert chunks[..|chunks|] == chunks;
  }

  // another piece arms nothing by itself, as it ends behind all packets handled
  lemma ArmedEarlier(chunks: seq<seq<char>>, more: seq<char>, packets: seq<seq<char>>)
    requires ArePackets(packets) && |Joined(packets)| <= |Joined(chunks)|
    ensures Armed(chunks + [more], packets) <==> Armed(chunks, packets)
  {
    forall i | 0 <= i < |packets| ensures ArmedBy(chunks + [more], packets, i) <==> ArmedBy(chunks, packets, i) {
      BoundaryMore(chunks, more, |Joined(packets[..i])| + 1);
      assert IsPacket(packets[i]);
      JoinedGrows(packets, i);
    }
  }

  lemma MarkedReceived(s: State, chunks: seq<seq<char>>, more: seq<char>)
    requires Marked(s, chunks) && Steady(s) && Waiting(s)
    ensures Marked(Received(s, more), chunks + [more])
  {
    hide Armed, Boundary, FrameOf, Awaits, Steady, ArePackets;
    var t, all, at := Received(s, more), chunks + [more], |Joined(s.handled)|;
    assert all[..|chunks|] == chunks;
    SteadyPackets(s);
    ArmedEarlier(chunks, more, s.handled);
    if s.handled != [] {
      var before := s.handled[..|s.handled| - 1];
      JoinedGrows(s.handled, |before|);
      ArmedEarlier(chunks, more, before);
    }
    BoundaryMore(chunks, more, at + 1);
    if Awaits(s.contents, s.chklen) {
      AwaitsMore(s.contents, more, s.chklen);
    }
    if t.contents != [] && FrameOf(t.contents).Whole? {
      WholeBehind(s, more);
      forall q: nat | Boundary(all, q) && q < |Joined(all)| ensures q <= at + FrameOf(t.contents).n {
        BoundaryMore(chunks, more, q);
      }
    }
  }

  lemma SteadyPackets(s: State)
    requires Steady(s)
    ensures ArePackets(s.handled) && (s.handled != [] ==> ArePackets(s.handled[..|s.handled| - 1]))
  {
  }

  lemma AwaitsMore(bytes: seq<char>, more: seq<char>, k: nat)
    requires Awaits(bytes, k)
    ensures bytes != [] && Awaits(bytes + more, k)
  {
    if |bytes| >= 4 {
      assert (bytes + more)[1..3] == bytes[1..3];
    }
  }

  // what was waiting is part of the first packet once that is whole
  lemma WholeBehind(s: State, more: seq<char>)
    requires Steady(s) && Waiting(s) && s.contents + more != [] && FrameOf(s.contents + more).Whole?
    ensures |s.contents| <= FrameOf(s.contents + more).n
  {
    if |s.contents| >= 4 {
      assert (s.contents + more)[1..3] == s.contents[1..3];
    }
  }

  lemma {:induction false} MarkedAll(chunks: seq<seq<char>>)
    ensures Rejected(ServeAll(chunks)) || Marked(ServeAll(chunks), chunks)
    decreases |chunks|
  {
    if chunks == [] {
      assert !Armed(chunks, []);
    } else {
      var front, more := chunks[..|chunks| - 1], chunks[|chunks| - 1];
      MarkedAll(front);
      if !Rejected(ServeAll(front)) {
        ServedAll(front);
        assert front + [more] == chunks;
        hide Marked, Steady, Waiting;
        MarkedReceived(ServeAll(front), front, more);
        MarkedServe(Received(ServeAll(front), more), chunks);
      }
    }
  }

  // Whether a packet is overlooked can be told from the input
  lemma OverlooksExactly(chunks: seq<seq<char>>)
    ensures Overlooks(ServeAll(chunks)) <==> EndsOverlooked(chunks)
  {
    var s, stream := ServeAll(chunks), Joined(chunks);
    var packets := Packets(stream);
    ServedAll(chunks);
    MarkedAll(chunks);
    NothingLeft(s);
    PacketsFollow(s, stream);
    hide ServeAll, Packets, Armed, Steady, Boundary, ArePackets;
    if Overlooks(s) {
      assert packets[..|s.handled|] == s.handled;
      assert Joined(packets) == Joined(s.handled) + s.contents;
    } else if !Rejected(s) {
      assert packets == s.handled;
    }
  }

  // Whatever pieces a stream arrives in, the packets handled are those the stream consists of; only the last of them
  // may be left, and is left exactly if the input ends in an overlooked one. What is waiting never fills the buffer.
  lemma PiecesDoNotMatter(chunks: seq<seq<char>>)
    ensures var s, packets := ServeAll(chunks), Packets(Joined(chunks));
            && (s.handled == packets <==> !EndsOverlooked(chunks))
            && (EndsOverlooked(chunks) ==> s.handled + [s.contents] == packets)
            && (!Rejected(s) ==> |s.contents| < CAPACITY)
  {
    hide Packets, Joined, FrameOf, Steady, Lingers, ServeAll, EndsOverlooked;
    var s, stream := ServeAll(chunks), Joined(chunks);
    ServedAll(chunks);
    NothingLeft(s);
    PacketsFollow(s, stream);
    OverlooksExactly(chunks);
  }

  lemma PacketsFollow(s: State, stream: seq<char>)
    requires Serves(s, stream)
    ensures Rejected(s) ==> Packets(stream) == s.handled && !Overlooks(s)
    ensures !Rejected(s) ==> Packets(stream) == s.handled + Packets(s.contents)
  {
    if Rejected(s) {
      PacketsRejected(s, stream);
    } else {
      PacketsReadBack(s.handled, s.contents);
    }
  }

  lemma PacketsRejected(s: State, stream: seq<char>)
    requires Steady(s) && Rejected(s) && Joined(s.handled) + s.contents <= stream
    ensures Packets(stream) == s.handled
  {
    var more := stream[|Joined(s.handled)| + |s.contents|..];
    assert stream == Joined(s.handled) + (s.contents + more);
    FrameStays(s.contents, more);
    assert Packets(s.contents + more) == [];
    PacketsReadBack(s.handled, s.contents + more);
  }

  // A version query behind a request for the environment is answered, or not, depending on how the two arrive
  lemma OverlookedExample()
    ensures var ask, version := [GETALLENV as char, 0 as char], [QUERYVERSION as char];
            && ServeAll([ask + version]).handled == [ask, version]
            && ServeAll([ask[..1], ask[1..], version]).handled == [ask] && Overlooks(ServeAll([ask[..1], ask[1..], version]))
  {
    var g, z, q := GETALLENV as char, 0 as char, QUERYVERSION as char;
    ServeTogether(g, z, q);
    ServeApart(g, z, q);
    hide Serve, Received, Lingers;
    var none: seq<seq<char>> := [];
    assert ServeAll(none) == START;
    assert none + [[g, z, q]] == [[g, z, q]] && none + [[g]] == [[g]];
    ServeAllBack(none, [g, z, q]);
    ServeAllBack(none, [g]);
    ServeAllBack([[g]], [z]);
    assert [[g]] + [[z]] == [[g], [z]];
    ServeAllBack([[g], [z]], [q]);
    assert [[g], [z]] + [[q]] == [[g], [z], [q]];
    hide ServeAll;
    assert [g, z] + [q] == [g, z, q] && [g, z][..1] == [g] && [g, z][1..] == [z];
  }

  lemma ServeAllBack(chunks: seq<seq<char>>, more: seq<char>)
    ensures !Rejected(ServeAll(chunks)) ==> ServeAll(chunks + [more]) == Serve(Received(ServeAll(chunks), more))
  {
    assert (chunks + [more])[..|chunks|] == chunks;
  }

  lemma ServeTogether(g: char, z: char, q: char)
    requires g as int == GETALLENV && q as int == QUERYVERSION
    ensures Serve(Received(START, [g, z, q])) == State(1, [], [[g, z], [q]])
  {
    assert [] + [g, z, q] == [g, z, q] && [g, z, q][..2] == [g, z] && [g, z, q][2..] == [q];
    assert [q][..1] == [q] && [q][1..] == [];
    assert Step(State(0, [g, z, q], [])) == State(0, [q], [[g, z]]);
    assert Step(State(1, [q], [[g, z]])) == State(1, [], [[g, z], [q]]);
    hide FrameOf, Taken;
    ServeStep(State(0, [g, z, q], []));
    ServeStep(State(1, [q], [[g, z]]));
    ServeRest(State(1, [], [[g, z], [q]]));
  }

  lemma ServeApart(g: char, z: char, q: char)
    requires g as int == GETALLENV && q as int == QUERYVERSION
    ensures Serve(Received(START, [g])) == State(2, [g], [])
    ensures Serve(Received(State(2, [g], []), [z])) == State(2, [], [[g, z]])
    ensures Serve(Received(State(2, [], [[g, z]]), [q])) == State(2, [q], [[g, z]])
  {
    assert [] + [g] == [g] && [g] + [z] == [g, z] && [] + [q] == [q] && [g, z][..2] == [g, z] && [g, z][2..] == [];
    assert Step(State(2, [g, z], [])) == State(2, [], [[g, z]]);
    assert Step(State(0, [g], [])) == State(2, [g], []);
    hide FrameOf, Taken;
    ServeStep(State(2, [g, z], []));
    ServeRest(State(2, [], [[g, z]]));
    ServeRest(State(2, [g], []));
    ServeRest(State(2, [q], [[g, z]]));
  }

  // ---- a connection ----

  // what becomes of a request: it is answered, the connection is to be closed, or there is no one to answer to
  datatype Verdict = Answered | Refused | Failed

  class Connection {
    const rbuf: RingBuffer
    var chklen: nat
    var badConnClose: bool
    // a request could not be answered, and the connection is not to be used any more
    var failed: bool
    // the packets that have been carried out, and what each read has yielded
    ghost var handled: seq<seq<char>>
    ghost var received: seq<seq<char>>

    ghost predicate Buffered()
      reads this, rbuf
    {
      rbuf.Valid() && rbuf.buf.Length == CAPACITY
    }

    ghost function Input(): State
      reads this, rbuf, rbuf.buf
      requires Buffered()
    {
      State(chklen, rbuf.Contents(), handled)
    }

    ghost predicate Open()
      reads this
    {
      !badConnClose && !failed
    }

    // As long as the connection is open, what has been carried out depends on what has been read only; there is room
    // for more.
    ghost predicate Valid()
      reads this, rbuf, rbuf.buf
    {
      && Buffered()
      && handled <= ServeAll(received).handled
      && (Open() ==> Input() == ServeAll(received) && !Rejected(Input()) && rbuf.length < CAPACITY)
    }

    constructor ()
      ensures Valid() && Open() && received == [] && handled == [] && fresh(rbuf) && fresh(rbuf.buf)
    {
      rbuf := new RingBuffer(CAPACITY);
      chklen, badConnClose, failed, handled, received := 0, false, false, [], [];
    }

    // Read once, and handle the packets there are. Nothing is available if the read would block, has failed, or is at
    // the end of the stream.
    method DataReady(available: seq<char>) returns (close: bool, taken: nat, ghost refused: bool)
      requires Valid() && Open()
      modifies this, rbuf, rbuf.buf
      ensures Valid() && taken <= |available| && old(handled) <= handled
      ensures available == [] ==> Open() && received == old(received) && handled == old(handled)
      ensures available != [] ==> taken > 0 && !close && received == old(received) + [available[..taken]]
      ensures !Open() ==> refused || Rejected(ServeAll(received))
    {
      taken, refused := 0, false;
      if available == [] {
        close := *;
        return;
      }
      var limit: nat :| limit > 0;
      taken := rbuf.Fill(available, limit);
      ServeReads(old(received), old(Input()), available[..taken], Input());
      received := received + [available[..taken]];
      close := false;
      refused := HandlePackets();
    }

    // what has just been read is looked at
    method HandlePackets() returns (ghost refused: bool)
      requires Buffered() && Open() && rbuf.length > 0 && Steady(Input()) && Serve(Input()) == ServeAll(received)
      modifies this, rbuf
      ensures Valid() && old(handled) <= handled && received == old(received)
      ensures !Open() ==> refused || Rejected(ServeAll(received))
    {
      hide Wrapped, Serve, ServeAll, Steady, Waiting, Step;
      refused := false;
      ServeExtends(Input());
      while rbuf.length >= chklen
        invariant Buffered() && Open() && !refused && Steady(Input()) && Serve(Input()) == ServeAll(received)
        invariant received == old(received) && old(handled) <= handled <= ServeAll(received).handled
        invariant rbuf.length == 0 ==> chklen > 0
        decreases rbuf.length, rbuf.length >= chklen
      {
        ghost var before := Input();
        ServeStep(before);
        var ok;
        ok, refused := ProcessPacket();
        if !ok || badConnClose {
          return;
        }
        chklen := if chklen < 1 then 1 else chklen;
        StepRearmed(before, Input());
      }
      ServeRest(Input());
      // the connection would now be dropped if the buffer were full, because of a packet that is too large
      assert rbuf.length < rbuf.buf.Length;
    }

    // process_packet(): the first packet, if it is complete
    method ProcessPacket() returns (ok: bool, ghost refused: bool)
      requires Buffered() && Open() && rbuf.length > 0
      modifies this, rbuf
      ensures Buffered() && received == old(received)
      ensures ok && !badConnClose ==> Open() && !refused && !FrameOf(old(Input()).contents).Bad? && Input() == Step(old(Input()))
      ensures !ok || badConnClose ==> !Open() && (refused || FrameOf(old(Input()).contents).Bad?)
      ensures handled == Step(old(Input())).handled
    {
      var first := rbuf.At(0);
      var command := first as int;
      ok, refused := true, false;
      if Counted(command) {
        ok, refused := ProcessCounted();
        return;
      }
      var size := FixedSize(command);
      if size == 0 {
        badConnClose := true;
      } else if rbuf.length < size {
        chklen := size;
      } else {
        ok, refused := CarryOut(size, !Keeps(command));
      }
    }

    // process_find_load() and process_setenv(): the length of the text follows the command
    method ProcessCounted() returns (ok: bool, ghost refused: bool)
      requires Buffered() && Open() && rbuf.length > 0 && Counted(rbuf.Contents()[0] as int)
      modifies this, rbuf
      ensures Buffered() && received == old(received)
      ensures ok && !badConnClose ==> Open() && !refused && !FrameOf(old(Input()).contents).Bad? && Input() == Step(old(Input()))
      ensures !ok || badConnClose ==> !Open() && (refused || FrameOf(old(Input()).contents).Bad?)
      ensures handled == Step(old(Input())).handled
    {
      ok, refused := true, false;
      if rbuf.length < 4 {
        chklen := 4;
        return;
      }
      var bytes := rbuf.Extract(1, 2);
      var length := SizeOf(bytes);
      if length == 0 || length > CAPACITY - 3 {
        badConnClose := true;
        return;
      }
      chklen := length + 3;
      if rbuf.length < chklen {
        return;
      }
      ok, refused := CarryOut(chklen, true);
    }

    // A request is carried out and answered. What is left in the buffer if it is not answered is not modelled.
    method CarryOut(n: nat, reset: bool) returns (ok: bool, ghost refused: bool)
      requires Buffered() && Open() && 0 < n <= rbuf.length
      modifies this, rbuf
      ensures Buffered() && received == old(received) && handled == old(handled) + [old(rbuf.Contents())[..n]]
      ensures refused ==> !Open() && (ok ==> badConnClose)
      ensures !refused ==> Open() && ok && rbuf.Contents() == old(rbuf.Contents())[n..]
      ensures !refused ==> chklen == if reset then 0 else old(chklen)
    {
      handled := handled + [rbuf.Contents()[..n]];
      var verdict: Verdict := *;
      ok, refused := true, verdict != Answered;
      match verdict {
        case Failed =>
          failed, ok := true, false;
        case Refused =>
          badConnClose := true;
        case Answered =>
          rbuf.Consume(n);
          if reset {
            chklen := 0;
          }
      }
    }
  }

  lemma ServeReads(received: seq<seq<char>>, s: State, more: seq<char>, next: State)
    requires s == ServeAll(received) && !Rejected(s) && next == Received(s, more)
    ensures Serve(next) == ServeAll(received + [more]) && Steady(next) && s.handled <= Serve(next).handled
  {
    ServeAllBack(received, more);
    ServedAll(received);
    SteadyReceived(s, more);
    ServeExtends(next);
  }

  lemma ServeStep(s: State)
    requires s.contents != [] && |s.contents| >= s.chklen
    ensures Serve(s) == if FrameOf(s.contents).Bad? then s else Serve(Rearmed(Step(s)))
    ensures Steady(s) ==> Steady(Rearmed(Step(s)))
    ensures s.handled <= Step(s).handled <= Serve(s).handled
    ensures FrameOf(s.contents).Bad? ==> Rejected(s)
  {
    if Steady(s) && FrameOf(s.contents).Whole? {
      SteadyTaken(s);
    }
    ServeExtends(Rearmed(Step(s)));
  }

  lemma StepRearmed(s: State, t: State)
    requires s.contents != [] && |s.contents| >= s.chklen && t == Rearmed(Step(s))
    ensures |t.contents| < |s.contents| || (t.contents == s.contents && (FrameOf(s.contents).Bad? || |t.contents| < t.chklen))
    ensures t.chklen >= 1
  {
  }

  lemma ServeRest(s: State)
    requires |s.contents| < s.chklen
    ensures Serve(s) == s && !Rejected(s)
    ensures Steady(s) ==> |s.contents| < CAPACITY
  {
  }
}
