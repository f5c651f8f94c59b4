// The replies and information packets that are sent on a control connection.
module ControlOutput {
  import opened ControlFraming

  // how much has been written; nothing has, and it can be tried again; or the connection is broken
  datatype WriteResult = Wrote(n: nat) | Again | Broken

  lemma JoinedBack(ps: seq<seq<char>>, p: seq<char>)
    ensures Joined(ps + [p]) == Joined(ps) + p
  {
    assert (ps + [p])[..|ps|] == ps;
  }

  // what is to be sent
  function PendingOf(outbuf: seq<seq<char>>, index: nat): seq<char>
    requires outbuf == [] || index <= |outbuf[0]|
  {
    if outbuf == [] then [] else outbuf[0][index..] + Joined(outbuf[1..])
  }

  class Output {
    // what the socket has taken
    var sent: seq<char>
    // packets that are to be sent; the first of them has been, up to an index
    var outbuf: seq<seq<char>>
    var outpktIndex: nat
    var badConnClose: bool
    // the packets that have been queued successfully
    ghost var accepted: seq<seq<char>>

    ghost predicate Valid()
      reads this
    {
      && Placed()
      && sent + Pending() == Joined(accepted)
    }

    // an index is kept of a first packet only
    ghost predicate Placed()
      reads this
    {
      if outbuf == [] then outpktIndex == 0 else outpktIndex <= |outbuf[0]|
    }

    ghost function Pending(): seq<char>
      reads this
      requires Placed()
    {
      PendingOf(outbuf, outpktIndex)
    }

    constructor ()
      ensures Valid() && sent == [] && outbuf == [] && accepted == [] && !badConnClose
    {
      sent, outbuf, outpktIndex, badConnClose, accepted := [], [], 0, false, [];
    }

    // write(), on a descriptor that does not block
    method Write(data: seq<char>) returns (r: WriteResult)
      modifies this`sent
      ensures r.Wrote? ==> r.n <= |data| && sent == old(sent) + data[..r.n]
      ensures !r.Wrote? ==> sent == old(sent)
    {
      r := *;
      if r.Wrote? {
        var n: nat :| n <= |data|;
        r := Wrote(n);
        sent := sent + data[..n];
      }
    }

    // queue_packet(), which leaves the packet with its owner: what cannot be sent now is copied
    method QueuePacketCopied(packet: seq<char>) returns (ok: bool)
      requires Valid()
      modifies this`sent, this`outbuf, this`accepted
      ensures Valid() && old(sent) <= sent
      ensures accepted == if ok then old(accepted) + [packet] else old(accepted)
      ensures !ok ==> old(outbuf) == [] && sent == old(sent) && outbuf == []
    {
      hide Joined;
      JoinedBack(accepted, packet);
      var rest := packet;
      if outbuf == [] {
        var wr := Write(packet);
        if wr.Broken? {
          return false;
        }
        if wr.Wrote? {
          SplitAt(old(sent), packet, wr.n);
          if wr.n == |packet| {
            accepted := accepted + [packet];
            return true;
          }
          rest := packet[wr.n..];
        }
      }
      QueuedBehind(sent, outbuf, outpktIndex, rest);
      outbuf := outbuf + [rest];
      accepted := accepted + [packet];
      ok := true;
    }

    // queue_packet(), which takes the packet over: what has been sent of it is remembered
    method QueuePacketMoved(packet: seq<char>) returns (ok: bool)
      requires Valid()
      modifies this`sent, this`outbuf, this`outpktIndex, this`accepted
      ensures Valid() && old(sent) <= sent
      ensures accepted == if ok then old(accepted) + [packet] else old(accepted)
      ensures !ok ==> old(outbuf) == [] && sent == old(sent) && outbuf == []
    {
      hide Joined;
      JoinedBack(accepted, packet);
      if outbuf == [] {
        outpktIndex := 0;
        var wr := Write(packet);
        if wr.Broken? {
          return false;
        }
        if wr.Wrote? {
          SplitAt(old(sent), packet, wr.n);
          if wr.n == |packet| {
            accepted := accepted + [packet];
            return true;
          }
          outpktIndex := wr.n;
        }
        QueuedFirst(packet);
      } else {
        QueuedBehind(sent, outbuf, outpktIndex, packet);
      }
      outbuf := outbuf + [packet];
      accepted := accepted + [packet];
      ok := true;
    }

    // send_data(): the socket is ready to be written to
    method SendData() returns (close: bool, broken: bool)
      requires Valid() && (outbuf != [] || badConnClose)
      modifies this`sent, this`outbuf, this`outpktIndex
      ensures Valid() && old(sent) <= sent && |outbuf| <= |old(outbuf)|
      ensures broken ==> close
      ensures close && !broken <==> badConnClose && outbuf == []
      ensures close && !broken ==> sent == Joined(accepted)
    {
      hide Joined;
      broken := false;
      if outbuf == [] && badConnClose {
        return true, false;
      }
      var packet := outbuf[0];
      var written := Write(packet[outpktIndex..]);
      if written.Broken? {
        return true, true;
      }
      if written.Again? {
        return false, false;
      }
      Sent(old(sent), outbuf, outpktIndex, written.n);
      outpktIndex := outpktIndex + written.n;
      if outpktIndex == |packet| {
        FirstSent(outbuf);
        outbuf := outbuf[1..];
        outpktIndex := 0;
        if outbuf == [] && badConnClose {
          return true, false;
        }
      }
      close := false;
    }
  }

  lemma SplitAt(sent: seq<char>, packet: seq<char>, n: nat)
    requires n <= |packet|
    ensures sent + packet[..n] + packet[n..] == sent + packet && packet[..|packet|] == packet
  {
    assert packet[..n] + packet[n..] == packet;
    assert sent + packet[..n] + packet[n..] == sent + (packet[..n] + packet[n..]);
  }

  lemma QueuedBehind(sent: seq<char>, outbuf: seq<seq<char>>, index: nat, packet: seq<char>)
    requires if outbuf == [] then index == 0 else index <= |outbuf[0]|
    ensures sent + PendingOf(outbuf + [packet], index) == sent + PendingOf(outbuf, index) + packet
  {
    if outbuf == [] {
      QueuedFirst(packet);
    } else {
      var first, behind := outbuf[0][index..], outbuf[1..];
      assert (outbuf + [packet])[1..] == behind + [packet];
      JoinedBack(behind, packet);
      assert first + (Joined(behind) + packet) == first + Joined(behind) + packet;
      assert sent + (first + Joined(behind) + packet) == sent + (first + Joined(behind)) + packet;
    }
  }

  lemma QueuedFirst(packet: seq<char>)
    ensures ([] + [packet])[0] == packet && Joined(([] + [packet])[1..]) == []
    ensures forall index: nat :: index <= |packet| ==> PendingOf([] + [packet], index) == packet[index..]
  {
    assert ([] + [packet])[1..] == [];
  }

  lemma Sent(sent: seq<char>, outbuf: seq<seq<char>>, index: nat, n: nat)
    requires outbuf != [] && index + n <= |outbuf[0]|
    ensures sent + outbuf[0][index..][..n] + PendingOf(outbuf, index + n) == sent + PendingOf(outbuf, index)
  {
    var packet, behind := outbuf[0], Joined(outbuf[1..]);
    assert packet[index..] == packet[index..][..n] + packet[index + n..];
    assert sent + packet[index..][..n] + (packet[index + n..] + behind) == sent + (packet[index..] + behind);
  }

  lemma FirstSent(outbuf: seq<seq<char>>)
    requires outbuf != []
    ensures PendingOf(outbuf, |outbuf[0]|) == PendingOf(outbuf[1..], 0) == Joined(outbuf[1..])
  {
    if |outbuf| > 1 {
      JoinedFront(outbuf[1], outbuf[2..]);
      assert outbuf[1..] == [outbuf[1]] + outbuf[2..] && outbuf[1..][1..] == outbuf[2..];
    }
  }
}
