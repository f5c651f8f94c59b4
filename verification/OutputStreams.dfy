// Buffered output.
module OutputStreams {
  import opened RingBuffers

  function Gathered(iov: seq<seq<char>>): seq<char> {
    if iov == [] then [] else iov[0] + Gathered(iov[1..])
  }

  lemma GatheredThree(a: seq<char>, b: seq<char>, c: seq<char>)
    ensures Gathered([a, b, c]) == a + b + c && Gathered([a, b]) == a + b && Gathered([a]) == a
  {
    assert [a, b, c][1..] == [b, c] && [b, c][1..] == [c] && [a, b][1..] == [b];
    assert Gathered([c]) == c && Gathered([b]) == b && Gathered([b, c]) == b + c;
    assert a + (b + c) == a + b + c;
  }

  // a file that is written to
  class File {
    var written: seq<char>

    constructor ()
      ensures written == []
    {
      written := [];
    }

    // writev(): some of what is offered is written, unless there is an error
    method Writev(iov: seq<seq<char>>) returns (n: int)
      modifies this
      ensures -1 <= n <= |Gathered(iov)| && (Gathered(iov) != [] ==> n != 0)
      ensures written == old(written) + if n > 0 then Gathered(iov)[..n] else []
    {
      var data := Gathered(iov);
      n :| -1 <= n <= |data| && (n == 0 ==> data == []) && (data == [] ==> n == 0);
      if n > 0 {
        written := written + data[..n];
      }
    }
  }

  class OutputStream {
    const fd: File
    const buf: RingBuffer
    var ioError: bool

    ghost predicate Valid()
      reads this, buf
    {
      buf.Valid()
    }

    // what has been accepted: written, or still in the buffer
    ghost function Accepted(): seq<char>
      reads this, fd, buf, buf.buf
      requires Valid()
    {
      fd.written + buf.Contents()
    }

    constructor (fd: File, size: nat)
      requires size > 0
      ensures Valid() && this.fd == fd && fresh(buf) && fresh(buf.buf) && !ioError && Accepted() == fd.written
    {
      this.fd := fd;
      buf := new RingBuffer(size);
      ioError := false;
    }

    // the contents of the buffer, in the pieces they are in
    method Pieces() returns (first: seq<char>, second: seq<char>)
      requires Valid()
      ensures first + second == buf.Contents() && (buf.length > 0 ==> first != [])
    {
      var ptr := buf.curIdx;
      var n := buf.GetContiguousLength(ptr, 0);
      first := buf.buf[ptr..ptr + n];
      second := [];
      assert buf.Contents()[..n] + buf.Contents()[n..] == buf.Contents();
      if buf.length != n {
        second := buf.buf[..buf.length - n];
      }
    }

    // put(): how much of the message was accepted, or -1
    method Put(msg: seq<char>) returns (r: int)
      requires Valid()
      modifies this, fd, buf, buf.buf
      ensures Valid() && -1 <= r <= |msg|
      ensures r < |msg| ==> Accepted() == old(Accepted()) + if r > 0 then msg[..r] else []
      ensures r == |msg| ==> Accepted() == old(Accepted()) + msg
      ensures old(ioError) ==> r == -1 && fd.written == old(fd.written)
      ensures !old(ioError) && !ioError ==> r == |msg|
      ensures r < |msg| ==> ioError && r != 0
    {
      if ioError {
        return -1;
      }
      if |msg| == 0 {
        return 0;
      }
      hide Wrapped;
      var rest := msg;
      while |rest| > buf.buf.Length - buf.length
        invariant Valid() && !ioError && 0 < |rest| <= |msg| && rest == msg[|msg| - |rest|..]
        invariant Accepted() == old(Accepted()) + msg[..|msg| - |rest|]
        decreases buf.length + |rest|
      {
        var n := WriteRound(rest);
        MessageOn(msg, |msg| - |rest|, if n < 0 then 0 else n);
        if n < 0 {
          ioError := true;
          return if |msg| - |rest| > 0 then |msg| - |rest| else -1;
        }
        if n == |rest| {
          return |msg|;
        }
        rest := rest[n..];
      }
      PutInBuffer(msg, |msg| - |rest|, old(Accepted()));
      r := |msg|;
    }

    // what is left of a message fits in the buffer
    method PutInBuffer(msg: seq<char>, k: nat, ghost before: seq<char>)
      requires Valid() && k <= |msg| && |msg| - k <= buf.buf.Length - buf.length && Accepted() == before + msg[..k]
      modifies buf, buf.buf
      ensures Valid() && Accepted() == before + msg
    {
      ghost var contents := buf.Contents();
      buf.Append(msg[k..]);
      Appended(before, fd.written, contents, msg, k);
    }

    // one writev() of the buffer and the rest of a message: how much of that is written, or -1
    method WriteRound(rest: seq<char>) returns (n: int)
      requires Valid() && rest != []
      modifies fd, buf`curIdx, buf`length
      ensures Valid() && -1 <= n <= |rest|
      ensures Accepted() == old(Accepted()) + if n > 0 then rest[..n] else []
      ensures n == 0 ==> buf.length < old(buf.length)
      ensures n > 0 ==> buf.length == 0
    {
      var first, second := Pieces();
      GatheredThree(first, second, rest);
      ghost var written, contents := fd.written, buf.Contents();
      n := fd.Writev([first, second, rest]);
      if n < 0 {
        return;
      }
      WrittenSplit(written, contents, rest, n);
      if n >= buf.length {
        n := n - buf.length;
        buf.Consume(buf.length);
      } else {
        buf.Consume(n);
        n := 0;
      }
    }

    // flush_nx(): write what is in the buffer
    method Flush() returns (ok: bool)
      requires Valid()
      modifies this, fd, buf, buf.buf
      ensures Valid() && Accepted() == old(Accepted())
      ensures ok <==> !ioError
      ensures ok ==> fd.written == old(Accepted()) && buf.Contents() == []
      ensures old(ioError) ==> !ok && fd.written == old(fd.written)
    {
      if ioError {
        return false;
      }
      while buf.length > 0
        invariant Valid() && !ioError && Accepted() == old(Accepted())
        decreases buf.length
      {
        var written := WriteContents();
        if !written {
          ioError := true;
          return false;
        }
      }
      ok := true;
    }

    method WriteContents() returns (ok: bool)
      requires Valid() && buf.length > 0
      modifies fd, buf`curIdx, buf`length
      ensures Valid() && Accepted() == old(Accepted()) && (ok ==> buf.length < old(buf.length))
    {
      var first, second := Pieces();
      GatheredThree(first, second, []);
      ghost var written, contents := fd.written, buf.Contents();
      var n := fd.Writev(if second == [] then [first] else [first, second]);
      if n < 0 {
        return false;
      }
      WrittenSplit(written, contents, [], n);
      buf.Consume(n);
      ok := true;
    }
  }

  // n bytes of the contents and the message behind them have been written
  lemma WrittenSplit(written: seq<char>, contents: seq<char>, rest: seq<char>, n: nat)
    requires n <= |contents| + |rest|
    ensures n >= |contents| ==> written + (contents + rest)[..n] + [] == written + contents + rest[..n - |contents|]
    ensures n <= |contents| ==> written + (contents + rest)[..n] + contents[n..] == written + contents
  {
    if n >= |contents| {
      assert (contents + rest)[..n] == contents + rest[..n - |contents|];
    } else {
      assert (contents + rest)[..n] + contents[n..] == contents;
    }
  }

  lemma Appended(before: seq<char>, written: seq<char>, contents: seq<char>, msg: seq<char>, k: nat)
    requires k <= |msg| && written + contents == before + msg[..k]
    ensures written + (contents + msg[k..]) == before + msg[..|msg|] && before + msg[..|msg|] == before + msg
  {
    assert msg[..k] + msg[k..] == msg;
    assert written + (contents + msg[k..]) == written + contents + msg[k..];
    assert before + msg[..k] + msg[k..] == before + (msg[..k] + msg[k..]);
  }

  lemma MessageOn(msg: seq<char>, k: nat, n: nat)
    requires k + n <= |msg|
    ensures msg[..k] + msg[k..][..n] == msg[..k + n] && msg[k..][n..] == msg[k + n..]
  {
  }
}
