// The whole environment, sent over a control connection and read back.
module EnvironmentBlocks {
  import opened ByteNumbers
  import opened Wrappers
  import opened RingBuffers

  const NUL: char := 0 as char

  // Unguarded: the program goes on with bytes that never arrived, so that nothing more can be said
  datatype ReadError = EndOfStream | ProtocolError | Unguarded

  // the width of a size_t
  const WIDTH: nat := 8

  // ---- the block ----

  // each variable, ended by a null
  function Block(vars: seq<string>): seq<char> {
    if vars == [] then [] else Block(vars[..|vars| - 1]) + vars[|vars| - 1] + [NUL]
  }

  lemma BlockBack(vars: seq<string>, text: string)
    ensures Block(vars + [text]) == Block(vars) + text + [NUL]
  {
    assert (vars + [text])[..|vars|] == vars;
  }

  // what a block reads as, the first variable continuing cur
  function Variables(cur: string, block: seq<char>): Result<seq<string>, ReadError>
    decreases |block|
  {
    if block == [] then Err(ProtocolError)
    else if block[0] != NUL then Variables(cur + [block[0]], block[1..])
    else if |block| == 1 then Ok([cur])
    else Also([cur], Variables("", block[1..]))
  }

  function Also(vars: seq<string>, r: Result<seq<string>, ReadError>): Result<seq<string>, ReadError> {
    if r.Err? then r else Ok(vars + r.value)
  }

  predicate NoNulls(vars: seq<string>) {
    forall i :: 0 <= i < |vars| ==> NUL !in vars[i]
  }

  lemma {:induction false} VariablesOn(cur: string, text: string, block: seq<char>)
    requires NUL !in text
    ensures Variables(cur, text + block) == Variables(cur + text, block)
    decreases |text|
  {
    if text == "" {
      assert text + block == block && cur + text == cur;
    } else {
      assert (text + block)[1..] == text[1..] + block;
      assert cur + [text[0]] + text[1..] == cur + text;
      VariablesOn(cur + [text[0]], text[1..], block);
    }
  }

  lemma {:induction false} BlockFront(vars: seq<string>)
    requires vars != []
    ensures Block(vars) == vars[0] + ([NUL] + Block(vars[1..]))
    decreases |vars|
  {
    var n := |vars| - 1;
    if n == 0 {
      assert Block(vars[..0]) == [] && vars[1..] == [];
    } else {
      BlockFront(vars[..n]);
      assert vars[..n][1..] == vars[1..][..n - 1] && vars[1..][n - 1] == vars[n];
      assert Block(vars[1..]) == Block(vars[1..n]) + vars[n] + [NUL];
      assert vars[0] + ([NUL] + Block(vars[1..n])) + vars[n] + [NUL] == vars[0] + ([NUL] + (Block(vars[1..n]) + vars[n] + [NUL]));
    }
  }

  // A block reads back as the variables it was made of
  lemma {:induction false} BlockReadBack(vars: seq<string>)
    requires vars != [] && NoNulls(vars)
    ensures Variables("", Block(vars)) == Ok(vars)
    decreases |vars|
  {
    BlockFront(vars);
    VariablesOn("", vars[0], [NUL] + Block(vars[1..]));
    assert "" + vars[0] == vars[0];
    var rest := [NUL] + Block(vars[1..]);
    assert rest[1..] == Block(vars[1..]);
    if |vars| == 1 {
      assert vars[1..] == [] && vars == [vars[0]];
    } else {
      BlockReadBack(vars[1..]);
      BlockFront(vars[1..]);
      assert vars == [vars[0]] + vars[1..];
    }
  }

  // ---- the reply ----

  const ALLENV: char := 78 as char
  const HEADER: nat := 1 + WIDTH

  // the reply to a request for the whole environment, whose assignments are vars; an undefined entry is skipped
  method GetAllEnv(vars: seq<Option<string>>) returns (packet: seq<char>)
    ensures packet == Reply(Present(vars))
  {
    var block := [];
    for i := 0 to |vars|
      invariant block == Block(Present(vars[..i]))
    {
      assert vars[..i + 1][..i] == vars[..i];
      match vars[i] {
        case Some(text) =>
          BlockBack(Present(vars[..i]), text);
          block := block + text + [NUL];
        case None =>
          assert Present(vars[..i]) + [] == Present(vars[..i]);
      }
    }
    assert vars[..|vars|] == vars;
    packet := [ALLENV] + SizeBytes(|block|, WIDTH) + block;
  }

  function Present(vars: seq<Option<string>>): seq<string> {
    if vars == [] then []
    else Present(vars[..|vars| - 1]) + match vars[|vars| - 1] { case Some(text) => [text] case None => [] }
  }

  function Reply(vars: seq<string>): seq<char> {
    [ALLENV] + SizeBytes(|Block(vars)|, WIDTH) + Block(vars)
  }

  // What is to be read from a reply and anything behind it
  function Read(stream: seq<char>): Result<seq<string>, ReadError> {
    if stream == [] || stream[0] != ALLENV then Err(ProtocolError)
    else if |stream| < HEADER then Err(Unguarded)
    else
      var size := SizeOf(stream[1..HEADER]);
      if size == 0 then Ok([])
      else if |stream| < HEADER + size then Err(EndOfStream)
      else Variables("", stream[HEADER..HEADER + size])
  }

  // what follows a reply
  function BehindReply(stream: seq<char>): seq<char>
    requires Read(stream).Ok?
  {
    stream[HEADER + SizeOf(stream[1..HEADER])..]
  }

  // The reply reads back as the environment that was sent, whatever follows it
  lemma {:induction false} ReplyReadBack(vars: seq<string>, behind: seq<char>)
    requires NoNulls(vars) && |Block(vars)| < Power256(WIDTH)
    ensures Read(Reply(vars) + behind) == Ok(vars)
  {
    var block, stream := Block(vars), Reply(vars) + behind;
    assert stream[1..HEADER] == SizeBytes(|block|, WIDTH);
    SizeReadBack(|block|, WIDTH);
    assert stream[HEADER..HEADER + |block|] == block;
    if vars != [] {
      BlockReadBack(vars);
    }
  }

  // ---- information packets, which may come before a reply ----

  predicate IsInfo(first: char) {
    100 <= first as int < 128
  }

  // the stream from the first packet on that is not an information packet
  function AfterInfo(stream: seq<char>): Result<seq<char>, ReadError>
    decreases |stream|
  {
    if stream == [] then Err(EndOfStream)
    else if !IsInfo(stream[0]) then Ok(stream)
    else if |stream| < 2 then Err(EndOfStream)
    else
      var n := (stream[1] as int) % 256;
      if n == 0 then Err(Unguarded)
      else if |stream| < 1 + n then Err(EndOfStream)
      else AfterInfo(stream[n..])
  }

  // ---- a client of the daemon ----

  class Client {
    const buf: RingBuffer
    // what the daemon has still sent
    var remaining: seq<char>

    ghost predicate Valid()
      reads this, buf
    {
      buf.Valid() && buf.buf.Length == 1024
    }

    // what is still to be taken from the buffer
    ghost function Stream(): seq<char>
      reads this, buf, buf.buf
      requires Valid()
    {
      buf.Contents() + remaining
    }

    constructor (sent: seq<char>)
      ensures Valid() && Stream() == sent && fresh(buf) && fresh(buf.buf)
    {
      buf := new RingBuffer(1024);
      remaining := sent;
    }

    // fill_some(): how much a read() yields is up to the system
    method FillSome() returns (ok: bool)
      requires Valid() && buf.length < 1024
      modifies this, buf, buf.buf
      ensures Valid() && Stream() == old(Stream())
      ensures ok ==> buf.length > old(buf.length)
      ensures !ok ==> remaining == [] && buf.length == old(buf.length)
    {
      hide Wrapped;
      var limit: nat :| limit > 0;
      var r: nat := buf.Fill(remaining, limit);
      Moved(old(buf.Contents()), remaining, r);
      remaining := remaining[r..];
      ok := r > 0;
    }

    method FillTo(n: nat) returns (ok: bool)
      requires Valid() && n <= 1024
      modifies this, buf, buf.buf
      ensures Valid() && Stream() == old(Stream())
      ensures ok <==> |old(Stream())| >= n
      ensures ok ==> buf.length >= n
    {
      while buf.length < n
        invariant Valid() && Stream() == old(Stream())
        decreases 1024 - buf.length
      {
        ok := FillSome();
        if !ok {
          return;
        }
      }
      ok := true;
    }

    method Consume(n: nat)
      requires Valid() && n <= buf.length
      modifies this, buf
      ensures Valid() && Stream() == old(Stream())[n..] && buf.length == old(buf.length) - n
    {
      buf.Consume(n);
      assert old(Stream())[n..] == buf.Contents() + remaining;
    }

    // wait_for_reply(): pass over information packets
    method WaitForReply() returns (r: Result<bool, ReadError>)
      requires Valid()
      modifies this, buf, buf.buf
      ensures Valid()
      ensures AfterInfo(old(Stream())).Ok? ==> r.Ok? && Stream() == AfterInfo(old(Stream())).value && buf.length > 0
      ensures AfterInfo(old(Stream())).Err? ==> r == Err(AfterInfo(old(Stream())).error)
    {
      hide Wrapped;
      var ok := FillTo(1);
      if !ok {
        return Err(EndOfStream);
      }
      var first := buf.At(0);
      while IsInfo(first)
        invariant Valid() && buf.length > 0 && first == Stream()[0] && AfterInfo(Stream()) == AfterInfo(old(Stream()))
        decreases |Stream()|
      {
        ok := FillTo(2);
        if !ok {
          return Err(EndOfStream);
        }
        var second := buf.At(1);
        var n := (second as int) % 256;
        if n == 0 {
          return Err(Unguarded);
        }
        ghost var stream := Stream();
        Consume(1);
        ok := FillTo(n);
        if !ok {
          return Err(EndOfStream);
        }
        Consume(n - 1);
        assert stream[1..][n - 1..] == stream[n..];
        first := buf.At(0);
      }
      r := Ok(true);
    }

    // the next piece of a variable, up to its end or as far as it is in the buffer
    method TakePiece(dataSize: nat) returns (piece: string, ended: bool)
      requires Valid() && dataSize > 0
      modifies this, buf
      ensures Valid() && NUL !in piece && |piece| + (if ended then 1 else 0) <= dataSize
      ensures old(Stream()) == (if ended then piece + [NUL] else piece) + Stream()
      ensures old(buf.length) > 0 ==> ended || |piece| > 0
    {
      hide Wrapped;
      piece, ended := buf.TakeUpTo(NUL, dataSize);
      assert old(buf.Contents()) + remaining == (if ended then piece + [NUL] else piece) + (buf.Contents() + remaining);
    }

    method ReadVariables(size: nat) returns (r: Result<seq<string>, ReadError>)
      requires Valid() && size > 0
      modifies this, buf, buf.buf
      ensures Valid()
      ensures |old(Stream())| < size ==> r == Err(EndOfStream)
      ensures |old(Stream())| >= size ==> r == Variables("", old(Stream())[..size]) && Stream() == old(Stream())[size..]
    {
      hide Wrapped, ReadSoFar, Variables;
      ghost var total := Stream();
      if buf.length == 0 {
        var ok := FillSome();
        if !ok {
          return Err(EndOfStream);
        }
      }
      var dataSize: nat, envVar, vars := size, "", [];
      ReadingStarts(total, size);
      while dataSize > 0
        invariant Valid() && dataSize <= size && ReadSoFar(total, size, dataSize, vars, envVar, Stream())
        invariant dataSize > 0
        decreases dataSize, buf.length == 0
      {
        ghost var before := Stream();
        var piece, ended := TakePiece(dataSize);
        PieceRead(total, size, dataSize, vars, envVar, before, piece, ended, Stream());
        envVar := envVar + piece;
        dataSize := dataSize - |piece|;
        if ended {
          dataSize := dataSize - 1;
          vars, envVar := vars + [envVar], "";
          if dataSize == 0 {
            return Ok(vars);
          }
        } else {
          if dataSize == 0 {
            BlockUnended(total, size, vars, envVar, Stream());
            return Err(ProtocolError);
          }
          if buf.length == 0 {
            var ok := FillSome();
            if !ok {
              StreamEnded(total, size, dataSize, vars, envVar);
              return Err(EndOfStream);
            }
          }
        }
      }
      assert false;
    }

    // get_remote_env(), once the request has been sent
    method GetRemoteEnv() returns (r: Result<seq<string>, ReadError>)
      requires Valid()
      modifies this, buf, buf.buf
      ensures Valid()
      ensures AfterInfo(old(Stream())).Err? ==> r == Err(AfterInfo(old(Stream())).error)
      ensures AfterInfo(old(Stream())).Ok? ==> r == Read(AfterInfo(old(Stream())).value)
      ensures r.Ok? ==> AfterInfo(old(Stream())).Ok? && Stream() == BehindReply(AfterInfo(old(Stream())).value)
    {
      hide Wrapped, Variables, SizeOf, AfterInfo;
      var reply := WaitForReply();
      if reply.Err? {
        return Err(reply.error);
      }
      ghost var stream := Stream();
      var first := buf.At(0);
      if first != ALLENV {
        return Err(ProtocolError);
      }
      var ok := FillTo(HEADER);
      if !ok {
        return Err(Unguarded);
      }
      var bytes := buf.Extract(1, WIDTH);
      assert bytes == stream[1..HEADER];
      var size := SizeOf(bytes);
      Consume(HEADER);
      if size == 0 {
        return Ok([]);
      }
      r := ReadVariables(size);
      assert |stream| >= HEADER + size ==> stream[HEADER..][..size] == stream[HEADER..HEADER + size];
      assert |stream| >= HEADER + size ==> stream[HEADER..][size..] == stream[HEADER + size..];
    }
  }

  // ---- steps of the client ----

  lemma Moved(contents: seq<char>, remaining: seq<char>, r: nat)
    requires r <= |remaining|
    ensures contents + remaining[..r] + remaining[r..] == contents + remaining
  {
    assert remaining[..r] + remaining[r..] == remaining;
    assert contents + remaining[..r] + remaining[r..] == contents + (remaining[..r] + remaining[r..]);
  }

  // vars have been read of a block of the given size, and cur of the variable after them; dataSize bytes are to come
  ghost predicate ReadSoFar(total: seq<char>, size: nat, dataSize: nat, vars: seq<string>, cur: string, stream: seq<char>) {
    && dataSize <= size <= |total| + dataSize
    && stream == total[size - dataSize..]
    && (|total| >= size ==> Variables("", total[..size]) == Also(vars, Variables(cur, total[size - dataSize..size])))
  }

  lemma ReadingStarts(total: seq<char>, size: nat)
    ensures ReadSoFar(total, size, size, [], "", total)
  {
    if |total| >= size {
      assert total[0..size] == total[..size];
      var r := Variables("", total[..size]);
      assert r.Ok? ==> [] + r.value == r.value;
    }
  }

  lemma BlockUnended(total: seq<char>, size: nat, vars: seq<string>, cur: string, after: seq<char>)
    requires ReadSoFar(total, size, 0, vars, cur, after)
    ensures |total| >= size && Variables("", total[..size]) == Err(ProtocolError) && after == total[size..]
  {
  }

  lemma StreamEnded(total: seq<char>, size: nat, dataSize: nat, vars: seq<string>, cur: string)
    requires ReadSoFar(total, size, dataSize, vars, cur, []) && dataSize > 0
    ensures |total| < size
  {
  }

  lemma AlsoAlso(vars: seq<string>, text: string, r: Result<seq<string>, ReadError>)
    ensures Also(vars, Also([text], r)) == Also(vars + [text], r)
    ensures Also(vars, Ok([text])) == Ok(vars + [text])
  {
    assert r.Ok? ==> vars + ([text] + r.value) == vars + [text] + r.value;
  }

  lemma PieceRead(total: seq<char>, size: nat, dataSize: nat, vars: seq<string>, cur: string, before: seq<char>,
        piece: string, ended: bool, after: seq<char>)
    requires ReadSoFar(total, size, dataSize, vars, cur, before) && dataSize > 0
    requires NUL !in piece && |piece| + (if ended then 1 else 0) <= dataSize
    requires before == (if ended then piece + [NUL] else piece) + after
    ensures !ended ==> ReadSoFar(total, size, dataSize - |piece|, vars, cur + piece, after)
    ensures ended && dataSize > |piece| + 1 ==> ReadSoFar(total, size, dataSize - |piece| - 1, vars + [cur + piece], "", after)
    ensures ended && dataSize == |piece| + 1 ==> Variables("", total[..size]) == Ok(vars + [cur + piece])
    ensures |total| >= size - dataSize + |piece| + (if ended then 1 else 0) && after == total[size - dataSize + |piece| + (if ended then 1 else 0)..]
    ensures |after| == |before| - |piece| - (if ended then 1 else 0)
  {
    var left := dataSize - |piece| - (if ended then 1 else 0);
    assert after == total[size - left..];
    if |total| >= size {
      var block := total[size - dataSize..size];
      var rest := block[|piece|..];
      assert block == piece + rest by {
        assert block == before[..dataSize];
      }
      VariablesOn(cur, piece, rest);
      assert rest == total[size - dataSize + |piece|..size];
      if ended {
        assert rest[0] == NUL && rest[1..] == total[size - left..size];
        AlsoAlso(vars, cur + piece, Variables("", rest[1..]));
      }
    }
  }

  // Information packets are passed over, however many there are
  ghost predicate InfoPacket(packet: seq<char>) {
    |packet| >= 2 && IsInfo(packet[0]) && packet[1] as int == |packet| < 256
  }

  function Joined(packets: seq<seq<char>>): seq<char> {
    if packets == [] then [] else packets[0] + Joined(packets[1..])
  }

  lemma {:induction false} InfoPassed(infos: seq<seq<char>>, stream: seq<char>)
    requires forall i :: 0 <= i < |infos| ==> InfoPacket(infos[i])
    requires stream != [] && !IsInfo(stream[0])
    ensures AfterInfo(Joined(infos) + stream) == Ok(stream)
    decreases |infos|
  {
    if infos == [] {
      assert Joined(infos) + stream == stream;
    } else {
      var rest := Joined(infos[1..]) + stream;
      assert Joined(infos) + stream == infos[0] + rest;
      assert (infos[0] + rest)[|infos[0]|..] == rest;
      InfoPassed(infos[1..], stream);
    }
  }

  // The environment a client gets is the one the daemon has sent, and no byte behind it is taken
  lemma {:induction false} EnvironmentReceived(infos: seq<seq<char>>, vars: seq<string>, behind: seq<char>)
    requires forall i :: 0 <= i < |infos| ==> InfoPacket(infos[i])
    requires NoNulls(vars) && |Block(vars)| < Power256(WIDTH)
    ensures var sent := Reply(vars) + behind;
            && AfterInfo(Joined(infos) + sent) == Ok(sent) && Read(sent) == Ok(vars)
            && BehindReply(sent) == behind
  {
    var block, sent := Block(vars), Reply(vars) + behind;
    InfoPassed(infos, sent);
    ReplyReadBack(vars, behind);
    SizeReadBack(|block|, WIDTH);
    assert sent[1..HEADER] == SizeBytes(|block|, WIDTH);
  }
}
