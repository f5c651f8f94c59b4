// Buffered input.
module InputStreams {
  import opened RingBuffers
  import opened Sequences

  // the lines of a text of which cur has been read of the first; there is one behind each delimiter
  function LinesOf(cur: string, text: seq<char>, delim: char): seq<string>
    decreases |text|
  {
    if text == [] then [cur]
    else if text[0] == delim then [cur] + LinesOf("", text[1..], delim)
    else LinesOf(cur + [text[0]], text[1..], delim)
  }

  function JoinedBy(lines: seq<string>, delim: char): string {
    if lines == [] then "" else if |lines| == 1 then lines[0] else lines[0] + [delim] + JoinedBy(lines[1..], delim)
  }

  lemma {:induction false} LinesOn(cur: string, text: string, rest: seq<char>, delim: char)
    requires delim !in text
    ensures LinesOf(cur, text + rest, delim) == LinesOf(cur + text, rest, delim)
    decreases |text|
  {
    if text == "" {
      assert text + rest == rest && cur + text == cur;
    } else {
      assert (text + rest)[1..] == text[1..] + rest;
      assert cur + [text[0]] + text[1..] == cur + text;
      LinesOn(cur + [text[0]], text[1..], rest, delim);
    }
  }

  lemma NextLine(line: string, rest: seq<char>, delim: char)
    requires delim !in line
    ensures LinesOf("", line + [delim] + rest, delim) == [line] + LinesOf("", rest, delim)
    ensures LinesOf("", line, delim) == [line]
  {
    assert line + [delim] + rest == line + ([delim] + rest) && ([delim] + rest)[1..] == rest;
    LinesOn("", line, [delim] + rest, delim);
    LinesOn("", line, [], delim);
    assert line + [] == line && "" + line == line;
  }

  // Lines that are written with a delimiter between them are read as they were
  lemma {:induction false} LinesReadBack(lines: seq<string>, delim: char)
    requires lines != [] && forall i :: 0 <= i < |lines| ==> delim !in lines[i]
    ensures LinesOf("", JoinedBy(lines, delim), delim) == lines
    decreases |lines|
  {
    if |lines| == 1 {
      NextLine(lines[0], [], delim);
    } else {
      LinesReadBack(lines[1..], delim);
      NextLine(lines[0], JoinedBy(lines[1..], delim), delim);
    }
  }

  class InputStream {
    const buf: RingBuffer
    // what is still to be read from the file
    var remaining: seq<char>
    var eofState: bool
    var ioError: bool

    ghost predicate Valid()
      reads this, buf
    {
      buf.Valid()
    }

    predicate Good()
      reads this
    {
      !eofState && !ioError
    }

    ghost function Stream(): seq<char>
      reads this, buf, buf.buf
      requires Valid()
    {
      buf.Contents() + remaining
    }

    constructor (contents: seq<char>, size: nat)
      requires size > 0
      ensures Valid() && Good() && Stream() == contents && fresh(buf) && fresh(buf.buf)
    {
      buf := new RingBuffer(size);
      remaining, eofState, ioError := contents, false, false;
    }

    // load_into_buf(), when there is nothing in the buffer: a read may yield less than there is, or fail
    method LoadIntoBuf() returns (ok: bool)
      requires Valid() && Good() && buf.length == 0
      modifies this, buf, buf.buf
      ensures Valid() && Stream() == old(Stream())
      ensures ok <==> Good()
      ensures ok ==> buf.length > 0
      ensures eofState ==> !ioError && Stream() == []
    {
      hide Wrapped;
      var fails: bool := *;
      if fails {
        ioError := true;
        return false;
      }
      var limit: nat :| limit > 0;
      var r := buf.Fill(remaining, limit);
      if r == 0 {
        eofState := true;
        return false;
      }
      assert remaining[..r] + remaining[r..] == remaining;
      assert old(buf.Contents()) == [] && buf.Contents() == remaining[..r];
      remaining := remaining[r..];
      ok := true;
    }

    // what is in the buffer in one piece, up to a delimiter if there is one
    method TakePiece(delim: char) returns (piece: string, found: bool)
      requires Valid()
      modifies buf
      ensures Valid() && delim !in piece
      ensures old(Stream()) == (if found then piece + [delim] else piece) + Stream()
      ensures old(buf.length) > 0 ==> found || |piece| > 0
      ensures |Stream()| < |old(Stream())| || old(buf.length) == 0
    {
      hide Wrapped;
      piece, found := buf.TakeUpTo(delim, buf.length);
      assert old(buf.Contents()) + remaining == (if found then piece + [delim] else piece) + (buf.Contents() + remaining);
    }

    // get_line_nx(): whether a line ended by a delimiter could be read
    method GetLine(delim: char) returns (ok: bool, dest: string)
      requires Valid()
      modifies this, buf, buf.buf
      ensures Valid() && (ok ==> Good()) && (!old(Good()) ==> !ok && Stream() == old(Stream()))
      ensures old(Good()) ==> delim !in dest && (ok <==> Good())
      ensures ok ==> old(Stream()) == dest + [delim] + Stream()
      ensures old(Good()) && !ok ==> old(Stream()) == dest + Stream() && (eofState ==> !ioError && Stream() == [])
    {
      hide Wrapped;
      dest := "";
      if !Good() {
        return false, dest;
      }
      if buf.length == 0 {
        ok := LoadIntoBuf();
        if !ok {
          return;
        }
      }
      var piece, found := TakePiece(delim);
      while !found
        invariant Valid() && Good() && delim !in dest && delim !in piece
        invariant old(Stream()) == dest + (if found then piece + [delim] else piece) + Stream()
        decreases |Stream()|, !found
      {
        dest := dest + piece;
        if buf.length == 0 {
          ok := LoadIntoBuf();
          if !ok {
            return;
          }
        }
        ghost var before := Stream();
        piece, found := TakePiece(delim);
        Assoc(dest, if found then piece + [delim] else piece, Stream());
      }
      Assoc(dest, piece, [delim]);
      dest := dest + piece;
      ok := true;
    }

    // get_line_until_eof_nx(): the end of the file ends a line, too
    method GetLineUntilEof(delim: char) returns (ok: bool, dest: string)
      requires Valid()
      modifies this, buf, buf.buf
      ensures Valid() && (!old(Good()) ==> !ok && Stream() == old(Stream()) && eofState == old(eofState) && ioError == old(ioError))
      ensures old(Good()) ==> (ok <==> !ioError) && (ioError ==> !eofState)
      ensures ok ==> LinesOf("", old(Stream()), delim) == if eofState then [dest] else [dest] + LinesOf("", Stream(), delim)
      ensures ok && !eofState ==> |Stream()| < |old(Stream())|
    {
      dest := "";
      if !Good() {
        return false, dest;
      }
      hide Wrapped;
      ok, dest := GetLine(delim);
      NextLine(dest, Stream(), delim);
      if !ok {
        assert eofState ==> dest + [] == dest;
        if ioError {
          return;
        }
        ok := true;
      }
    }

    // every line of a file, as it is processed line by line
    method ReadLines(delim: char) returns (lines: seq<string>)
      requires Valid() && Good()
      modifies this, buf, buf.buf
      ensures Valid() && !Good()
      ensures ioError ==> lines <= LinesOf("", old(Stream()), delim)
      ensures !ioError ==> lines == LinesOf("", old(Stream()), delim)
    {
      hide Wrapped, LinesOf;
      lines := [];
      var ok, line := GetLineUntilEof(delim);
      ghost var goal := LinesOf("", old(Stream()), delim);
      while ok
        invariant Valid() && (ok ==> !ioError)
        invariant ok ==> goal == lines + if eofState then [line] else [line] + LinesOf("", Stream(), delim)
        invariant !ok ==> !Good() && lines <= goal && (!ioError ==> lines == goal)
        decreases ok, Good(), |Stream()|
      {
        Assoc(lines, [line], LinesOf("", Stream(), delim));
        lines := lines + [line];
        ghost var rest := LinesOf("", Stream(), delim);
        ok, line := GetLineUntilEof(delim);
      }
    }
  }
}
