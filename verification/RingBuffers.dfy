// A circular buffer of fixed capacity.
module RingBuffers {

  // what is in buf from index cur on, wrapping around at its end
  function Wrapped(buf: seq<char>, cur: nat, length: nat): (r: seq<char>)
    requires cur < |buf| && length <= |buf|
    ensures |r| == length
  {
    if cur + length <= |buf| then buf[cur..cur + length] else buf[cur..] + buf[..cur + length - |buf|]
  }

  function Index(size: nat, cur: nat, i: nat): (p: nat)
    requires cur < size && i <= size
    ensures p < size
  {
    if cur + i >= size then cur + i - size else cur + i
  }

  lemma WrappedAt(buf: seq<char>, cur: nat, length: nat, i: nat)
    requires cur < |buf| && i < length <= |buf|
    ensures Wrapped(buf, cur, length)[i] == buf[Index(|buf|, cur, i)]
  {
  }

  // a shorter stretch from i on
  lemma WrappedSlice(buf: seq<char>, cur: nat, length: nat, i: nat, n: nat)
    requires cur < |buf| && i + n <= length <= |buf|
    ensures Wrapped(buf, Index(|buf|, cur, i), n) == Wrapped(buf, cur, length)[i..i + n]
  {
    var p := Index(|buf|, cur, i);
    forall k | 0 <= k < n ensures Wrapped(buf, p, n)[k] == Wrapped(buf, cur, length)[i..i + n][k] {
      WrappedAt(buf, p, n, k);
      WrappedAt(buf, cur, length, i + k);
    }
  }

  // what is there from byte i on is at ptr, as far as it is in one piece, and goes on at the start
  lemma WrappedFrom(buf: seq<char>, cur: nat, length: nat, i: nat, ptr: nat, n: nat)
    requires cur < |buf| && i < length <= |buf| && ptr == Index(|buf|, cur, i)
    requires n <= length - i && ptr + n <= |buf| && (n < length - i ==> ptr + n == |buf|)
    ensures buf[ptr..ptr + n] == Wrapped(buf, cur, length)[i..i + n]
    ensures n < length - i ==> buf[..length - i - n] == Wrapped(buf, cur, length)[i + n..]
  {
    WrappedSlice(buf, cur, length, i, length - i);
    var rest, all := Wrapped(buf, ptr, length - i), Wrapped(buf, cur, length);
    assert rest == all[i..length];
    assert rest[..n] == all[i..i + n] && rest[n..] == all[i + n..];
    assert rest[..n] == buf[ptr..ptr + n];
    if n < length - i {
      assert rest[n..] == buf[..length - i - n];
    }
  }

  // what is written behind the contents becomes part of them
  lemma WrappedMore(buf: seq<char>, after: seq<char>, cur: nat, length: nat, data: seq<char>)
    requires cur < |buf| == |after| && length + |data| <= |buf|
    requires forall k :: 0 <= k < length ==> after[Index(|buf|, cur, k)] == buf[Index(|buf|, cur, k)]
    requires forall k :: 0 <= k < |data| ==> after[Index(|buf|, cur, length + k)] == data[k]
    ensures Wrapped(after, cur, length + |data|) == Wrapped(buf, cur, length) + data
  {
    hide Wrapped, Index;
    forall k | 0 <= k < length + |data| ensures Wrapped(after, cur, length + |data|)[k] == (Wrapped(buf, cur, length) + data)[k] {
      WrappedAt(after, cur, length + |data|, k);
      if k < length {
        WrappedAt(buf, cur, length, k);
      } else {
        assert after[Index(|buf|, cur, length + (k - length))] == data[k - length];
      }
    }
  }

  // ... in one piece
  lemma WrappedPiece(buf: seq<char>, after: seq<char>, cur: nat, length: nat, pos: nat, data: seq<char>)
    requires cur < |buf| == |after| && length + |data| <= |buf| && pos == Index(|buf|, cur, length) && pos + |data| <= |buf|
    requires forall k :: 0 <= k < |buf| ==> after[k] == if pos <= k < pos + |data| then data[k - pos] else buf[k]
    ensures Wrapped(after, cur, length + |data|) == Wrapped(buf, cur, length) + data
  {
    forall k | 0 <= k < |data| ensures after[Index(|buf|, cur, length + k)] == data[k] {
      assert Index(|buf|, cur, length + k) == pos + k;
    }
    WrappedMore(buf, after, cur, length, data);
  }

  // the first i bytes of the contents, of which n are in one piece
  lemma TakenFront(bytes: seq<char>, ptr: nat, n: nat, contents: seq<char>, i: nat)
    requires i <= n <= |contents| && ptr + n <= |bytes| && bytes[ptr..ptr + n] == contents[..n]
    ensures bytes[ptr..ptr + i] == contents[..i] && contents == contents[..i] + contents[i..]
    ensures i < |contents| ==> contents == contents[..i] + [contents[i]] + contents[i + 1..]
  {
    assert bytes[ptr..ptr + i] == bytes[ptr..ptr + n][..i];
    assert contents[..i] == contents[..n][..i];
  }

  class RingBuffer {
    const buf: array<char>
    var curIdx: nat
    var length: nat

    ghost predicate Valid()
      reads this
    {
      curIdx < buf.Length && length <= buf.Length
    }

    ghost function Contents(): (r: seq<char>)
      reads this, buf
      requires Valid()
      ensures |r| == length
    {
      Wrapped(buf[..], curIdx, length)
    }

    constructor (size: nat)
      requires size > 0
      ensures Valid() && fresh(buf) && buf.Length == size && Contents() == []
    {
      buf := new char[size];
      curIdx, length := 0, 0;
    }

    method GetFree() returns (n: nat)
      requires Valid()
      ensures n == buf.Length - |Contents()|
    {
      n := buf.Length - length;
    }

    // how much of the contents, from ptr on, which is where byte i of them is, is in one piece
    method GetContiguousLength(ptr: nat, ghost i: nat) returns (n: nat)
      requires Valid() && (length > 0 ==> i < length && ptr == Index(buf.Length, curIdx, i))
      ensures length == 0 ==> n == 0
      ensures length > 0 ==> 0 < n <= length - i && ptr + n <= buf.Length && (n < length - i ==> ptr + n == buf.Length)
      ensures length > 0 ==> buf[ptr..ptr + n] == Contents()[i..i + n]
      ensures length > 0 && n < length - i ==> buf[..length - i - n] == Contents()[i + n..]
    {
      if length == 0 {
        return 0;
      }
      var eidx := curIdx + length;
      if eidx >= buf.Length {
        eidx := eidx - buf.Length;
      }
      n := if eidx > ptr then eidx - ptr else buf.Length - ptr;
      WrappedFrom(buf[..], curIdx, length, i, ptr, n);
    }

    // memcpy(), into the buffer
    method Copy(pos: nat, data: seq<char>)
      requires pos + |data| <= buf.Length
      modifies buf
      ensures forall k :: 0 <= k < buf.Length ==> buf[k] == if pos <= k < pos + |data| then data[k - pos] else old(buf[k])
    {
      forall k | pos <= k < pos + |data| {
        buf[k] := data[k - pos];
      }
    }

    // how much can be read into the buffer at once
    method FillLimit() returns (pos: nat, maxCount: nat)
      requires Valid()
      ensures pos < buf.Length && pos == Index(buf.Length, curIdx, length)
      ensures pos + maxCount <= buf.Length && length + maxCount <= buf.Length
      ensures length < buf.Length ==> maxCount > 0
    {
      pos := curIdx + length;
      if pos >= buf.Length {
        pos := pos - buf.Length;
      }
      maxCount := if buf.Length - pos < buf.Length - length then buf.Length - pos else buf.Length - length;
    }

    // fill(): read what there is to read, as far as it fits in one piece
    method Fill(data: seq<char>, limit: nat) returns (r: nat)
      requires Valid()
      modifies this`length, buf
      ensures Valid() && r <= limit && r <= |data| && Contents() == old(Contents()) + data[..r]
      ensures old(length) < buf.Length && data != [] && limit > 0 ==> r > 0
    {
      var pos, maxCount := FillLimit();
      r := if maxCount < limit then maxCount else limit;
      r := if |data| < r then |data| else r;
      ReadInto(pos, data[..r]);
    }

    // read(), into the buffer
    method ReadInto(pos: nat, data: seq<char>)
      requires Valid() && pos == Index(buf.Length, curIdx, length) && pos + |data| <= buf.Length && length + |data| <= buf.Length
      modifies this`length, buf
      ensures Valid() && Contents() == old(Contents()) + data
    {
      hide Wrapped, Index;
      ghost var before := buf[..];
      Copy(pos, data);
      WrappedPiece(before, buf[..], curIdx, length, pos, data);
      length := length + |data|;
    }

    method At(i: nat) returns (c: char)
      requires Valid() && i < length
      ensures c == Contents()[i]
    {
      WrappedAt(buf[..], curIdx, length, i);
      var p := curIdx + i;
      if p >= buf.Length {
        p := p - buf.Length;
      }
      c := buf[p];
    }

    // the first place of a character among the first n, or n
    method Find(c: char, n: nat) returns (i: nat)
      requires Valid() && n <= length
      ensures i <= n && c !in Contents()[..i] && (i < n ==> Contents()[i] == c)
    {
      i := 0;
      while i < n
        invariant i <= n && c !in Contents()[..i]
      {
        var d := At(i);
        if d == c {
          return;
        }
        assert Contents()[..i + 1] == Contents()[..i] + [d];
        i := i + 1;
      }
    }

    // take what is there in one piece, but n bytes at most, up to a character: also whether that was found, and taken
    method TakeUpTo(c: char, n: nat) returns (piece: seq<char>, found: bool)
      requires Valid()
      modifies this`curIdx, this`length
      ensures Valid() && c !in piece && |piece| + (if found then 1 else 0) <= n
      ensures old(Contents()) == (if found then piece + [c] else piece) + Contents()
      ensures old(length) > 0 && n > 0 ==> found || |piece| > 0
    {
      hide Wrapped;
      var contigLen := GetContiguousLength(curIdx, 0);
      var len := if contigLen < n then contigLen else n;
      var i := Find(c, len);
      piece := buf[curIdx..curIdx + i];
      found := i < len;
      ghost var contents := Contents();
      TakenFront(buf[..], curIdx, contigLen, contents, i);
      assert piece == contents[..i];
      if found {
        Consume(i + 1);
      } else {
        Consume(i);
      }
    }

    method Consume(amount: nat)
      requires Valid() && amount <= length
      modifies this`curIdx, this`length
      ensures Valid() && Contents() == old(Contents())[amount..]
    {
      WrappedSlice(buf[..], curIdx, length, amount, length - amount);
      curIdx := curIdx + amount;
      if curIdx >= buf.Length {
        curIdx := curIdx - buf.Length;
      }
      length := length - amount;
    }

    method TrimTo(newLength: nat)
      requires Valid() && newLength <= length
      modifies this`length
      ensures Valid() && Contents() == old(Contents())[..newLength]
    {
      WrappedSlice(buf[..], curIdx, length, 0, newLength);
      length := newLength;
    }

    // extract(): copy bytes out, which remain in the buffer
    method Extract(index: nat, n: nat) returns (r: seq<char>)
      requires Valid() && index + n <= length
      ensures r == Contents()[index..index + n]
    {
      WrappedSlice(buf[..], curIdx, length, index, n);
      var i := index + curIdx;
      if i >= buf.Length {
        i := i - buf.Length;
      }
      if i + n > buf.Length {
        var half := buf.Length - i;
        r := buf[i..] + buf[..n - half];
      } else {
        r := buf[i..i + n];
      }
    }

    method Append(s: seq<char>)
      requires Valid() && length + |s| <= buf.Length
      modifies this`length, buf
      ensures Valid() && Contents() == old(Contents()) + s
    {
      var index := curIdx + length;
      if index >= buf.Length {
        index := index - buf.Length;
      }
      ghost var before, len := buf[..], length;
      length := length + |s|;
      var max := buf.Length - index;
      var n := if max < |s| then max else |s|;
      Copy(index, s[..n]);
      if |s| > max {
        Copy(0, s[max..]);
      }
      hide Wrapped;
      WrappedMore(before, buf[..], curIdx, len, s);
    }

    method Reset()
      requires Valid()
      modifies this`curIdx, this`length
      ensures Valid() && Contents() == []
    {
      curIdx, length := 0, 0;
    }
  }
}
