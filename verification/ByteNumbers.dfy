// Numbers as bytes, the least significant first.
module ByteNumbers {
  function SizeBytes(n: nat, width: nat): (r: seq<char>)
    ensures |r| == width
  {
    if width == 0 then [] else [(n % 256) as char] + SizeBytes(n / 256, width - 1)
  }

  function SizeOf(bytes: seq<char>): nat {
    if bytes == [] then 0 else (bytes[0] as int) % 256 + 256 * SizeOf(bytes[1..])
  }

  function Power256(width: nat): (r: nat)
    ensures r > 0
  {
    if width == 0 then 1 else 256 * Power256(width - 1)
  }

  lemma {:induction false} SizeReadBack(n: nat, width: nat)
    requires n < Power256(width)
    ensures SizeOf(SizeBytes(n, width)) == n
  {
    if width > 0 {
      assert n / 256 < Power256(width - 1);
      SizeReadBack(n / 256, width - 1);
      assert SizeBytes(n, width)[1..] == SizeBytes(n / 256, width - 1);
    }
  }
}
