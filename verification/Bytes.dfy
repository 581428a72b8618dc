/** Little-endian words in memory. */
module Bytes {
  import opened Base

  type Byte = b: nat | b < 256

  function Pow256(n: nat): (p: nat)
    ensures 0 < p
  {
    if n == 0 then 1 else 256 * Pow256(n - 1)
  }

  function Encode(w: nat, n: nat): (bs: seq<Byte>)
    ensures |bs| == n
  {
    if n == 0 then [] else [w % 256] + Encode(w / 256, n - 1)
  }

  function Decode(bs: seq<Byte>): (w: nat)
    ensures w < Pow256(|bs|)
  {
    if bs == [] then 0 else bs[0] + 256 * Decode(bs[1..])
  }

  lemma {:induction false} DecodeEncode(w: nat, n: nat)
    requires w < Pow256(n)
    ensures Decode(Encode(w, n)) == w
  {
    if 0 < n {
      DecodeEncode(w / 256, n - 1);
      assert Encode(w, n)[1..] == Encode(w / 256, n - 1);
    }
  }

  lemma {:induction false} EncodeDecode(bs: seq<Byte>)
    ensures Encode(Decode(bs), |bs|) == bs
  {
    if bs != [] {
      EncodeDecode(bs[1..]);
      assert Decode(bs) % 256 == bs[0] && Decode(bs) / 256 == Decode(bs[1..]);
    }
  }

  /***** Words *****/

  lemma Pow8()
    ensures Pow256(8) == TWO64
  {
    assert Pow256(4) == 0x1_0000_0000;
    assert Pow256(6) == 0x1_0000_0000_0000;
  }

  function EncodeWord(w: Word): (bs: seq<Byte>)
    ensures |bs| == 8
  {
    Encode(w, 8)
  }

  function DecodeWord(bs: seq<Byte>): Word
    requires |bs| == 8
  {
    Pow8();
    Decode(bs)
  }

  lemma WordRoundTrip(w: Word)
    ensures DecodeWord(EncodeWord(w)) == w
  {
    Pow8();
    DecodeEncode(w, 8);
  }

  /** Eight bytes are determined by the word they hold. */
  lemma BytesOfWord(bs: seq<Byte>)
    requires |bs| == 8
    ensures EncodeWord(DecodeWord(bs)) == bs
  {
    EncodeDecode(bs);
  }

  lemma DecodeTwo(bs: seq<Byte>)
    requires 2 <= |bs|
    ensures Decode(bs) == bs[0] as nat + 0x100 * (bs[1] as nat) + 0x1_0000 * Decode(bs[2..])
  {
    assert bs[1..][1..] == bs[2..];
  }

  /** The first byte of a word is the least significant one. */
  lemma LittleEndian(bs: seq<Byte>)
    requires |bs| == 8
    ensures DecodeWord(bs) ==
            bs[0] as nat + 0x100 * (bs[1] as nat) + 0x1_0000 * (bs[2] as nat) + 0x100_0000 * (bs[3] as nat)
            + 0x1_0000_0000 * (bs[4] as nat) + 0x100_0000_0000 * (bs[5] as nat)
            + 0x1_0000_0000_0000 * (bs[6] as nat) + 0x100_0000_0000_0000 * (bs[7] as nat)
  {
    DecodeTwo(bs);
    DecodeTwo(bs[2..]);
    assert bs[2..][2..] == bs[4..];
    DecodeTwo(bs[4..]);
    assert bs[4..][2..] == bs[6..];
    DecodeTwo(bs[6..]);
    assert bs[6..][2..] == [];
  }
}
