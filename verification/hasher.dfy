/** The key hasher: 32-bit FNV-1a, as described in section 2 ("FNV Basics")
    of the IETF draft draft-eastlake-fnv. `bv32` arithmetic is arithmetic
    modulo 2^32, which is exactly Go's `uint32` wrap-around. */
module Hasher {
  import opened Bytes

  /** The FNV-1a 32-bit offset basis and prime. */
  const Offset32: bv32 := 2166136261
  const Prime32: bv32 := 16777619

  /** One round: xor the byte into the low bits, then multiply by the prime. */
  function Step(h: bv32, b: byte): bv32 {
    (h ^ b as bv32) * Prime32
  }

  /** The hash of a key, one round per byte, the last byte last. */
  function HashOf(key: seq<byte>): bv32 {
    if key == [] then Offset32 else Step(HashOf(key[..|key| - 1]), key[|key| - 1])
  }

  /** Left fold of the rounds over the bytes, starting from accumulator `h`. */
  function FoldBytes(h: bv32, key: seq<byte>): bv32
    decreases |key|
  {
    if key == [] then h else FoldBytes(Step(h, key[0]), key[1..])
  }

  /** Go's `Hash32`: the accumulator starts at the offset basis and every
      byte of the key updates it in order. */
  method Hash32(key: seq<byte>) returns (hash: bv32)
    ensures hash == HashOf(key)
    ensures key == [] ==> hash == 2166136261
  {
    hash := Offset32;
    for i := 0 to |key|
      invariant hash == HashOf(key[..i])
    {
      assert key[..i + 1][..i] == key[..i];
      hash := Step(hash, key[i]);
    }
    assert key[..|key|] == key;
  }

  /** Appending a byte to the key applies one more round to its hash. */
  lemma HashOfAppend(key: seq<byte>, b: byte)
    ensures HashOf(key + [b]) == Step(HashOf(key), b)
  {
    assert (key + [b])[..|key|] == key;
  }

  /** Folding over `key + [b]` is folding over `key`, then one round. */
  lemma {:induction false} FoldBytesAppend(h: bv32, key: seq<byte>, b: byte)
    ensures FoldBytes(h, key + [b]) == Step(FoldBytes(h, key), b)
    decreases |key|
  {
    if key != [] {
      assert (key + [b])[1..] == key[1..] + [b];
      FoldBytesAppend(Step(h, key[0]), key[1..], b);
    }
  }

  /** The hash equals the left fold of the rounds from the offset basis. */
  lemma {:induction false} HashIsLeftFold(key: seq<byte>)
    ensures HashOf(key) == FoldBytes(Offset32, key)
  {
    if key != [] {
      var init := key[..|key| - 1];
      HashIsLeftFold(init);
      FoldBytesAppend(Offset32, init, key[|key| - 1]);
      assert init + [key[|key| - 1]] == key;
    }
  }

  /** Published FNV-1a 32-bit test vectors: the empty key and "a". */
  lemma ShortVectors()
    ensures HashOf([]) == 0x811c9dc5
    ensures HashOf(Ascii("a")) == 0xe40c292c
  {
    assert Ascii("a") == [97];
    HashOfAppend([], 97);
  }

  /** The hash of "foo", byte by byte: the first half of the "foobar" vector. */
  lemma FooPrefix()
    ensures HashOf([102, 111, 111]) == 0xa9f37ed7
  {
    HashOfAppend([], 102);
    assert HashOf([102]) == 0xe30c2799;
    HashOfAppend([102], 111);
    assert HashOf([102, 111]) == 0x6222e842;
    HashOfAppend([102, 111], 111);
  }

  /** The published FNV-1a 32-bit test vector for "foobar", byte by byte. */
  lemma FoobarVector()
    ensures HashOf(Ascii("foobar")) == 0xbf9cf968
  {
    assert Ascii("foobar") == [102, 111, 111, 98, 97, 114];
    FooPrefix();
    HashOfAppend([102, 111, 111], 98);
    assert [102, 111, 111] + [98] == [102, 111, 111, 98];
    assert HashOf([102, 111, 111, 98]) == 0x3f5076ef;
    HashOfAppend([102, 111, 111, 98], 97);
    assert [102, 111, 111, 98] + [97] == [102, 111, 111, 98, 97];
    assert HashOf([102, 111, 111, 98, 97]) == 0x39aaa18a;
    HashOfAppend([102, 111, 111, 98, 97], 114);
    assert [102, 111, 111, 98, 97] + [114] == [102, 111, 111, 98, 97, 114];
  }
}
