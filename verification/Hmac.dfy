/** HMAC over a hash to 32 bytes, and the comparison of signatures. The hash is a parameter. */
module Hmac {

  type Bytes = seq<bv8>

  type Digest = d: Bytes | |d| == 32 witness seq(32, _ => 0)

  type Hash = Bytes -> Digest

  const BLOCK_SIZE: nat := 64

  // ----- the definition, section 2 of RFC 2104 -----

  function Zeros(n: nat): Bytes {
    seq(n, _ => 0)
  }

  /** The key, hashed first if it is longer than a block, then padded with zeros to a block. */
  function KeyBlock(hash: Hash, key: Bytes): (k: Bytes)
    ensures |k| == BLOCK_SIZE
  {
    var short := if |key| > BLOCK_SIZE then hash(key) else key;
    short + Zeros(BLOCK_SIZE - |short|)
  }

  function Padded(k: Bytes, pad: bv8): (r: Bytes)
    ensures |r| == |k|
  {
    seq(|k|, i requires 0 <= i < |k| => k[i] ^ pad)
  }

  function Mac(hash: Hash, key: Bytes, message: Bytes): Digest {
    var k := KeyBlock(hash, key);
    hash(Padded(k, 0x5c) + hash(Padded(k, 0x36) + message))
  }

  /** The code, written out: the hash of the outer pad and of the hash of the inner pad and the message, where the
      pads are blocks of 64 bytes, the key's xored with 0x36 and 0x5c. */
  lemma MacIs(hash: Hash, key: Bytes, message: Bytes, inner: Bytes, outer: Bytes)
    requires |inner| == |outer| == 64
    requires var short := if |key| > 64 then hash(key) else key;
             forall i :: 0 <= i < 64 ==>
               && inner[i] == (if i < |short| then short[i] else 0) ^ 0x36
               && outer[i] == (if i < |short| then short[i] else 0) ^ 0x5c
    ensures Mac(hash, key, message) == hash(outer + hash(inner + message))
  {
    var k := KeyBlock(hash, key);
    assert Padded(k, 0x36) == inner;
    assert Padded(k, 0x5c) == outer;
  }

  /** A long key and its hash have the same codes, and so have a short key and the same key with zeros
      appended up to a block. */
  lemma EquivalentKeys(hash: Hash, key: Bytes, message: Bytes, zeros: nat)
    ensures |key| > BLOCK_SIZE ==> Mac(hash, hash(key), message) == Mac(hash, key, message)
    ensures |key| + zeros <= BLOCK_SIZE ==> Mac(hash, key + Zeros(zeros), message) == Mac(hash, key, message)
  {
    if |key| > BLOCK_SIZE {
      assert KeyBlock(hash, hash(key)) == KeyBlock(hash, key);
    }
    if |key| + zeros <= BLOCK_SIZE {
      assert KeyBlock(hash, key + Zeros(zeros)) == KeyBlock(hash, key);
    }
  }

  // ----- the program -----

  /** Overwrite the start of an array with a sequence. */
  method CopyFromSlice(target: array<bv8>, source: Bytes)
    requires |source| <= target.Length
    modifies target
    ensures forall j :: 0 <= j < |source| ==> target[j] == source[j]
    ensures forall j :: |source| <= j < target.Length ==> target[j] == old(target[j])
  {
    for i := 0 to |source|
      invariant forall j :: 0 <= j < i ==> target[j] == source[j]
      invariant forall j :: i <= j < target.Length ==> target[j] == old(target[j])
    {
      target[i] := source[i];
    }
  }

  /** The key block in an array of its own. */
  method FillKeyBlock(hash: Hash, key: Bytes) returns (keyBlock: array<bv8>)
    ensures fresh(keyBlock) && keyBlock[..] == KeyBlock(hash, key)
  {
    keyBlock := new bv8[BLOCK_SIZE](_ => 0);
    var short := key;
    if |key| > BLOCK_SIZE {
      short := hash(key);
    }
    CopyFromSlice(keyBlock, short);
    ghost var block := KeyBlock(hash, key);
    assert forall j :: 0 <= j < BLOCK_SIZE ==> keyBlock[j] == block[j];
  }

  /** Byte by byte. */
  function Xored(a: Bytes, b: Bytes): (r: Bytes)
    requires |a| == |b|
    ensures |r| == |a|
  {
    seq(|a|, i requires 0 <= i < |a| => a[i] ^ b[i])
  }

  /** One byte of a pad. */
  method XorAt(pad: array<bv8>, i: nat, byte: bv8)
    requires i < pad.Length
    modifies pad
    ensures pad[i] == byte ^ old(pad[i])
    ensures forall j :: 0 <= j < pad.Length && j != i ==> pad[j] == old(pad[j])
  {
    pad[i] := byte ^ pad[i];
  }

  /** Both pads are changed in place, byte by byte. */
  method XorPads(keyBlock: array<bv8>, ipad: array<bv8>, opad: array<bv8>)
    requires keyBlock.Length == ipad.Length == opad.Length && ipad != opad && ipad != keyBlock && opad != keyBlock
    modifies ipad, opad
    ensures ipad[..] == Xored(keyBlock[..], old(ipad[..]))
    ensures opad[..] == Xored(keyBlock[..], old(opad[..]))
  {
    ghost var inner, outer := Xored(keyBlock[..], ipad[..]), Xored(keyBlock[..], opad[..]);
    for i := 0 to keyBlock.Length
      invariant forall j :: 0 <= j < i ==> ipad[j] == inner[j] && opad[j] == outer[j]
      invariant forall j :: i <= j < keyBlock.Length ==> ipad[j] == old(ipad[j]) && opad[j] == old(opad[j])
    {
      XorAt(ipad, i, keyBlock[i]);
      XorAt(opad, i, keyBlock[i]);
    }
  }

  method HmacSha256(hash: Hash, key: Bytes, message: Bytes) returns (output: array<bv8>)
    ensures fresh(output) && output[..] == Mac(hash, key, message)
  {
    var keyBlock := FillKeyBlock(hash, key);
    ghost var k := KeyBlock(hash, key);
    var ipad := new bv8[BLOCK_SIZE](_ => 0x36);
    var opad := new bv8[BLOCK_SIZE](_ => 0x5c);
    XorPads(keyBlock, ipad, opad);
    assert forall j :: 0 <= j < BLOCK_SIZE ==> keyBlock[j] == k[j];
    assert ipad[..] == Padded(k, 0x36);
    assert opad[..] == Padded(k, 0x5c);
    var innerHash := hash(ipad[..] + message);
    var digest := hash(opad[..] + innerHash);
    output := new bv8[32](_ => 0);
    CopyFromSlice(output, digest);
    assert output[..] == digest;
  }

  lemma OrIsZero(diff: bv8, a: bv8, b: bv8)
    ensures diff | (a ^ b) == 0 <==> diff == 0 && a == b
  {
  }

  /** Every byte is looked at, and the result is true exactly for equal sequences. */
  method ConstantTimeEq(lhs: Bytes, rhs: Bytes) returns (equal: bool)
    ensures equal <==> lhs == rhs
  {
    if |lhs| != |rhs| {
      return false;
    }
    var diff: bv8 := 0;
    for i := 0 to |lhs|
      invariant diff == 0 <==> lhs[..i] == rhs[..i]
    {
      OrIsZero(diff, lhs[i], rhs[i]);
      assert lhs[..i + 1] == lhs[..i] + [lhs[i]] && rhs[..i + 1] == rhs[..i] + [rhs[i]];
      diff := diff | (lhs[i] ^ rhs[i]);
    }
    assert lhs[..|lhs|] == lhs && rhs[..|rhs|] == rhs;
    return diff == 0;
  }
}
