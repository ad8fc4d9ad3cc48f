/**
  In-place decryption of an audio packet (raop/decrypter.go), against cipher block chaining as
  defined in section 6.2 of NIST SP 800-38A. The block cipher is any function on 16-byte blocks.
 */
module Decrypter {

  type Bytes = seq<bv8>

  const BLOCK := 16
  const HEADER := 12

  type Cipher = Bytes -> Bytes

  /** The cipher maps blocks to blocks. */
  ghost predicate OnBlocks(f: Cipher) {
    forall b: Bytes | |b| == BLOCK :: |f(b)| == BLOCK
  }

  /** `d` undoes `e` on every block. */
  ghost predicate Undoes(d: Cipher, e: Cipher) {
    forall b: Bytes | |b| == BLOCK :: d(e(b)) == b
  }

  function Xor(a: Bytes, b: Bytes): (r: Bytes)
    requires |a| == |b|
    ensures |r| == |a| && forall i | 0 <= i < |a| :: r[i] == a[i] ^ b[i]
  {
    seq(|a|, i requires 0 <= i < |a| => a[i] ^ b[i])
  }

  lemma XorTwice(a: Bytes, b: Bytes)
    requires |a| == |b|
    ensures Xor(Xor(a, b), b) == a
  {
  }

  /** Decrypts all full blocks, chaining from `iv`, and leaves a shorter tail as it is. */
  ghost function CbcDecrypt(d: Cipher, iv: Bytes, c: Bytes): (p: Bytes)
    requires OnBlocks(d) && |iv| == BLOCK
    ensures |p| == |c|
    decreases |c|
  {
    if |c| < BLOCK then c
    else Xor(d(c[..BLOCK]), iv) + CbcDecrypt(d, c[..BLOCK], c[BLOCK..])
  }

  ghost function CbcEncrypt(e: Cipher, iv: Bytes, p: Bytes): (c: Bytes)
    requires OnBlocks(e) && |iv| == BLOCK
    ensures |c| == |p|
    decreases |p|
  {
    if |p| < BLOCK then p
    else
      var first := e(Xor(p[..BLOCK], iv));
      first + CbcEncrypt(e, first, p[BLOCK..])
  }

  /** The `j`-th block of a byte sequence. */
  function BlockAt(s: Bytes, j: nat): (b: Bytes)
    requires (j + 1) * BLOCK <= |s|
    ensures |b| == BLOCK
  {
    s[j * BLOCK..(j + 1) * BLOCK]
  }

  lemma BlockOfRest(s: Bytes, j: nat)
    requires j > 0 && (j + 1) * BLOCK <= |s|
    ensures BlockAt(s[BLOCK..], j - 1) == BlockAt(s, j)
  {
  }

  /** The block that is chained into block `j`. */
  function Chained(iv: Bytes, c: Bytes, j: nat): (b: Bytes)
    requires |iv| == BLOCK && j * BLOCK <= |c|
    ensures |b| == BLOCK
  {
    if j == 0 then iv else BlockAt(c, j - 1)
  }

  /** The defining equation of the mode, block by block: each depends on two ciphertext blocks only. */
  lemma {:induction false} DecryptedBlock(d: Cipher, iv: Bytes, c: Bytes, j: nat)
    requires OnBlocks(d) && |iv| == BLOCK && (j + 1) * BLOCK <= |c|
    ensures BlockAt(CbcDecrypt(d, iv, c), j) == Xor(d(BlockAt(c, j)), Chained(iv, c, j))
    decreases j
  {
    var p := CbcDecrypt(d, iv, c);
    assert p[..BLOCK] == Xor(d(c[..BLOCK]), iv) && p[BLOCK..] == CbcDecrypt(d, c[..BLOCK], c[BLOCK..]);
    if j > 0 {
      DecryptedBlock(d, c[..BLOCK], c[BLOCK..], j - 1);
      BlockOfRest(p, j);
      BlockOfRest(c, j);
      if j > 1 {
        BlockOfRest(c, j - 1);
      }
    }
  }

  /** A trailing partial block passes through. */
  lemma {:induction false} TailUnchanged(d: Cipher, iv: Bytes, c: Bytes)
    requires OnBlocks(d) && |iv| == BLOCK
    ensures var full := |c| / BLOCK * BLOCK;
            CbcDecrypt(d, iv, c)[full..] == c[full..]
    decreases |c|
  {
    if |c| >= BLOCK {
      TailUnchanged(d, c[..BLOCK], c[BLOCK..]);
      var rest := CbcDecrypt(d, c[..BLOCK], c[BLOCK..]);
      var full := |c[BLOCK..]| / BLOCK * BLOCK;
      assert |c| / BLOCK * BLOCK == full + BLOCK;
      assert c[full + BLOCK..] == c[BLOCK..][full..];
      assert CbcDecrypt(d, iv, c)[full + BLOCK..] == rest[full..];
    }
  }

  /** Decryption undoes encryption for every cipher with that inverse, every IV and every payload. */
  lemma {:induction false} DecryptUndoesEncrypt(d: Cipher, e: Cipher, iv: Bytes, p: Bytes)
    requires OnBlocks(d) && OnBlocks(e) && Undoes(d, e) && |iv| == BLOCK
    ensures CbcDecrypt(d, iv, CbcEncrypt(e, iv, p)) == p
    decreases |p|
  {
    if |p| >= BLOCK {
      var first := e(Xor(p[..BLOCK], iv));
      var rest := CbcEncrypt(e, first, p[BLOCK..]);
      assert (first + rest)[..BLOCK] == first && (first + rest)[BLOCK..] == rest;
      assert d(first) == Xor(p[..BLOCK], iv);
      XorTwice(p[..BLOCK], iv);
      DecryptUndoesEncrypt(d, e, first, p[BLOCK..]);
      assert CbcDecrypt(d, iv, first + rest) == p[..BLOCK] + p[BLOCK..];
    }
  }

  datatype Outcome = Decoded(audio: Bytes) | BadKey | Panic

  /** What decoding makes of a packet; nothing but the packet, the key and the IV decides. */
  ghost function Verdict(d: Cipher, aesKey: Bytes, aesIv: Bytes, packet: Bytes): Outcome
    requires OnBlocks(d)
  {
    if |aesKey| !in {16, 24, 32} then BadKey
    else if |aesIv| != BLOCK || |packet| < HEADER then Panic
    else Decoded(CbcDecrypt(d, aesIv, packet[HEADER..]))
  }

  class AesDecrypter {
    const aesKey: Bytes
    const aesIv: Bytes

    constructor (aesKey: Bytes, aesIv: Bytes)
      ensures this.aesKey == aesKey && this.aesIv == aesIv
    {
      this.aesKey, this.aesIv := aesKey, aesIv;
    }

    /**
      Decrypts the payload in the packet buffer itself, one block at a time, and returns a copy.
      `d` is the block decryption under the key. The header stays.
     */
    method Decode(d: Cipher, data: array<bv8>) returns (r: Outcome)
      requires OnBlocks(d)
      modifies data
      ensures r == Verdict(d, aesKey, aesIv, old(data[..]))
      ensures r.Decoded? ==> data[..] == old(data[..HEADER]) + r.audio
      ensures !r.Decoded? ==> data[..] == old(data[..])
    {
      if |aesKey| !in {16, 24, 32} {
        return BadKey;
      }
      if |aesIv| != BLOCK || data.Length < HEADER {
        return Panic;
      }
      DecryptBlocks(d, data);
      assert old(data[..])[HEADER..] == old(data[HEADER..]);
      r := Decoded(data[HEADER..]);
    }

    /** One round of the block loop: block `j` is decrypted where it stands. */
    method NextInPlace(d: Cipher, data: array<bv8>, at: nat, previous: Bytes,
        ghost head: Bytes, ghost plain: Bytes, ghost c: Bytes, ghost j: nat)
        returns (block: Bytes)
      requires OnBlocks(d) && |previous| == BLOCK && (j + 1) * BLOCK <= |c| && at == HEADER + j * BLOCK
      requires Partly(data[..], head, plain, c, j * BLOCK)
      requires forall i | 0 <= i < BLOCK :: Xor(d(BlockAt(c, j)), previous)[i] == plain[j * BLOCK + i]
      modifies data
      ensures block == BlockAt(c, j)
      ensures Partly(data[..], head, plain, c, j * BLOCK + BLOCK)
    {
      PartlyBlock(data[..], head, plain, c, j * BLOCK);
      ghost var before := data[..];
      block := CryptBlock(d, data, at, previous);
      assert block == before[at..at + BLOCK] == BlockAt(c, j);
      PartlyStep(before, data[..], head, plain, c, j * BLOCK, Xor(d(block), previous));
    }

    /** The block loop. */
    method DecryptBlocks(d: Cipher, data: array<bv8>)
      requires OnBlocks(d) && |aesIv| == BLOCK && data.Length >= HEADER
      modifies data
      ensures data[..] == old(data[..HEADER]) + CbcDecrypt(d, aesIv, old(data[HEADER..]))
    {
      ghost var head, c := data[..HEADER], data[HEADER..];
      ghost var plain := CbcDecrypt(d, aesIv, c);
      ghost var j: nat := 0;
      var previous, at := aesIv, HEADER;
      while data.Length - at >= BLOCK
        invariant at == HEADER + j * BLOCK && at <= data.Length
        invariant previous == Chained(aesIv, c, j)
        invariant Partly(data[..], head, plain, c, j * BLOCK)
      {
        NextBlock(d, aesIv, c, j);
        previous := NextInPlace(d, data, at, previous, head, plain, c, j);
        at, j := at + BLOCK, j + 1;
      }
      SameTail(d, aesIv, c, at - HEADER);
      PartlyDone(data[..], head, plain, c, at - HEADER);
    }
  }

  /** A packet whose first `k` payload bytes are decrypted. */
  ghost predicate Partly(now: Bytes, head: Bytes, plain: Bytes, c: Bytes, k: nat) {
    && |head| == HEADER && |plain| == |c| && k <= |c| && |now| == HEADER + |c|
    && (forall i | 0 <= i < HEADER :: now[i] == head[i])
    && (forall i | HEADER <= i < HEADER + k :: now[i] == plain[i - HEADER])
    && (forall i | HEADER + k <= i < |now| :: now[i] == c[i - HEADER])
  }

  lemma PartlyStep(now: Bytes, after: Bytes, head: Bytes, plain: Bytes, c: Bytes, k: nat, clear: Bytes)
    requires Partly(now, head, plain, c, k) && k + BLOCK <= |c| && |after| == |now| && |clear| == BLOCK
    requires forall i | 0 <= i < BLOCK :: clear[i] == plain[k + i]
    requires forall i | 0 <= i < |now| ::
               after[i] == if HEADER + k <= i < HEADER + k + BLOCK then clear[i - (HEADER + k)] else now[i]
    ensures Partly(after, head, plain, c, k + BLOCK)
  {
  }

  lemma PartlyBlock(now: Bytes, head: Bytes, plain: Bytes, c: Bytes, k: nat)
    requires Partly(now, head, plain, c, k) && k + BLOCK <= |c|
    ensures now[HEADER + k..HEADER + k + BLOCK] == c[k..k + BLOCK]
  {
  }

  lemma PartlyDone(now: Bytes, head: Bytes, plain: Bytes, c: Bytes, k: nat)
    requires Partly(now, head, plain, c, k) && forall i | k <= i < |c| :: plain[i] == c[i]
    ensures now == head + plain
  {
  }

  lemma NextBlock(d: Cipher, iv: Bytes, c: Bytes, j: nat)
    requires OnBlocks(d) && |iv| == BLOCK && (j + 1) * BLOCK <= |c|
    ensures var clear := Xor(d(BlockAt(c, j)), Chained(iv, c, j));
            forall i | 0 <= i < BLOCK :: clear[i] == CbcDecrypt(d, iv, c)[j * BLOCK + i]
  {
    DecryptedBlock(d, iv, c, j);
  }

  lemma SameTail(d: Cipher, iv: Bytes, c: Bytes, full: nat)
    requires OnBlocks(d) && |iv| == BLOCK && full <= |c| && full == |c| / BLOCK * BLOCK
    ensures forall i | full <= i < |c| :: CbcDecrypt(d, iv, c)[i] == c[i]
  {
    TailUnchanged(d, iv, c);
    EqualTails(CbcDecrypt(d, iv, c), c, full);
  }

  lemma EqualTails(p: Bytes, c: Bytes, full: nat)
    requires |p| == |c| && full <= |c| && p[full..] == c[full..]
    ensures forall i | full <= i < |c| :: p[i] == c[i]
  {
    forall i | full <= i < |c| ensures p[i] == c[i] {
      assert p[i] == p[full..][i - full] && c[i] == c[full..][i - full];
    }
  }

  /** Decrypts the block at `at` in place and returns the ciphertext it replaced. */
  method CryptBlock(d: Cipher, data: array<bv8>, at: nat, previous: Bytes) returns (block: Bytes)
    requires OnBlocks(d) && |previous| == BLOCK && at + BLOCK <= data.Length
    modifies data
    ensures block == old(data[at..at + BLOCK])
    ensures forall i | 0 <= i < data.Length ::
              data[i] == if at <= i < at + BLOCK then Xor(d(block), previous)[i - at] else old(data[i])
  {
    block := data[at..at + BLOCK];
    var clear := Xor(d(block), previous);
    forall i | 0 <= i < BLOCK {
      data[at + i] := clear[i];
    }
  }

  /** What decoding returns is the decryption of everything after twelve bytes, and it cannot fail otherwise. */
  lemma VerdictSpelledOut(d: Cipher, aesKey: Bytes, aesIv: Bytes, packet: Bytes)
    requires OnBlocks(d)
    ensures Verdict(d, aesKey, aesIv, packet).BadKey? <==> |aesKey| !in {16, 24, 32}
    ensures |aesKey| in {16, 24, 32} && |aesIv| == 16 && |packet| >= 12 ==>
              Verdict(d, aesKey, aesIv, packet) == Decoded(CbcDecrypt(d, aesIv, packet[12..]))
  {
  }
}
