/**
  * The streaming part of the hash functions: blocks are cut out of the chunks given to `update`,
  * and `digest` pads the rest (sections 5.1.1 and 5.1.2 of FIPS 180-4).
  */
module HashStream {
  import opened Prelude
  import opened Words
  import opened WordBytes
  import opened Fips180
  import opened Sha512

  // The specification.

  function Concat(blocks: seq<seq<Byte>>): seq<Byte> {
    if blocks == [] then [] else Concat(blocks[..|blocks| - 1]) + blocks[|blocks| - 1]
  }

  /** The number of zero bytes between the marker and the length. */
  function Gap(len: nat, blockSize: nat, finalSize: nat): nat
    requires finalSize < blockSize
  {
    var t := len % blockSize;
    if t < finalSize then finalSize - 1 - t else blockSize + finalSize - 1 - t
  }

  /** The padded message of section 5.1, on bytes. */
  function Pad(msg: seq<Byte>, blockSize: nat, finalSize: nat): seq<Byte>
    requires finalSize < blockSize
  {
    msg + [0x80] + Zeros(Gap(|msg|, blockSize, finalSize)) + BigEndian(8 * |msg|, blockSize - finalSize)
  }

  predicate Sizes(blockSize: nat, finalSize: nat) {
    (blockSize, finalSize) in {(64, 56), (128, 112)}
  }

  /** `k` zero bytes after the marker leave exactly the room for the length. */
  predicate Fits(len: nat, k: nat, blockSize: nat, finalSize: nat)
    requires blockSize > 0
  {
    (len + 1 + k) % blockSize == finalSize
  }

  /** The gap is the least number of zero bytes that fits. */
  lemma GapIsLeast(len: nat, blockSize: nat, finalSize: nat)
    requires Sizes(blockSize, finalSize)
    ensures Fits(len, Gap(len, blockSize, finalSize), blockSize, finalSize)
    ensures forall k :: 0 <= k < Gap(len, blockSize, finalSize) ==> !Fits(len, k, blockSize, finalSize)
  {
    var t, q := len % blockSize, len / blockSize;
    forall k | 0 <= k <= Gap(len, blockSize, finalSize)
      ensures Fits(len, k, blockSize, finalSize) <==> k == Gap(len, blockSize, finalSize)
    {
      var r := t + 1 + k;
      if r < blockSize {
        Remainder(len + 1 + k, q, r, blockSize);
      } else {
        Remainder(len + 1 + k, q + 1, r - blockSize, blockSize);
      }
    }
  }

  lemma Remainder(a: nat, q: nat, r: nat, n: nat)
    requires n == 64 || n == 128
    requires a == (if n == 64 then 64 * q else 128 * q) + r && r < n
    ensures a % n == r
  {
  }

  /** The hash value after a sequence of blocks. */
  function Fold(blocks: seq<seq<Byte>>): State
    requires forall b :: b in blocks ==> |b| == 128
  {
    if blocks == [] then INITIAL
    else Compress(Fold(blocks[..|blocks| - 1]), BlockWords(blocks[|blocks| - 1]))
  }

  /** The 128-byte blocks of a message (section 5.2.2). */
  function Blocks(s: seq<Byte>): (blocks: seq<seq<Byte>>)
    ensures forall b :: b in blocks ==> |b| == 128
  {
    if |s| < 128 then [] else Blocks(s[..|s| - 128]) + [s[|s| - 128..]]
  }

  /** SHA-512 (section 6.4 of FIPS 180-4). */
  function Sha512Digest(msg: seq<Byte>): seq<Byte> {
    StateBytes(Fold(Blocks(Pad(msg, 128, 112))))
  }

  lemma {:induction false} BlocksOfConcat(blocks: seq<seq<Byte>>)
    requires forall b :: b in blocks ==> |b| == 128
    ensures Blocks(Concat(blocks)) == blocks
  {
    if blocks != [] {
      var n := |blocks| - 1;
      var init, last := Concat(blocks[..n]), blocks[n];
      BlocksOfConcat(blocks[..n]);
      var s := init + last;
      assert s[..|s| - 128] == init && s[|s| - 128..] == last;
    }
  }

  /** The place in the block of the byte that follows `o` bytes. */
  function Offset(o: nat, n: nat): nat
    requires n > 0
  {
    o % n
  }

  lemma OffsetBound(o: nat, n: nat)
    requires n > 0
    ensures Offset(o, n) < n
  {
  }

  lemma NextOffset(o: nat, c: nat, n: nat)
    requires n == 64 || n == 128
    requires Offset(o, n) + c <= n
    ensures Offset(o + c, n) == if Offset(o, n) + c == n then 0 else Offset(o, n) + c
  {
    var q, t := o / n, o % n;
    if t + c < n {
      Remainder(o + c, q, t + c, n);
    } else {
      Remainder(o + c, q + 1, 0, n);
    }
  }

  /** The `Hash` base class, and the subclass `Sha512` when there is a `core`. */
  class Hash {
    const block: array<Byte>
    const blockSize: nat
    const finalSize: nat
    var len: nat
    const core: Sha512?

    /** The blocks given to `_update` so far. */
    ghost var fed: seq<seq<Byte>>
    /** The bytes given to `update` so far. */
    ghost var msg: seq<Byte>

    ghost predicate Valid()
      reads this, core, block
    {
      && Shape()
      && CoreFollows()
      && len == |msg|
      && Cut(msg, fed, block[..], Offset(len, blockSize), blockSize)
    }

    /** What never changes. */
    ghost predicate Shape()
    {
      && Sizes(blockSize, finalSize)
      && block.Length == blockSize
      && (core != null ==> blockSize == 128 && core.Valid() && core.w as object != block)
    }

    /** The subclass has compressed the blocks it was fed, in order. */
    ghost predicate CoreFollows()
      reads this, core
    {
      && (forall b :: b in fed ==> |b| == blockSize)
      && (core != null ==> blockSize == 128 && core.Value() == Fold(fed))
    }

    constructor (blockSize: nat, finalSize: nat, core: Sha512?)
      requires Sizes(blockSize, finalSize)
      requires core != null ==> blockSize == 128 && core.Valid() && core.Value() == INITIAL
      ensures Valid() && msg == [] && this.core == core && fresh(block)
      ensures this.blockSize == blockSize && this.finalSize == finalSize
    {
      this.blockSize, this.finalSize, this.core := blockSize, finalSize, core;
      block := new Byte[blockSize](_ => 0);
      len, fed, msg := 0, [], [];
    }

    /** `_update` of the subclass. */
    method UpdateBlock()
      requires Shape() && CoreFollows()
      modifies this`fed, core, if core == null then {} else {core.w}
      ensures CoreFollows() && fed == old(fed) + [block[..]]
      ensures block[..] == old(block[..])
    {
      hide Compress, BlockWords;
      fed := fed + [block[..]];
      assert fed[..|fed| - 1] == old(fed);
      if core != null {
        core.Update(block);
      }
    }

    method Update(data: seq<Byte>)
      requires Valid()
      modifies this, block, core, if core == null then {} else {core.w}
      ensures Valid() && msg == old(msg) + data
    {
      hide Cut, Offset, Fold;
      var i, o, n := 0, len, blockSize;
      assert msg + data[..0] == msg;
      while i < |data|
        invariant 0 <= i <= |data| && o == len + i
        invariant len == old(len) && msg == old(msg)
        invariant CoreFollows()
        invariant Cut(msg + data[..i], fed, block[..], Offset(o, n), n)
      {
        OffsetBound(o, n);
        var l := Offset(o, n);
        var c := if |data| - i < n - l then |data| - i else n - l;
        assert msg + data[..i + c] == msg + data[..i] + data[i..i + c];
        Take(msg + data[..i], data, i, l, c);
        NextOffset(o, c, n);
        i, o := i + c, o + c;
      }
      len := len + |data|;
      msg := msg + data;
      assert data[..|data|] == data;
    }

    /** The body of the loop: copy `c` bytes, and pass the block on once it is full. */
    method Take(ghost seen: seq<Byte>, data: seq<Byte>, i: nat, l: nat, c: nat)
      requires Shape() && CoreFollows() && i + c <= |data| && l + c <= blockSize
      requires Cut(seen, fed, block[..], l, blockSize)
      modifies this`fed, block, core, if core == null then {} else {core.w}
      ensures CoreFollows()
      ensures Cut(seen + data[i..i + c], fed, block[..], if l + c == blockSize then 0 else l + c, blockSize)
    {
      hide Cut, Fold;
      ghost var pending := block[..];
      CopyIn(data, i, l, c);
      Extend(seen, fed, pending, l, blockSize, data[i..i + c]);
      if l + c == blockSize {
        UpdateBlock();
      }
    }

    /** `block[l + u] = data[i + u]` for every `u` below `c`. */
    method CopyIn(data: seq<Byte>, i: nat, l: nat, c: nat)
      requires i + c <= |data| && l + c <= block.Length
      modifies block
      ensures block[..] == old(block[..l]) + data[i..i + c] + old(block[l + c..])
    {
      var u := 0;
      while u < c
        invariant 0 <= u <= c
        invariant block[..] == old(block[..l]) + data[i..i + u] + old(block[l + u..])
      {
        block[l + u] := data[i + u];
        u := u + 1;
      }
    }

    method Digest() returns (digest: seq<Byte>)
      requires Valid() && 8 * len < MAX_SAFE
      modifies this, block, core, if core == null then {} else {core.w}
      ensures (forall b :: b in fed ==> |b| == blockSize) && Concat(fed) == Pad(old(msg), blockSize, finalSize)
      ensures core != null ==> digest == Sha512Digest(old(msg))
    {
      hide Fold, Pad, Concat, Blocks, StateBytes;
      PadBlocks();
      digest := [];
      if core != null {
        BlocksOfConcat(fed);
        digest := core.Bytes();
        assert digest == StateBytes(Fold(Blocks(Pad(msg, 128, 112))));
      }
    }

    method PadBlocks()
      requires Valid() && 8 * len < MAX_SAFE
      modifies this`fed, block, core, if core == null then {} else {core.w}
      ensures CoreFollows() && Concat(fed) == Pad(msg, blockSize, finalSize)
    {
      hide Cut, Fold, Pad, Bytes4, Offset, Concat, WithLength, Marked;
      OffsetBound(len, blockSize);
      var t := Offset(len, blockSize);
      ghost var before, pending := fed, block[..];
      block[t] := 128;
      FillZero(t + 1);
      MarkedIs(pending, t, block[..]);
      if t >= finalSize {
        UpdateBlock();
        FillZero(0);
        assert block[..] == Zeros(blockSize);
        PadLong(msg, before, pending, t, blockSize, finalSize);
      } else {
        PadShort(msg, before, pending, t, blockSize, finalSize);
      }
      WriteLength(8 * len);
      UpdateBlock();
    }

    /** The length in bits, in one word when one is enough. */
    method WriteLength(r: nat)
      requires Shape() && r < MAX_SAFE
      requires block[blockSize - 8..] == Zeros(8)
      modifies block
      ensures block[..] == WithLength(old(block[..]), r)
    {
      hide Bytes4;
      if r <= 0xFFFF_FFFF {
        Bytes4IsBigEndian(0);
        BigEndianZero(4);
        WriteUInt32BE(r, blockSize - 4);
      } else {
        var n := r % P32;
        var a := (r - n) / P32;
        WriteUInt32BE(a, blockSize - 8);
        WriteUInt32BE(n, blockSize - 4);
      }
    }

    /** `block.fill(0, start)`. */
    method FillZero(start: nat)
      requires start <= block.Length
      modifies block
      ensures block[..] == old(block[..start]) + Zeros(block.Length - start)
    {
      var i := start;
      while i < block.Length
        invariant start <= i <= block.Length
        invariant block[..] == old(block[..start]) + Zeros(i - start) + old(block[i..])
      {
        block[i] := 0;
        i := i + 1;
      }
    }

    method WriteUInt32BE(x: U32, i: nat)
      requires i + 4 <= block.Length
      modifies block
      ensures block[..] == old(block[..i]) + Bytes4(x) + old(block[i + 4..])
    {
      var bytes := Bytes4(x);
      block[i], block[i + 1], block[i + 2], block[i + 3] := bytes[0], bytes[1], bytes[2], bytes[3];
    }
  }

  /** `msg` is the concatenation of `fed` and of the first `l` bytes of the pending block. */
  ghost predicate Cut(msg: seq<Byte>, fed: seq<seq<Byte>>, pending: seq<Byte>, l: nat, n: nat) {
    && l < n == |pending|
    && msg == Concat(fed) + pending[..l]
  }

  /** Copying `piece` after the first `l` bytes of the pending block, which may complete it. */
  lemma Extend(msg: seq<Byte>, fed: seq<seq<Byte>>, pending: seq<Byte>, l: nat, n: nat, piece: seq<Byte>)
    requires Cut(msg, fed, pending, l, n) && l + |piece| <= n
    ensures var after := pending[..l] + piece + pending[l + |piece|..];
            if l + |piece| < n then Cut(msg + piece, fed, after, l + |piece|, n)
            else Cut(msg + piece, fed + [after], after, 0, n)
  {
    var after := pending[..l] + piece + pending[l + |piece|..];
    assert after[..l + |piece|] == pending[..l] + piece;
    assert msg + piece == Concat(fed) + after[..l + |piece|];
    if l + |piece| == n {
      assert after[..n] == after;
      assert (fed + [after])[..|fed|] == fed;
      assert after[..0] == [];
    }
  }

  /** The bound below which JavaScript numbers are exact integers. */
  const MAX_SAFE: nat := 0x20_0000_0000_0000

  /** The pending block with the marker after its first `t` bytes and zeros after the marker. */
  function Marked(pending: seq<Byte>, t: nat): (s: seq<Byte>)
    requires t < |pending|
    ensures |s| == |pending|
  {
    pending[..t] + [128] + Zeros(|pending| - t - 1)
  }

  lemma MarkedIs(pending: seq<Byte>, t: nat, b: seq<Byte>)
    requires t < |pending| == |b| && b == pending[t := 128][..t + 1] + Zeros(|pending| - t - 1)
    ensures b == Marked(pending, t)
  {
  }

  /** A block whose last eight bytes hold the length `r`. */
  function WithLength(b: seq<Byte>, r: nat): (s: seq<Byte>)
    requires |b| >= 8 && r < P64
    ensures |s| == |b|
  {
    b[..|b| - 8] + Bytes4(r / P32) + Bytes4(r % P32)
  }

  /** When the length fits after the marker, one block completes the padded message. */
  lemma PadShort(msg: seq<Byte>, fed: seq<seq<Byte>>, pending: seq<Byte>, t: nat, n: nat, m: nat)
    requires Sizes(n, m) && Cut(msg, fed, pending, t, n) && t == Offset(|msg|, n) && 8 * |msg| < MAX_SAFE
    requires t < m
    ensures Concat(fed + [WithLength(Marked(pending, t), 8 * |msg|)]) == Pad(msg, n, m)
  {
    hide Bytes4, BigEndian;
    var r := 8 * |msg|;
    var last, tail := WithLength(Marked(pending, t), r), Bytes4(r / P32) + Bytes4(r % P32);
    LengthBytes(r, n - m - 8);
    assert Gap(|msg|, n, m) == m - 1 - t;
    assert (fed + [last])[..|fed|] == fed;
    assert last == pending[..t] + [0x80] + Zeros(m - 1 - t) + (Zeros(n - m - 8) + tail);
  }

  /** Otherwise two blocks do. */
  lemma PadLong(msg: seq<Byte>, fed: seq<seq<Byte>>, pending: seq<Byte>, t: nat, n: nat, m: nat)
    requires Sizes(n, m) && Cut(msg, fed, pending, t, n) && t == Offset(|msg|, n) && 8 * |msg| < MAX_SAFE
    requires t >= m
    ensures Concat(fed + [Marked(pending, t)] + [WithLength(Zeros(n), 8 * |msg|)]) == Pad(msg, n, m)
  {
    hide Bytes4, BigEndian;
    var r := 8 * |msg|;
    var first, last := Marked(pending, t), WithLength(Zeros(n), r);
    var tail := Bytes4(r / P32) + Bytes4(r % P32);
    LengthBytes(r, n - m - 8);
    assert Gap(|msg|, n, m) == n + m - 1 - t;
    ConcatTwo(fed, first, last);
    assert first + last == pending[..t] + [0x80] + Zeros(n + m - 1 - t) + (Zeros(n - m - 8) + tail);
  }

  lemma ConcatTwo(fed: seq<seq<Byte>>, first: seq<Byte>, last: seq<Byte>)
    ensures Concat(fed + [first] + [last]) == Concat(fed) + (first + last)
  {
    assert (fed + [first])[..|fed|] == fed;
    assert (fed + [first] + [last])[..|fed| + 1] == fed + [first];
  }

  /** A whole run: the digest depends on the concatenation of the chunks only, and is the one of the standard. */
  method DigestOf(chunks: seq<seq<Byte>>) returns (digest: seq<Byte>)
    requires 8 * |Concat(chunks)| < MAX_SAFE
    ensures digest == Sha512Digest(Concat(chunks))
  {
    hide Sha512Digest, Fold, Pad, Cut;
    var w := new U32[160];
    var core := new Sha512(w);
    var hash := new Hash(128, 112, core);
    var i := 0;
    assert chunks[..0] == [];
    while i < |chunks|
      invariant i <= |chunks| && hash.Valid() && hash.msg == Concat(chunks[..i])
      invariant hash.core == core && fresh(hash) && fresh(hash.block) && fresh(core) && fresh(core.w) && core.w == w
    {
      assert chunks[..i + 1][..i] == chunks[..i];
      hash.Update(chunks[i]);
      i := i + 1;
    }
    assert chunks[..i] == chunks;
    digest := hash.Digest();
  }
}
