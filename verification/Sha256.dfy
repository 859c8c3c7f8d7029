/**
 The streaming hash object: buffering, padding and length (src/core/sha256.cpp:91-135). The
 compression of one block is a parameter; what is proved is that it is folded over exactly the
 padded message of section 5.1.1 of FIPS 180-4, however the message is cut into updates.
 */
module Sha256 {
  import opened Checked
  import opened Bytes

  const BLOCK: nat := 64
  const LENGTH_AT: nat := 56

  type Word = n: nat | n < TWO_32
  type Words = w: seq<Word> | |w| == 8 witness seq(8, _ => 0)
  type Compress = (Words, seq<Byte>) -> Words

  const INITIAL: Words :=
    [0x6a09e667, 0xbb67ae85, 0x3c6ef372, 0xa54ff53a, 0x510e527f, 0x9b05688c, 0x1f83d9ab, 0x5be0cd19]

  // ---------------------------------------------------------------------------
  // Specification
  // ---------------------------------------------------------------------------

  /** The compression folded over whole blocks. */
  function Fold(compress: Compress, state: Words, data: seq<Byte>): Words
    requires |data| % BLOCK == 0
    decreases |data|
  {
    if data == [] then state else Fold(compress, compress(state, data[..BLOCK]), data[BLOCK..])
  }

  /** The least number of zero bytes that leaves eight bytes to the end of a block. */
  function ZeroCount(length: nat): nat { (119 - length % BLOCK) % BLOCK }

  lemma ZeroCountFits(length: nat)
    ensures (length + 1 + ZeroCount(length)) % BLOCK == LENGTH_AT
  {
  }

  lemma ZeroCountIsLeast(length: nat, k: nat)
    requires (length + 1 + k) % BLOCK == LENGTH_AT
    ensures ZeroCount(length) <= k
  {
    assert (length % BLOCK + 1 + k) % BLOCK == LENGTH_AT;
  }

  function Zeros(n: nat): seq<Byte> { seq(n, _ => 0) }

  /** The 64-bit length in bits, most significant byte first. */
  function BigEndian(v: nat, n: nat): (s: seq<Byte>)
    ensures |s| == n
  {
    if n == 0 then [] else BigEndian(v / 256, n - 1) + [v % 256]
  }

  /** The message, a one bit, zeros, and the length in bits. */
  function Padded(message: seq<Byte>): seq<Byte> {
    message + [0x80] + Zeros(ZeroCount(|message|)) + BigEndian(8 * |message|, 8)
  }

  lemma LengthCompletes(n: nat)
    requires n % BLOCK == LENGTH_AT
    ensures (n + 8) % BLOCK == 0
  {
  }

  lemma PaddedIsWhole(message: seq<Byte>)
    ensures |Padded(message)| % BLOCK == 0
  {
    var n := |message| + 1 + ZeroCount(|message|);
    ZeroCountFits(|message|);
    LengthCompletes(n);
    assert |Padded(message)| == n + 8;
  }

  function DigestOf(state: Words): seq<Byte> { Concat(state, 8) }

  /** Each word of the state, most significant byte first. */
  function Concat(state: Words, n: nat): seq<Byte>
    requires n <= 8
  {
    if n == 0 then [] else Concat(state, n - 1) + BigEndian(state[n - 1], 4)
  }

  function HashOf(compress: Compress, message: seq<Byte>): seq<Byte> {
    PaddedIsWhole(message);
    DigestOf(Fold(compress, INITIAL, Padded(message)))
  }

  lemma {:induction false} FoldAppend(compress: Compress, state: Words, a: seq<Byte>, b: seq<Byte>)
    requires |a| % BLOCK == 0 && |b| % BLOCK == 0
    ensures Fold(compress, state, a + b) == Fold(compress, Fold(compress, state, a), b)
    decreases |a|
  {
    if a == [] {
      assert a + b == b;
    } else {
      assert (a + b)[..BLOCK] == a[..BLOCK];
      assert (a + b)[BLOCK..] == a[BLOCK..] + b;
      FoldAppend(compress, compress(state, a[..BLOCK]), a[BLOCK..], b);
    }
  }

  lemma {:induction false} FoldBlock(compress: Compress, state: Words, block: seq<Byte>)
    requires |block| == BLOCK
    ensures Fold(compress, state, block) == compress(state, block)
  {
    assert block[..BLOCK] == block;
    assert Fold(compress, compress(state, block), block[BLOCK..]) == compress(state, block);
  }

  /** The part of a message that fills whole blocks. */
  function Whole(message: seq<Byte>): (w: seq<Byte>)
    ensures |w| % BLOCK == 0 && |message| - BLOCK < |w| <= |message| && w == message[..|w|]
  {
    message[..|message| - |message| % BLOCK]
  }

  function Tail(message: seq<Byte>): seq<Byte> { message[|message| - |message| % BLOCK..] }

  /** State and buffer after absorbing a message. */
  ghost predicate Absorbed(compress: Compress, state: Words, pending: seq<Byte>, message: seq<Byte>) {
    state == Fold(compress, INITIAL, Whole(message)) && pending == Tail(message)
  }

  lemma ModGrows(n: nat, k: nat)
    requires n % BLOCK + k < BLOCK
    ensures (n + k) % BLOCK == n % BLOCK + k
  {
  }

  lemma {:induction false} AbsorbBytes(compress: Compress, state: Words, pending: seq<Byte>, message: seq<Byte>, more: seq<Byte>)
    requires Absorbed(compress, state, pending, message) && |pending| + |more| < BLOCK
    ensures Absorbed(compress, state, pending + more, message + more)
  {
    var grown, cut := message + more, |message| - |message| % BLOCK;
    ModGrows(|message|, |more|);
    assert |grown| - |grown| % BLOCK == cut;
    assert grown[..cut] == message[..cut];
    assert grown[cut..] == message[cut..] + more;
  }

  lemma {:induction false} AbsorbBlock(compress: Compress, state: Words, pending: seq<Byte>, message: seq<Byte>, more: seq<Byte>)
    requires Absorbed(compress, state, pending, message) && |pending| + |more| == BLOCK
    ensures Absorbed(compress, compress(state, pending + more), [], message + more)
  {
    var grown := message + more;
    assert message == Whole(message) + pending;
    assert grown == Whole(message) + (pending + more);
    assert |grown| % BLOCK == 0 && Whole(grown) == grown;
    FoldAppend(compress, INITIAL, Whole(message), pending + more);
    FoldBlock(compress, state, pending + more);
  }

  lemma {:induction false} HashFrom(compress: Compress, state: Words, pending: seq<Byte>, message: seq<Byte>)
    requires Absorbed(compress, state, pending, Padded(message))
    ensures DigestOf(state) == HashOf(compress, message)
  {
    PaddedIsWhole(message);
    assert Whole(Padded(message)) == Padded(message);
  }

  lemma RejoinAt(message: seq<Byte>, data: seq<Byte>, i: nat)
    requires i <= |data|
    ensures message + data[..i] + data[i..] == message + data
  {
    assert data[..i] + data[i..] == data;
  }

  lemma BitsFit(n: nat)
    requires 8 * n < TWO_64
    ensures n % TWO_64 * 8 % TWO_64 == 8 * n
  {
  }

  // ---------------------------------------------------------------------------
  // The object
  // ---------------------------------------------------------------------------

  class Sha256 {
    const compress: Compress
    var state: Words
    const buffer: array<Byte>
    var totalBytes: U64
    var buffered: nat

    ghost predicate Valid()
      reads this, buffer
    {
      buffer.Length == BLOCK && buffered < BLOCK
    }

    /** State and buffer are those of this message. */
    ghost predicate Contains(message: seq<Byte>)
      reads this, buffer
    {
      Valid() && Absorbed(compress, state, buffer[..buffered], message)
    }

    /** The object has absorbed exactly this message. */
    ghost predicate Holds(message: seq<Byte>)
      reads this, buffer
    {
      Contains(message) && totalBytes == |message| % TWO_64
    }

    constructor (compress: Compress)
      ensures Holds([]) && this.compress == compress && fresh(buffer)
    {
      this.compress := compress;
      state := INITIAL;
      buffer := new Byte[BLOCK](_ => 0);
      totalBytes, buffered := 0, 0;
    }

    /** Copies bytes into the buffer from `offset` on, until the data or the block ends. */
    method Fill(data: seq<Byte>, offset: nat) returns (next: nat)
      requires buffer.Length == BLOCK && buffered <= BLOCK && offset <= |data|
      modifies this`buffered, buffer
      ensures offset <= next <= |data| && buffered <= BLOCK
      ensures buffer[..buffered] == old(buffer[..buffered]) + data[offset..next]
      ensures next == |data| || buffered == BLOCK
    {
      next := offset;
      while next < |data| && buffered < BLOCK
        invariant offset <= next <= |data| && buffered <= BLOCK
        invariant buffer[..buffered] == old(buffer[..buffered]) + data[offset..next]
      {
        buffer[buffered] := data[next];
        buffered := buffered + 1;
        assert data[offset..next + 1] == data[offset..next] + [data[next]];
        next := next + 1;
      }
    }

    /** Tops up the buffer, and compresses it if that completes a block. */
    method CompleteBlock(data: seq<Byte>, ghost message: seq<Byte>) returns (offset: nat)
      requires Contains(message)
      modifies this`buffered, this`state, buffer
      ensures offset <= |data| && Contains(message + data[..offset])
      ensures buffered == 0 || offset == |data|
    {
      offset := Fill(data, 0);
      assert data[0..offset] == data[..offset];
      if buffered == BLOCK {
        AbsorbBlock(compress, state, old(buffer[..buffered]), message, data[..offset]);
        assert buffer[..] == buffer[..BLOCK];
        state := compress(state, buffer[..]);
        buffered := 0;
        assert buffer[..0] == [];
      } else {
        AbsorbBytes(compress, state, old(buffer[..buffered]), message, data[..offset]);
      }
    }

    /** Compresses whole blocks straight from the data. */
    method CompressBlocks(data: seq<Byte>, start: nat, ghost message: seq<Byte>) returns (offset: nat)
      requires start <= |data| && Contains(message + data[..start]) && (buffered == 0 || start == |data|)
      modifies this`state
      ensures start <= offset <= |data| && |data| - offset < BLOCK && Contains(message + data[..offset])
      ensures buffered == 0 || offset == |data|
    {
      offset := start;
      while |data| - offset >= BLOCK
        invariant start <= offset <= |data| && Contains(message + data[..offset])
        invariant buffered == 0 || offset == |data|
      {
        var block := data[offset..offset + BLOCK];
        assert buffer[..0] == [] && [] + block == block;
        AbsorbBlock(compress, state, [], message + data[..offset], block);
        assert message + data[..offset] + block == message + data[..offset + BLOCK];
        state := compress(state, block);
        offset := offset + BLOCK;
      }
    }

    /** Buffers what is left of the data. */
    method BufferRest(data: seq<Byte>, start: nat, ghost message: seq<Byte>)
      requires start <= |data| && |data| - start < BLOCK && Contains(message + data[..start])
      requires buffered == 0 || start == |data|
      modifies this`buffered, buffer
      ensures Contains(message + data)
    {
      ghost var pending := buffer[..buffered];
      var offset := Fill(data, start);
      assert |buffer[..buffered]| == |pending| + (offset - start);
      assert offset == |data|;
      AbsorbBytes(compress, state, pending, message + data[..start], data[start..]);
      RejoinAt(message, data, start);
    }

    method Update(data: seq<Byte>, ghost message: seq<Byte>)
      requires Holds(message)
      modifies this, buffer
      ensures Holds(message + data)
    {
      totalBytes := (totalBytes + |data|) % TWO_64;
      CountWraps(|message|, |data|);
      var offset := CompleteBlock(data, message);
      offset := CompressBlocks(data, offset, message);
      BufferRest(data, offset, message);
    }

    /** Zero bytes until the buffer has room for exactly the length. */
    method PadZeros(ghost message: seq<Byte>)
      requires Holds(message + [0x80])
      modifies this, buffer
      ensures Holds(message + [0x80] + Zeros(ZeroCount(|message|)))
    {
      ghost var zeros := 0;
      assert message + [0x80] + Zeros(0) == message + [0x80];
      while buffered != LENGTH_AT
        invariant zeros <= ZeroCount(|message|) && Holds(message + [0x80] + Zeros(zeros))
        decreases ZeroCount(|message|) - zeros
      {
        BufferedIs(message + [0x80] + Zeros(zeros));
        ZeroCountFits(|message|);
        Update([0], message + [0x80] + Zeros(zeros));
        assert message + [0x80] + Zeros(zeros) + [0] == message + [0x80] + Zeros(zeros + 1);
        zeros := zeros + 1;
      }
      BufferedIs(message + [0x80] + Zeros(zeros));
      ZeroCountIsLeast(|message|, zeros);
    }

    /** Appends the one bit, zeros up to the length field, the length, and returns the digest. */
    method Finish(ghost message: seq<Byte>) returns (digest: seq<Byte>)
      requires Holds(message) && 8 * |message| < TWO_64
      modifies this, buffer
      ensures digest == HashOf(compress, message)
    {
      var length := BigEndian(totalBytes * 8 % TWO_64, 8);
      BitsFit(|message|);
      Update([0x80], message);
      PadZeros(message);
      Update(length, message + [0x80] + Zeros(ZeroCount(|message|)));
      HashFrom(compress, state, buffer[..buffered], message);
      return DigestOf(state);
    }

    lemma BufferedIs(message: seq<Byte>)
      requires Holds(message)
      ensures buffered == |message| % BLOCK
    {
      assert |buffer[..buffered]| == buffered;
    }

    /** Any way of cutting a message into updates gives the hash of the whole message. */
    method HashChunks(chunks: seq<seq<Byte>>) returns (digest: seq<Byte>)
      requires Holds([]) && 8 * |Join(chunks)| < TWO_64
      modifies this, buffer
      ensures digest == HashOf(compress, Join(chunks))
    {
      var i := 0;
      ghost var sent: seq<Byte> := [];
      assert chunks[..0] == [];
      while i < |chunks|
        invariant 0 <= i <= |chunks| && Holds(sent) && sent == Join(chunks[..i])
      {
        Update(chunks[i], sent);
        sent := sent + chunks[i];
        assert chunks[..i + 1][..i] == chunks[..i];
        i := i + 1;
      }
      assert chunks[..i] == chunks;
      digest := Finish(sent);
    }
  }

  lemma CountWraps(a: nat, b: nat)
    ensures (a % TWO_64 + b) % TWO_64 == (a + b) % TWO_64
  {
  }

  function Join(chunks: seq<seq<Byte>>): seq<Byte> {
    if chunks == [] then [] else Join(chunks[..|chunks| - 1]) + chunks[|chunks| - 1]
  }
}
