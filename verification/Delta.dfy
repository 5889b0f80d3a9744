/** The rolling checksum and the chunk signatures of the delta prototype, in wrapping 32-bit arithmetic. */
module Delta {
  import opened Versions
  import opened Wrappers

  const WORD := 0x1_0000_0000

  const HALF := 0x1_0000

  /** `x as u32`, and the wrapping operators: everything is taken modulo 2^32. */
  function Wrap(x: int): (r: nat)
    ensures r < WORD
  {
    x % WORD
  }

  lemma WrapOfMultiple(x: int, k: int)
    ensures Wrap(x + k * WORD) == Wrap(x)
  {
    var q, r := x / WORD, x % WORD;
    assert x + k * WORD == (q + k) * WORD + r;
    UniqueRemainder(x + k * WORD, q + k, r);
  }

  lemma UniqueRemainder(x: int, q: int, r: int)
    requires x == q * WORD + r && 0 <= r < WORD
    ensures x % WORD == r
  {
    var q', r' := x / WORD, x % WORD;
    assert (q' - q) * WORD == r - r';
  }

  /** Wrapping the parts first makes no difference to a wrapped sum or product. */
  lemma WrapSum(x: int, y: int)
    ensures Wrap(Wrap(x) + y) == Wrap(x + y)
  {
    var q := x / WORD;
    assert x + y == Wrap(x) + y + q * WORD;
    WrapOfMultiple(Wrap(x) + y, q);
  }

  lemma WrapProduct(x: int, y: int)
    ensures Wrap(Wrap(x) * y) == Wrap(x * y)
  {
    var q := x / WORD;
    assert x == Wrap(x) + q * WORD;
    assert x * y == Wrap(x) * y + (q * y) * WORD by {
      assert (Wrap(x) + q * WORD) * y == Wrap(x) * y + q * WORD * y;
    }
    WrapOfMultiple(Wrap(x) * y, q * y);
  }

  // ----- What the two accumulators mean -----

  function Sum(window: Bytes): int {
    if window == [] then 0 else Sum(window[..|window| - 1]) + window[|window| - 1] as int
  }

  /** The first byte counts `|window|` times, the last one once. */
  function Weighted(window: Bytes): int {
    if window == [] then 0 else Weighted(window[..|window| - 1]) + Sum(window)
  }

  datatype Hash = Hash(a: nat, b: nat, len: nat)

  function WindowHash(window: Bytes): Hash {
    Hash(Wrap(Sum(window)), Wrap(Weighted(window)), |window|)
  }

  /** `(b << 16) | (a & 0xffff)` on 32-bit words. */
  function Value(h: Hash): (v: nat)
    ensures v < WORD
  {
    (h.b % HALF) * HALF + h.a % HALF
  }

  function Rolled(h: Hash, outgoing: byte, incoming: byte): Hash {
    var a := Wrap(Wrap(h.a - outgoing as int) + incoming as int);
    Hash(a, Wrap(Wrap(h.b - Wrap(Wrap(h.len) * outgoing as int)) + a), h.len)
  }

  class RollingHash {
    var a: nat
    var b: nat
    const windowLen: nat

    ghost function View(): Hash
      reads this
    {
      Hash(a, b, windowLen)
    }

    /** Each byte times its distance from the end of the window. */
    constructor FromWindow(window: Bytes)
      ensures View() == WindowHash(window)
    {
      var a, b := 0, 0;
      var i := 0;
      while i < |window|
        invariant 0 <= i <= |window|
        invariant a == Wrap(Sum(window[..i])) && b == Wrap(WeightedFrom(window, i))
      {
        hide Wrap, Sum, WeightedFrom;
        CountByte(window, i);
        var value := window[i] as int;
        a := Wrap(a + value);
        b := Wrap(b + Wrap(Wrap(|window| - i) * value));
        i := i + 1;
      }
      assert window[..i] == window;
      WeightedForwards(window, |window|);
      this.a, this.b, this.windowLen := a, b, |window|;
    }

    method CurrentValue() returns (v: nat)
      ensures v == Value(View())
    {
      v := (b % HALF) * HALF + a % HALF;
    }

    method Roll(outgoing: byte, incoming: byte) returns (v: nat)
      modifies this
      ensures View() == Rolled(old(View()), outgoing, incoming)
      ensures v == Value(View())
    {
      hide Wrap, Value;
      a := Wrap(Wrap(a - outgoing as int) + incoming as int);
      b := Wrap(Wrap(b - Wrap(Wrap(windowLen) * outgoing as int)) + a);
      v := CurrentValue();
    }
  }

  /** The weighted sum as the constructor accumulates it: `i` bytes counted, each by its final weight. */
  function WeightedFrom(window: Bytes, i: nat): int
    requires i <= |window|
  {
    if i == 0 then 0 else WeightedFrom(window, i - 1) + (|window| - (i - 1)) * window[i - 1] as int
  }

  /** One byte more in the two wrapped accumulators. */
  lemma CountByte(window: Bytes, i: nat)
    requires i < |window|
    ensures var value := window[i] as int;
            && Wrap(Wrap(Sum(window[..i])) + value) == Wrap(Sum(window[..i + 1]))
            && Wrap(Wrap(WeightedFrom(window, i)) + Wrap(Wrap(|window| - i) * value)) == Wrap(WeightedFrom(window, i + 1))
  {
    hide Wrap;
    var value := window[i] as int;
    assert window[..i + 1][..i] == window[..i];
    WrapSum(Sum(window[..i]), value);
    var weighted, term := WeightedFrom(window, i), (|window| - i) * value;
    WrapProduct(|window| - i, value);
    WrapSum(weighted, Wrap(term));
    WrapSum(term, weighted);
    assert WeightedFrom(window, i + 1) == weighted + term;
  }

  /** Counting each byte by its weight, or adding up the sums of all prefixes, is the same. */
  lemma {:induction false} WeightedForwards(window: Bytes, i: nat)
    requires i <= |window|
    ensures WeightedFrom(window, i) == Weighted(window[..i]) + (|window| - i) * Sum(window[..i])
    ensures i == |window| ==> WeightedFrom(window, i) == Weighted(window)
  {
    if i > 0 {
      WeightedForwards(window, i - 1);
      var before, last, rest := window[..i - 1], window[i - 1] as int, |window| - i;
      assert window[..i][..i - 1] == before;
      assert Sum(window[..i]) == Sum(before) + last;
      assert (rest + 1) * Sum(before) + (rest + 1) * last == rest * Sum(window[..i]) + Sum(window[..i]) by {
        assert rest * Sum(window[..i]) == rest * Sum(before) + rest * last;
        assert (rest + 1) * Sum(before) == rest * Sum(before) + Sum(before);
        assert (rest + 1) * last == rest * last + last;
      }
    }
    assert window[..|window|] == window;
  }

  // ----- Rolling -----

  lemma {:induction false} DropFirst(window: Bytes)
    requires window != []
    ensures Sum(window[1..]) == Sum(window) - window[0] as int
    ensures Weighted(window[1..]) == Weighted(window) - |window| * window[0] as int
  {
    var n := |window|;
    if n > 1 {
      var front := window[..n - 1];
      DropFirst(front);
      assert front[1..] == window[1..][..n - 2];
      assert (n - 1) * window[0] as int + window[0] as int == n * window[0] as int;
    } else {
      assert window[..0] == [] && window[1..] == [];
      assert Sum(window) == window[0] as int;
    }
  }

  lemma MovedSums(window: Bytes, incoming: byte)
    requires window != []
    ensures var next := window[1..] + [incoming];
            && Sum(next) == Sum(window) - window[0] as int + incoming as int
            && Weighted(next) == Weighted(window) - |window| * window[0] as int + Sum(next)
  {
    var next := window[1..] + [incoming];
    assert next[..|next| - 1] == window[1..];
    DropFirst(window);
  }

  /** One roll: the checksum of the window one byte further on. */
  lemma RollMovesWindow(window: Bytes, incoming: byte)
    requires window != []
    ensures Rolled(WindowHash(window), window[0], incoming) == WindowHash(window[1..] + [incoming])
  {
    hide Wrap, Sum, Weighted;
    var out := window[0] as int;
    var next := window[1..] + [incoming];
    MovedSums(window, incoming);
    WrapSum(Sum(window), -out);
    WrapSum(Sum(window) - out, incoming as int);
    RollWeighted(Weighted(window), out, |window|, Sum(next));
  }

  lemma WrapDifference(x: int, y: int)
    ensures Wrap(Wrap(x) - Wrap(y)) == Wrap(x - y)
  {
    var less: int := Wrap(y);
    WrapSum(x, -less);
    var q := y / WORD;
    assert y == Wrap(y) + q * WORD;
    assert x - Wrap(y) == x - y + q * WORD;
    WrapOfMultiple(x - y, q);
  }

  lemma WrapBoth(x: int, y: int)
    ensures Wrap(Wrap(x) + Wrap(y)) == Wrap(x + y)
  {
    WrapSum(x, Wrap(y));
    WrapSum(y, x);
  }

  lemma RollWeighted(weighted: int, out: int, n: int, next: int)
    ensures Wrap(Wrap(Wrap(weighted) - Wrap(Wrap(n) * out)) + Wrap(next)) == Wrap(weighted - n * out + next)
  {
    WrapProduct(n, out);
    hide Wrap;
    var product := n * out;
    WrapDifference(weighted, product);
    WrapBoth(weighted - product, next);
  }

  /** The checksum after rolling `k` times across a buffer, starting from its first `len` bytes. */
  function RolledTo(buffer: Bytes, len: nat, k: nat): Hash
    requires k + len <= |buffer|
  {
    if k == 0 then WindowHash(buffer[..len])
    else Rolled(RolledTo(buffer, len, k - 1), buffer[k - 1], buffer[k - 1 + len])
  }

  /** Rolling across a buffer of any length gives at every offset exactly the checksum of that window. */
  lemma {:induction false} RollingIsFromWindow(buffer: Bytes, len: nat, k: nat)
    requires 1 <= len && k + len <= |buffer|
    ensures RolledTo(buffer, len, k) == WindowHash(buffer[k..k + len])
  {
    if k > 0 {
      RollingIsFromWindow(buffer, len, k - 1);
      var window := buffer[k - 1..k - 1 + len];
      RollMovesWindow(window, buffer[k - 1 + len]);
      assert window[1..] + [buffer[k - 1 + len]] == buffer[k..k + len];
    } else {
      assert buffer[0..len] == buffer[..len];
    }
  }

  /** The method driven across a buffer, as a scanner would: one value per offset. */
  method WeakValues(buffer: Bytes, len: nat) returns (values: seq<nat>)
    requires 1 <= len <= |buffer|
    ensures |values| == |buffer| - len + 1
    ensures forall k :: 0 <= k < |values| ==> values[k] == Value(WindowHash(buffer[k..k + len]))
  {
    hide WindowHash, Value, Rolled;
    var hash := new RollingHash.FromWindow(buffer[..len]);
    var v := hash.CurrentValue();
    assert buffer[0..len] == buffer[..len];
    values := [v];
    var k := 0;
    while k + len < |buffer|
      invariant 0 <= k && k + len <= |buffer| && |values| == k + 1
      invariant fresh(hash)
      invariant hash.View() == WindowHash(buffer[k..k + len])
      invariant forall j :: 0 <= j <= k ==> values[j] == Value(WindowHash(buffer[j..j + len]))
    {
      var window := buffer[k..k + len];
      RollMovesWindow(window, buffer[k + len]);
      assert window[1..] + [buffer[k + len]] == buffer[k + 1..k + 1 + len];
      v := hash.Roll(buffer[k], buffer[k + len]);
      values := values + [v];
      k := k + 1;
    }
  }

  /** The value keeps the low half of each accumulator, and nothing else. */
  lemma ValueKeepsLowHalves(x: Hash, y: Hash)
    ensures Value(x) == Value(y) <==> x.a % HALF == y.a % HALF && x.b % HALF == y.b % HALF
  {
  }

  const LONGEST_WINDOW := 16_843_009

  /** The unchecked product `(len - idx) as u32 * value` stays within a word. */
  predicate ProductFits(len: nat, i: nat, value: byte)
    requires i < len
  {
    Wrap(len - i) * value as int < WORD
  }

  /** The product can overflow for no byte of any window of that length exactly up to 16,843,009 bytes. */
  lemma OverflowBound(len: nat)
    ensures (forall i: nat, value: byte :: i < len ==> ProductFits(len, i, value)) <==> len <= LONGEST_WINDOW
  {
    if len <= LONGEST_WINDOW {
      forall i: nat, value: byte | i < len ensures ProductFits(len, i, value) {
        assert Wrap(len - i) == len - i;
        assert (len - i) * value as int <= (len - i) * 255;
      }
    } else {
      var i := len - LONGEST_WINDOW - 1;
      assert Wrap(len - i) == LONGEST_WINDOW + 1;
      assert !ProductFits(len, i, 255);
    }
  }

  // ----- Chunk signatures -----

  datatype ChunkSignature = ChunkSignature(offset: nat, len: nat, weak: nat, strong: Version)

  function Signature(offset: nat, chunk: Bytes): ChunkSignature {
    ChunkSignature(offset, |chunk|, Value(WindowHash(chunk)), Sha256(chunk))
  }

  /** The slices `bytes.chunks(size)`: all of `size` bytes but perhaps the last. */
  function Chunks(bytes: Bytes, size: nat): (chunks: seq<Bytes>)
    requires size > 0
    decreases |bytes|
  {
    if bytes == [] then []
    else [bytes[..Min(size, |bytes|)]] + Chunks(bytes[Min(size, |bytes|)..], size)
  }

  /** `index * chunk_size`. */
  function Offset(index: nat, size: nat): nat {
    index * size
  }

  lemma NextOffset(index: nat, size: nat)
    ensures Offset(0, size) == 0
    ensures Offset(index + 1, size) == Offset(index, size) + size
  {
  }

  function BuildChunkSignatures(bytes: Bytes, size: nat): seq<ChunkSignature> {
    if size == 0 then []
    else
      var chunks := Chunks(bytes, size);
      seq(|chunks|, index requires 0 <= index < |chunks| => Signature(Offset(index, size), chunks[index]))
  }

  lemma SliceOfSuffix(bytes: Bytes, first: nat, from: nat, to: nat)
    requires first <= |bytes| && from <= to <= |bytes| - first
    ensures bytes[first..][from..to] == bytes[first + from..first + to]
  {
  }

  /** Chunk `i` starts where `i` full chunks end, and only the last chunk can be short. */
  lemma {:induction false} ChunkAt(bytes: Bytes, size: nat, i: nat)
    requires size > 0 && i < |Chunks(bytes, size)|
    ensures Offset(i, size) < |bytes|
    ensures Chunks(bytes, size)[i] == bytes[Offset(i, size)..Min(Offset(i, size) + size, |bytes|)]
    ensures i + 1 == |Chunks(bytes, size)| <==> Offset(i, size) + size >= |bytes|
    decreases i
  {
    hide Offset;
    var first := Min(size, |bytes|);
    NextOffset(0, size);
    if i > 0 {
      var rest := bytes[first..];
      assert Chunks(bytes, size)[i] == Chunks(rest, size)[i - 1];
      ChunkAt(rest, size, i - 1);
      NextOffset(i - 1, size);
      assert first == size;
      SliceOfSuffix(bytes, first, Offset(i - 1, size), Min(Offset(i - 1, size) + size, |rest|));
    } else {
      assert Chunks(bytes, size)[0] == bytes[..first];
      assert |Chunks(bytes, size)| == 1 <==> bytes[first..] == [];
    }
  }

  ghost predicate SignatureFits(bytes: Bytes, size: nat, s: ChunkSignature) {
    0 < s.len <= size && s.offset + s.len <= |bytes| && s == Signature(s.offset, bytes[s.offset..s.offset + s.len])
  }

  lemma SignatureAt(bytes: Bytes, size: nat, i: nat)
    requires size > 0 && i < |BuildChunkSignatures(bytes, size)|
    ensures var s := BuildChunkSignatures(bytes, size);
            && s[i].offset == Offset(i, size) && SignatureFits(bytes, size, s[i])
            && s[i].len == Min(size, |bytes| - Offset(i, size))
            && (i + 1 == |s| <==> Offset(i, size) + size >= |bytes|)
  {
    hide Offset, WindowHash, Value;
    ChunkAt(bytes, size, i);
  }

  /**
   * The tiling: signatures start at zero, follow one another without gap or overlap, describe the bytes
   * they span, and end with the bytes.
   */
  lemma SignaturesTile(bytes: Bytes, size: nat)
    requires size > 0
    ensures var s := BuildChunkSignatures(bytes, size);
            && (bytes == [] <==> s == [])
            && (s != [] ==> s[0].offset == 0 && s[|s| - 1].offset + s[|s| - 1].len == |bytes|)
            && (forall i :: 0 <= i < |s| - 1 ==> s[i].len == size && s[i + 1].offset == s[i].offset + s[i].len)
            && (forall i :: 0 <= i < |s| ==> SignatureFits(bytes, size, s[i]))
  {
    hide Offset, SignatureFits, Signature;
    var s := BuildChunkSignatures(bytes, size);
    assert bytes == [] <==> s == [];
    NextOffset(0, size);
    forall i | 0 <= i < |s| ensures SignatureFits(bytes, size, s[i]) {
      SignatureAt(bytes, size, i);
    }
    if s != [] {
      SignatureAt(bytes, size, 0);
      SignatureAt(bytes, size, |s| - 1);
    }
    forall i | 0 <= i < |s| - 1 ensures s[i].len == size && s[i + 1].offset == s[i].offset + s[i].len {
      SignatureAt(bytes, size, i);
      SignatureAt(bytes, size, i + 1);
      NextOffset(i, size);
    }
  }

  /** The signatures of the ranges read from `offset` on, each one chunk long or up to the end; a read may fail. */
  function ReadSignatures(bytes: Bytes, size: nat, offset: nat, refused: set<nat>): Result<seq<ChunkSignature>, ()>
    requires size > 0
    decreases |bytes| - offset
  {
    if offset >= |bytes| then Ok([])
    else if offset in refused then Err(())
    else
      var end := Min(offset + size, |bytes|);
      Prepended([Signature(offset, bytes[offset..end])], ReadSignatures(bytes, size, end, refused))
  }

  /** The range-reading loop over a remote object; reads that start at a refused offset fail. */
  method BuildRemoteChunkSignatures(content: Bytes, size: nat, refused: set<nat>)
    returns (r: Result<seq<ChunkSignature>, ()>)
    ensures r == if size == 0 then Ok([]) else ReadSignatures(content, size, 0, refused)
  {
    if size == 0 {
      return Ok([]);
    }
    hide Signature;
    var signatures := [];
    var offset := 0;
    PrependedLaws([], Signature(0, []), ReadSignatures(content, size, 0, refused));
    while offset < |content|
      invariant 0 <= offset <= |content|
      invariant ReadSignatures(content, size, 0, refused) == Prepended(signatures, ReadSignatures(content, size, offset, refused))
      decreases |content| - offset
    {
      if offset in refused {
        return Err(());
      }
      var end := Min(offset + size, |content|);
      PrependedLaws(signatures, Signature(offset, content[offset..end]), ReadSignatures(content, size, end, refused));
      signatures := signatures + [Signature(offset, content[offset..end])];
      offset := end;
    }
    assert signatures + [] == signatures;
    r := Ok(signatures);
  }

  /** Some read from chunk `i` on fails. */
  ghost predicate SomeRefused(bytes: Bytes, size: nat, i: nat, refused: set<nat>)
    requires size > 0
  {
    exists j :: i <= j < |Chunks(bytes, size)| && Offset(j, size) in refused
  }

  /** Reading on from the start of chunk `i` yields the signatures from `i` on, unless one of the reads fails. */
  lemma {:induction false} ReadsFromChunk(bytes: Bytes, size: nat, i: nat, refused: set<nat>)
    requires size > 0 && i <= |BuildChunkSignatures(bytes, size)|
    ensures ReadSignatures(bytes, size, Offset(i, size), refused) ==
            if SomeRefused(bytes, size, i, refused) then Err(()) else Ok(BuildChunkSignatures(bytes, size)[i..])
    decreases |BuildChunkSignatures(bytes, size)| - i
  {
    hide Offset, Signature, Chunks;
    var all := BuildChunkSignatures(bytes, size);
    if i < |all| {
      ChunkAt(bytes, size, i);
      NextOffset(i, size);
      ReadsFromChunk(bytes, size, i + 1, refused);
      assert all[i..] == [all[i]] + all[i + 1..];
      assert SomeRefused(bytes, size, i, refused) <==> Offset(i, size) in refused || SomeRefused(bytes, size, i + 1, refused);
    } else {
      EndOfChunks(bytes, size, i);
      assert all[i..] == [];
    }
  }

  lemma EndOfChunks(bytes: Bytes, size: nat, i: nat)
    requires size > 0 && i == |Chunks(bytes, size)|
    ensures Offset(i, size) >= |bytes|
  {
    if i > 0 {
      ChunkAt(bytes, size, i - 1);
      NextOffset(i - 1, size);
    }
  }

  /** The range reads yield exactly the signatures of the chunked bytes, or fail exactly when the read of a chunk does. */
  lemma RangeReadsAreChunks(bytes: Bytes, size: nat, refused: set<nat>)
    requires size > 0
    ensures ReadSignatures(bytes, size, 0, refused) ==
            if SomeRefused(bytes, size, 0, refused) then Err(()) else Ok(BuildChunkSignatures(bytes, size))
  {
    NextOffset(0, size);
    ReadsFromChunk(bytes, size, 0, refused);
    assert BuildChunkSignatures(bytes, size)[0..] == BuildChunkSignatures(bytes, size);
  }
}
