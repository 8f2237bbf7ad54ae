/** The PNG chunk writer (scripts/dev-seed.ts, lines 109-118 and 152-171) against
    a reader of the chunk layout (sections 3.2 and 3.4 of RFC 2083). */
module Png {
  import opened Basics
  import opened Wrappers
  import opened Crc

  const WORDS := 0x1_0000_0000

  datatype Chunk = Chunk(kind: seq<bv8>, data: seq<bv8>)

  const SIGNATURE: seq<bv8> := [137, 80, 78, 71, 13, 10, 26, 10]

  /** `setUint32`: the lowest 32 bits of a number, highest byte first. */
  function WordBytes(n: nat): seq<bv8> {
    var n1 := n / 256;
    var n2 := n1 / 256;
    var n3 := n2 / 256;
    [(n3 % 256) as bv8, (n2 % 256) as bv8, (n1 % 256) as bv8, (n % 256) as bv8]
  }

  function WordOf(b: seq<bv8>): nat
    requires |b| == 4
  {
    (b[0] as int) * 0x100_0000 + (b[1] as int) * 0x1_0000 + (b[2] as int) * 0x100 + (b[3] as int)
  }

  lemma Successor(v: bv8)
    requires v != 0xff
    ensures (v + 1) as int == v as int + 1
  {
  }

  lemma {:induction false} ByteRoundTrip(n: nat) returns (v: bv8)
    requires n < 256
    ensures v as int == n && n as bv8 == v
  {
    if n == 0 {
      v := 0;
    } else {
      v := ByteRoundTrip(n - 1);
      Successor(v);
      v := v + 1;
    }
  }

  lemma Remainder(n: nat, q: nat, r: nat)
    requires n == q * WORDS + r && r < WORDS
    ensures n % WORDS == r
  {
  }

  lemma WordDigits(n: nat, n1: nat, n2: nat, n3: nat)
    requires n1 == n / 256 && n2 == n1 / 256 && n3 == n2 / 256
    ensures (n3 % 256) * 0x100_0000 + (n2 % 256) * 0x1_0000 + (n1 % 256) * 0x100 + n % 256 == n % WORDS
  {
    var r := (n3 % 256) * 0x100_0000 + (n2 % 256) * 0x1_0000 + (n1 % 256) * 0x100 + n % 256;
    assert n == 256 * n1 + n % 256 && n1 == 256 * n2 + n1 % 256 && n2 == 256 * n3 + n2 % 256;
    assert n3 == 256 * (n3 / 256) + n3 % 256;
    assert n == (n3 / 256) * WORDS + r;
    Remainder(n, n3 / 256, r);
  }

  lemma WordRoundTrip(n: nat)
    ensures |WordBytes(n)| == 4 && WordOf(WordBytes(n)) == n % WORDS
  {
    var n1 := n / 256;
    var n2 := n1 / 256;
    var n3 := n2 / 256;
    var a := ByteRoundTrip(n3 % 256);
    var b := ByteRoundTrip(n2 % 256);
    var c := ByteRoundTrip(n1 % 256);
    var d := ByteRoundTrip(n % 256);
    WordDigits(n, n1, n2, n3);
  }

  lemma CrcFits(crc: bv32)
    ensures 0 <= crc as int < WORDS
  {
  }

  ghost function Zeros(n: nat): seq<bv8> { seq(n, _ => 0) }

  /** What the four bytes of the type field hold: a shorter type leaves zeros, and
      of a longer one the data overwrite the rest. */
  ghost function TypeField(kind: seq<bv8>): (field: seq<bv8>)
    ensures |field| == 4
  {
    if |kind| >= 4 then kind[..4] else kind + Zeros(4 - |kind|)
  }

  /** The layout of one chunk. */
  ghost function Encoded(c: Chunk): seq<bv8> {
    var field := TypeField(c.kind);
    WordBytes(|c.data|) + field + c.data + WordBytes(BitwiseCrc(field + c.data) as int)
  }

  /** The type's bytes do not run past the end of the chunk's buffer. */
  predicate Fits(c: Chunk) { |c.kind| <= 8 + |c.data| }

  ghost function AllEncoded(cs: seq<Chunk>): seq<bv8> {
    if cs == [] then [] else Encoded(cs[0]) + AllEncoded(cs[1..])
  }

  /** `out.set(bytes, offset)`. */
  method SetBytes(out: array<bv8>, bytes: seq<bv8>, offset: nat)
    requires offset + |bytes| <= out.Length
    modifies out
    ensures out[..] == old(out[..offset]) + bytes + old(out[offset + |bytes|..])
  {
    for i := 0 to |bytes|
      invariant out[..] == old(out[..offset]) + bytes[..i] + old(out[offset + i..])
    {
      out[offset + i] := bytes[i];
      assert bytes[..i + 1] == bytes[..i] + [bytes[i]];
    }
    assert bytes[..|bytes|] == bytes;
  }

  /** The first eight bytes once the type is written over zeros. */
  lemma HeadWritten(head: seq<bv8>, kind: seq<bv8>, size: nat, all: seq<bv8>)
    requires |head| == 4 && |kind| + 4 <= size && 8 <= size && all == head + kind + Zeros(size - 4 - |kind|)
    ensures |all| == size && all[..8] == head + TypeField(kind)
  {
  }

  /** The chunk's buffer, or nothing when its type runs past the end of it. */
  method PngChunk(kind: seq<bv8>, data: seq<bv8>) returns (chunk: Option<array<bv8>>)
    ensures chunk.Some? <==> Fits(Chunk(kind, data))
    ensures chunk.Some? ==> fresh(chunk.value) && chunk.value[..] == Encoded(Chunk(kind, data))
  {
    hide BitwiseCrc, WordBytes, TypeField, Zeros;
    if |kind| > 8 + |data| { return None; }
    var out := ZeroBuffer(12 + |data|);
    WriteHead(out, kind, |data|);
    ghost var head := WordBytes(|data|) + TypeField(kind);
    WordRoundTrip(|data|);
    SetBytes(out, data, 8);
    var size := 8 + |data|;
    assert out[..size] == head + data;
    SealChunk(out, size);
    assert (head + data)[4..] == TypeField(kind) + data;
    assert out[..] == Encoded(Chunk(kind, data));
    return Some(out);
  }

  method ZeroBuffer(n: nat) returns (out: array<bv8>)
    ensures fresh(out) && out.Length == n && out[..] == Zeros(n)
  {
    out := new bv8[n](_ => 0);
  }

  /** The length and the type. */
  method WriteHead(out: array<bv8>, kind: seq<bv8>, length: nat)
    requires out.Length == 12 + length && |kind| <= 8 + length && out[..] == Zeros(out.Length)
    modifies out
    ensures out[..8] == WordBytes(length) + TypeField(kind)
  {
    hide TypeField;
    ghost var n := out.Length;
    WordRoundTrip(length);
    SetBytes(out, WordBytes(length), 0);
    assert out[..] == WordBytes(length) + Zeros(n - 4);
    SetBytes(out, kind, 4);
    assert out[..] == WordBytes(length) + kind + Zeros(n - 4 - |kind|);
    HeadWritten(WordBytes(length), kind, n, out[..]);
    assert out[..8] == out[..][..8];
  }

  /** The CRC of everything between the length and the last four bytes. */
  method SealChunk(out: array<bv8>, size: nat)
    requires 8 <= size && out.Length == size + 4
    modifies out
    ensures out[..] == old(out[..size]) + WordBytes(BitwiseCrc(old(out[..size])[4..]) as int)
  {
    hide BitwiseCrc;
    ghost var body := out[..size];
    var crc := Crc32(out[4..size]);
    assert out[4..size] == body[4..];
    WordRoundTrip(crc as int);
    SetBytes(out, WordBytes(crc as int), size);
  }

  ghost function Joined(parts: seq<seq<bv8>>): seq<bv8> {
    if parts == [] then [] else Joined(parts[..|parts| - 1]) + parts[|parts| - 1]
  }

  lemma JoinedSnoc(parts: seq<seq<bv8>>, part: seq<bv8>)
    ensures Joined(parts + [part]) == Joined(parts) + part
  {
    assert (parts + [part])[..|parts|] == parts;
  }

  /** The parts one after another, in a buffer of their total size. */
  method Concatenate(parts: seq<seq<bv8>>) returns (png: array<bv8>)
    ensures fresh(png) && png[..] == Joined(parts)
  {
    var total := 0;
    for i := 0 to |parts|
      invariant total == |Joined(parts[..i])|
    {
      assert parts[..i + 1] == parts[..i] + [parts[i]];
      JoinedSnoc(parts[..i], parts[i]);
      total := total + |parts[i]|;
    }
    assert parts[..|parts|] == parts;
    png := new bv8[total];
    var off := 0;
    for i := 0 to |parts|
      invariant off == |Joined(parts[..i])| <= total
      invariant png[..off] == Joined(parts[..i])
    {
      assert parts[..i + 1] == parts[..i] + [parts[i]];
      JoinedSnoc(parts[..i], parts[i]);
      JoinedPrefix(parts, i + 1);
      SetBytes(png, parts[i], off);
      off := off + |parts[i]|;
    }
  }

  lemma {:induction false} JoinedPrefix(parts: seq<seq<bv8>>, i: nat)
    requires i <= |parts|
    ensures |Joined(parts[..i])| <= |Joined(parts)|
    decreases |parts| - i
  {
    if i < |parts| {
      JoinedPrefix(parts, i + 1);
      assert parts[..i + 1] == parts[..i] + [parts[i]];
      JoinedSnoc(parts[..i], parts[i]);
    } else {
      assert parts[..i] == parts;
    }
  }

  lemma {:induction false} AllEncodedSnoc(cs: seq<Chunk>, c: Chunk)
    ensures AllEncoded(cs + [c]) == AllEncoded(cs) + Encoded(c)
  {
    hide Encoded;
    if cs == [] {
      assert [c][1..] == [] && AllEncoded([c]) == Encoded(c) + [];
    } else {
      AllEncodedSnoc(cs[1..], c);
      assert (cs + [c])[1..] == cs[1..] + [c];
      Regroup(Encoded(cs[0]), AllEncoded(cs[1..]), Encoded(c));
    }
  }

  ghost predicate AllFit(cs: seq<Chunk>) { forall c :: c in cs ==> Fits(c) }

  /** A file: the signature and every chunk, in order, unless one does not fit. */
  method Assemble(chunks: seq<Chunk>) returns (file: Option<array<bv8>>)
    ensures file.Some? <==> AllFit(chunks)
    ensures file.Some? ==>
              fresh(file.value) && file.value[..] == [137, 80, 78, 71, 13, 10, 26, 10] + AllEncoded(chunks)
  {
    hide Encoded;
    var parts := [SIGNATURE];
    JoinedSnoc([], SIGNATURE);
    assert [] + [SIGNATURE] == [SIGNATURE];
    for i := 0 to |chunks|
      invariant Joined(parts) == SIGNATURE + AllEncoded(chunks[..i])
      invariant forall j :: 0 <= j < i ==> Fits(chunks[j])
    {
      assert chunks[i] in chunks && Chunk(chunks[i].kind, chunks[i].data) == chunks[i];
      var part := PngChunk(chunks[i].kind, chunks[i].data);
      if part.None? { return None; }
      JoinedSnoc(parts, part.value[..]);
      AllEncodedSnoc(chunks[..i], chunks[i]);
      assert chunks[..i + 1] == chunks[..i] + [chunks[i]];
      parts := parts + [part.value[..]];
    }
    assert chunks[..|chunks|] == chunks;
    var png := Concatenate(parts);
    return Some(png);
  }

  // ------------------------------------------------------------------- reading

  /** A reader of chunks: each has its length, its four-byte type, its data and a
      CRC over the last two that must check. */
  ghost function DecodeChunks(bytes: seq<bv8>): Option<seq<Chunk>>
    decreases |bytes|
  {
    if bytes == [] then Some([])
    else if |bytes| < 12 then None
    else
      var n := WordOf(bytes[..4]);
      if |bytes| < 12 + n then None
      else
        var c := Chunk(bytes[4..8], bytes[8..8 + n]);
        if WordOf(bytes[8 + n..12 + n]) != BitwiseCrc(c.kind + c.data) as int then None
        else
          match DecodeChunks(bytes[12 + n..])
          case None => None
          case Some(rest) => Some([c] + rest)
  }

  ghost function Decode(png: seq<bv8>): Option<seq<Chunk>> {
    if SIGNATURE <= png then DecodeChunks(png[|SIGNATURE|..]) else None
  }

  ghost predicate Sized(cs: seq<Chunk>) { forall c :: c in cs ==> |c.data| < WORDS }

  ghost predicate Typed(cs: seq<Chunk>) { forall c :: c in cs ==> |c.kind| == 4 }

  /** Whatever is read has types of four bytes. */
  lemma {:induction false} ReadsTyped(bytes: seq<bv8>)
    ensures DecodeChunks(bytes).Some? ==> Typed(DecodeChunks(bytes).value)
    decreases |bytes|
  {
    hide BitwiseCrc, WordOf;
    if |bytes| >= 12 {
      var n := WordOf(bytes[..4]);
      if |bytes| >= 12 + n { ReadsTyped(bytes[12 + n..]); }
    }
  }

  /** The parts of an encoded chunk, with anything after it. */
  lemma EncodedParts(c: Chunk, rest: seq<bv8>, bytes: seq<bv8>)
    requires |c.kind| == 4 && bytes == Encoded(c) + rest
    ensures |bytes| == 12 + |c.data| + |rest|
    ensures bytes[..4] == WordBytes(|c.data|) && bytes[4..8] == c.kind && bytes[8..8 + |c.data|] == c.data
    ensures bytes[8 + |c.data|..12 + |c.data|] == WordBytes(BitwiseCrc(c.kind + c.data) as int)
    ensures bytes[12 + |c.data|..] == rest
  {
    hide BitwiseCrc;
    assert c.kind[..4] == c.kind;
  }

  /** A chunk whose length fits its field is read back. */
  lemma ReadsOne(c: Chunk, rest: seq<bv8>)
    requires |c.kind| == 4 && |c.data| < WORDS
    ensures DecodeChunks(Encoded(c) + rest)
         == match DecodeChunks(rest) case None => None case Some(cs) => Some([c] + cs)
  {
    hide BitwiseCrc, WordBytes, WordOf, Encoded;
    var bytes := Encoded(c) + rest;
    EncodedParts(c, rest, bytes);
    WordRoundTrip(|c.data|);
    WordRoundTrip(BitwiseCrc(c.kind + c.data) as int);
    CrcFits(BitwiseCrc(c.kind + c.data));
    assert bytes != [] && Chunk(bytes[4..8], bytes[8..8 + |c.data|]) == c;
  }

  /** A longer chunk is not: its field holds a smaller length. */
  lemma MisreadsOne(c: Chunk, rest: seq<bv8>)
    requires |c.kind| == 4 && WORDS <= |c.data|
    ensures match DecodeChunks(Encoded(c) + rest) case None => true case Some(cs) => cs != [] && cs[0] != c
  {
    hide BitwiseCrc, WordBytes, WordOf, Encoded;
    var bytes := Encoded(c) + rest;
    EncodedParts(c, rest, bytes);
    WordRoundTrip(|c.data|);
    var n := WordOf(bytes[..4]);
    assert n < WORDS && bytes != [];
  }

  /** The written chunks are read back, every CRC checking, exactly when no chunk's
      data outgrows its 32-bit length field. */
  lemma {:induction false} ChunksRoundTrip(cs: seq<Chunk>)
    requires Typed(cs)
    ensures DecodeChunks(AllEncoded(cs)) == Some(cs) <==> Sized(cs)
  {
    if cs != [] {
      var rest := cs[1..];
      assert cs == [cs[0]] + rest;
      ChunksRoundTrip(rest);
      if |cs[0].data| < WORDS { ReadsOne(cs[0], AllEncoded(rest)); } else { MisreadsOne(cs[0], AllEncoded(rest)); }
      hide Encoded, DecodeChunks;
      assert Sized(cs) <==> |cs[0].data| < WORDS && Sized(rest);
    }
  }

  /** A file is read back exactly when every type has four bytes and every length
      fits its field. */
  lemma FileRoundTrip(cs: seq<Chunk>)
    ensures Decode([137, 80, 78, 71, 13, 10, 26, 10] + AllEncoded(cs)) == Some(cs) <==> Typed(cs) && Sized(cs)
  {
    assert (SIGNATURE + AllEncoded(cs))[|SIGNATURE|..] == AllEncoded(cs);
    if Typed(cs) { ChunksRoundTrip(cs); } else { ReadsTyped(AllEncoded(cs)); }
    hide DecodeChunks, AllEncoded;
  }

  /** The last chunk of every file: no data, the type IEND and its CRC. */
  lemma LastChunk()
    ensures Encoded(Chunk([73, 69, 78, 68], [])) == [0, 0, 0, 0, 73, 69, 78, 68, 0xae, 0x42, 0x60, 0x82]
  {
    var kind: seq<bv8> := [73, 69, 78, 68];
    var field := TypeField(kind);
    assert kind[..4] == kind && field + [] == kind;
    KnownCrc();
    hide BitwiseCrc;
    assert WordBytes(0) == [0, 0, 0, 0];
    CheckValue(0xae42_6082);
    CheckDigits(0xae42_6082);
  }

  lemma CheckValue(crc: bv32)
    requires crc == 0xae42_6082
    ensures crc as int == 0xae42_6082
  {
  }

  lemma CheckDigits(n: nat)
    requires n == 0xae42_6082
    ensures WordBytes(n) == [0xae, 0x42, 0x60, 0x82]
  {
    assert n / 256 == 0xae_4260 && n / 256 / 256 == 0xae42 && n / 256 / 256 / 256 == 0xae;
    Digit(n, 0x82);
    Digit(n / 256, 0x60);
    Digit(n / 256 / 256, 0x42);
    Digit(n / 256 / 256 / 256, 0xae);
  }

  lemma Digit(n: nat, digit: bv8)
    requires n % 256 == digit as int
    ensures (n % 256) as bv8 == digit
  {
    var v := ByteRoundTrip(n % 256);
  }

  /** Data of 2^32 bytes are announced as none and not read back. */
  lemma LongChunkIsLost(kind: seq<bv8>)
    requires |kind| == 4
    ensures var c := Chunk(kind, Zeros(WORDS));
            Fits(c) && Decode([137, 80, 78, 71, 13, 10, 26, 10] + AllEncoded([c])) != Some([c])
  {
    var c := Chunk(kind, Zeros(WORDS));
    FileRoundTrip([c]);
    hide Decode, AllEncoded;
    assert c in [c];
  }
}
