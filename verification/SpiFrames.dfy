/** Frames of the SPI bootstrap protocol: util/fpga/cw_spiflash.py and sw/device/boot_rom. */
module SpiFrames {
  import opened Basics
  import opened Bits

  type Byte = x: int | 0 <= x < 256
  type Bytes = seq<Byte>

  /** A digest function; nothing but its output length is fixed. */
  type Hash = Bytes -> Bytes

  const DIGEST_SIZE := 32
  const FRAME_SIZE := 2048
  const PAYLOAD_SIZE := 2008
  const WORD := 0x1_0000_0000
  const EOF_MARKER := 0x8000_0000
  const MAX_FRAMES := 2138928

  ghost predicate DigestSized(h: Hash)
  {
    forall b :: |h(b)| == DIGEST_SIZE
  }

  // ----- little-endian integers --------------------------------------------------------------

  function Pow256(n: nat): (r: nat)
    ensures r >= 1
  {
    if n == 0 then 1 else 256 * Pow256(n - 1)
  }

  function LittleEndian(val: nat, length: nat): (r: Bytes)
    ensures |r| == length
  {
    if length == 0 then [] else [val % 256] + LittleEndian(val / 256, length - 1)
  }

  /** `int.to_bytes`, which raises an error for a value that does not fit. */
  function UintToLe(val: nat, length: nat): Option<Bytes>
  {
    if val < Pow256(length) then Some(LittleEndian(val, length)) else None
  }

  function LeToUint(b: Bytes): nat
  {
    if |b| == 0 then 0 else b[0] + 256 * LeToUint(b[1..])
  }

  /** Decoding gives back every value that can be encoded. */
  lemma {:induction false} LeRoundTrip(val: nat, length: nat)
    requires val < Pow256(length)
    ensures UintToLe(val, length).Some? && LeToUint(UintToLe(val, length).value) == val
  {
    if length > 0 {
      LeRoundTrip(val / 256, length - 1);
      var b := LittleEndian(val, length);
      assert b[1..] == LittleEndian(val / 256, length - 1);
    }
  }

  /** The lowest byte comes first. */
  lemma {:induction false} LittleEndianByte(val: nat, length: nat, i: nat)
    requires i < length
    ensures LittleEndian(val, length)[i] == (val / Pow256(i)) % 256
  {
    if i > 0 {
      LittleEndianByte(val / 256, length - 1, i - 1);
      NextByte(val, Pow256(i - 1));
    }
  }

  lemma NextByte(val: nat, p: nat)
    requires p >= 1
    ensures val / (256 * p) == (val / 256) / p
  {
    var q, r := val / (256 * p), val % (256 * p);
    assert val == (256 * p) * q + r;
    assert val / 256 == p * q + r / 256;
    assert r / 256 < p;
    DivUnique(val / 256, p, q, r / 256);
  }

  /** Encoding gives back every byte string. */
  lemma {:induction false} LeRoundTripBytes(b: Bytes)
    ensures LeToUint(b) < Pow256(|b|) && LittleEndian(LeToUint(b), |b|) == b
  {
    if |b| > 0 {
      LeRoundTripBytes(b[1..]);
      var rest := LeToUint(b[1..]);
      assert LeToUint(b) == b[0] + 256 * rest;
      assert LeToUint(b) % 256 == b[0] && LeToUint(b) / 256 == rest;
      hide LeToUint;
      assert b == [b[0]] + b[1..];
    }
  }

  // ----- frames ------------------------------------------------------------------------------

  function Pad(payload: Bytes): (r: Bytes)
    ensures |payload| <= PAYLOAD_SIZE ==> |r| == PAYLOAD_SIZE
    ensures payload <= r && forall i :: |payload| <= i < |r| ==> r[i] == 0xFF
  {
    if |payload| < PAYLOAD_SIZE then payload + seq(PAYLOAD_SIZE - |payload|, _ => 0xFF) else payload
  }

  /** The bytes of a frame, or None when the frame number or the offset does not fit four bytes. */
  function MakeFrame(h: Hash, number: nat, offset: nat, payload: Bytes): Option<Bytes>
  {
    match (UintToLe(number, 4), UintToLe(offset, 4))
    case (Some(num), Some(off)) =>
      var body := num + off + Pad(payload);
      Some(h(body) + body)
    case _ => None
  }

  function NumberField(f: Bytes): nat
    requires |f| == FRAME_SIZE
  {
    LeToUint(f[32..36])
  }

  function OffsetField(f: Bytes): nat
    requires |f| == FRAME_SIZE
  {
    LeToUint(f[36..40])
  }

  function PayloadField(f: Bytes): Bytes
    requires |f| == FRAME_SIZE
  {
    f[40..]
  }

  /** A whole frame whose digest matches the rest of it. */
  predicate Intact(h: Hash, f: Bytes)
  {
    |f| == FRAME_SIZE && f[..DIGEST_SIZE] == h(f[DIGEST_SIZE..])
  }

  /** A frame is exactly FRAME_SIZE bytes, carries its own digest, and decodes to what it was made of. */
  lemma FrameRoundTrip(h: Hash, number: nat, offset: nat, payload: Bytes)
    requires DigestSized(h) && |payload| <= PAYLOAD_SIZE
    ensures MakeFrame(h, number, offset, payload).Some? <==> number < WORD && offset < WORD
    ensures number < WORD && offset < WORD ==>
      var f := MakeFrame(h, number, offset, payload).value;
      Intact(h, f) && NumberField(f) == number && OffsetField(f) == offset && PayloadField(f) == Pad(payload)
  {
    assert Pow256(4) == WORD by { Pow256Of4(); }
    if number < WORD && offset < WORD {
      LeRoundTrip(number, 4);
      LeRoundTrip(offset, 4);
      var num, off, pad := LittleEndian(number, 4), LittleEndian(offset, 4), Pad(payload);
      hide LittleEndian, LeToUint;
      FrameLayout(h, num, off, pad);
    }
  }

  lemma FrameLayout(h: Hash, num: Bytes, off: Bytes, pad: Bytes)
    requires DigestSized(h) && |num| == 4 && |off| == 4 && |pad| == PAYLOAD_SIZE
    ensures var body := num + off + pad; var f := h(body) + body;
      && |f| == FRAME_SIZE && f[..DIGEST_SIZE] == h(f[DIGEST_SIZE..])
      && f[32..36] == num && f[36..40] == off && f[40..] == pad
  {
    var body := num + off + pad;
    var f := h(body) + body;
    assert f[32..] == body;
    assert f[..32] == h(body);
    assert f[32..36] == num;
    assert f[36..40] == off;
    assert f[40..] == pad;
  }

  lemma Pow256Of4()
    ensures Pow256(4) == WORD
  {
    assert Pow256(1) == 256;
    assert Pow256(2) == 256 * Pow256(1);
    assert Pow256(3) == 256 * Pow256(2);
  }

  // ----- an image as frames ------------------------------------------------------------------

  function ChunkCount(image: Bytes): nat
  {
    (|image| + PAYLOAD_SIZE - 1) / PAYLOAD_SIZE
  }

  /** The i-th block read from the image. */
  function Chunk(image: Bytes, i: nat): Bytes
    requires i < ChunkCount(image)
  {
    if (i + 1) * PAYLOAD_SIZE <= |image| then image[i * PAYLOAD_SIZE..(i + 1) * PAYLOAD_SIZE]
    else image[i * PAYLOAD_SIZE..]
  }

  /** The data frames whose offset fits the offset field: all of them, for any image below 4 GiB. */
  function FrameCount(image: Bytes): (n: nat)
    ensures n <= ChunkCount(image)
  {
    if ChunkCount(image) < MAX_FRAMES then ChunkCount(image) else MAX_FRAMES
  }

  /** Every frame of the image, up to and including the end frame, can be made. */
  predicate Sendable(image: Bytes)
  {
    ChunkCount(image) * PAYLOAD_SIZE < WORD
  }

  function DataFrame(h: Hash, image: Bytes, i: nat): Option<Bytes>
    requires i < ChunkCount(image)
  {
    MakeFrame(h, i, i * PAYLOAD_SIZE, Chunk(image, i))
  }

  function EndFrame(h: Hash, image: Bytes): Option<Bytes>
  {
    MakeFrame(h, Marked(ChunkCount(image)), ChunkCount(image) * PAYLOAD_SIZE, [])
  }

  /** `frame_number | (1 << 31)` */
  function Marked(n: nat): nat
  {
    if Bit(n, 31) then n else n + Pow2(31)
  }

  /** The marker is set, and no other bit changes. */
  lemma MarkedBits(n: nat, j: nat)
    ensures Bit(Marked(n), j) == (j == 31 || Bit(n, j))
  {
    if !Bit(n, 31) { AddPow2(n, 31, j); }
  }

  /** For every frame number that can occur, the marker is a sum. */
  lemma MarkerIsSum(n: nat)
    requires n < EOF_MARKER
    ensures Marked(n) == n + EOF_MARKER
  {
    MarkerValue();
    HighBitsClear(n, 31, 31);
  }

  lemma MarkerValue()
    ensures Pow2(31) == EOF_MARKER
  {
    assert Pow2(8) == 256;
    assert Pow2(16) == 256 * Pow2(8);
    assert Pow2(24) == 256 * Pow2(16);
    assert Pow2(31) == 128 * Pow2(24);
  }

  /** The data frames that can be made, in order. */
  function DataFrames(h: Hash, image: Bytes): (r: seq<Bytes>)
    requires DigestSized(h)
    ensures |r| == FrameCount(image)
    ensures forall i :: 0 <= i < |r| ==> Some(r[i]) == DataFrame(h, image, i)
  {
    FramesExist(h, image);
    seq(FrameCount(image), i requires 0 <= i < FrameCount(image) => DataFrame(h, image, i).value)
  }

  /** Making frame after frame fails with an overflow exactly when the image is not sendable: at the
      first data frame past the offset field, or at the end frame. */
  lemma FramesExist(h: Hash, image: Bytes)
    requires DigestSized(h)
    ensures forall i :: 0 <= i < ChunkCount(image) ==> (DataFrame(h, image, i).Some? <==> i < FrameCount(image))
    ensures EndFrame(h, image).Some? <==> Sendable(image)
    ensures Sendable(image) ==> FrameCount(image) == ChunkCount(image)
  {
    EndExists(h, image);
    forall i | 0 <= i < ChunkCount(image) ensures DataFrame(h, image, i).Some? <==> i < FrameCount(image) {
      FrameRoundTrip(h, i, i * PAYLOAD_SIZE, Chunk(image, i));
    }
  }

  lemma EndExists(h: Hash, image: Bytes)
    requires DigestSized(h)
    ensures EndFrame(h, image).Some? <==> Sendable(image)
    ensures Sendable(image) ==> FrameCount(image) == ChunkCount(image)
  {
    var n := ChunkCount(image);
    hide Pow2, Bit;
    FrameRoundTrip(h, Marked(n), n * PAYLOAD_SIZE, []);
    if Sendable(image) { MarkerIsSum(n); }
  }

  /** What the end frame decodes to: the number after the last data frame with the marker set, the offset
      behind it, and an empty payload. */
  lemma EndFrameFields(h: Hash, image: Bytes)
    requires DigestSized(h) && Sendable(image)
    ensures EndFrame(h, image).Some?
    ensures var f := EndFrame(h, image).value;
      Intact(h, f) && NumberField(f) == ChunkCount(image) + EOF_MARKER
        && OffsetField(f) == ChunkCount(image) * PAYLOAD_SIZE && PayloadField(f) == Pad([])
  {
    hide Pow2, Bit;
    EndExists(h, image);
    FrameRoundTrip(h, Marked(ChunkCount(image)), ChunkCount(image) * PAYLOAD_SIZE, []);
    MarkerIsSum(ChunkCount(image));
  }

  /** What data frame i decodes to. */
  lemma DataFrameFields(h: Hash, image: Bytes, i: nat)
    requires DigestSized(h) && i < FrameCount(image)
    ensures var f := DataFrames(h, image)[i];
      Intact(h, f) && NumberField(f) == i && OffsetField(f) == i * PAYLOAD_SIZE
        && PayloadField(f) == Pad(Chunk(image, i))
  {
    FrameRoundTrip(h, i, i * PAYLOAD_SIZE, Chunk(image, i));
    assert Some(DataFrames(h, image)[i]) == DataFrame(h, image, i);
  }
}
