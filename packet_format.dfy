/**
 * The audio telemetry wire record: the configuration constants shared by the
 * pipeline and the packed, little-endian 64-byte `AudioTelemetryPacket_t`,
 * with its encoder and decoder.
 */
module PacketFormat {
  import opened Platform

  const AUDIO_TELEMETRY_VERSION: UInt8 := 0x01

  const AUDIO_SAMPLE_RATE: nat := 16000
  const AUDIO_FRAME_SIZE: nat := 512
  const AUDIO_FRAMES_PER_PACKET: nat := 4
  const AUDIO_SAMPLES_PER_PACKET: nat := AUDIO_FRAME_SIZE * AUDIO_FRAMES_PER_PACKET

  const FFT_SIZE: nat := 512
  const FFT_BANDS: nat := 8

  /** `sizeof(AudioTelemetryPacket_t)`, fixed by a compile-time assertion. */
  const PACKET_SIZE: nat := 64

  const AUDIO_STATUS_ERROR_FLAG: UInt8 := 0x01
  const AUDIO_STATUS_CLIPPING_FLAG: UInt8 := 0x02

  /** The eight band magnitudes of a packet. */
  type Bands = s: seq<UInt32> | |s| == 8 witness [0, 0, 0, 0, 0, 0, 0, 0]

  datatype Packet = Packet(
    version: UInt8,
    reserved1: UInt8,
    seqNumber: UInt16,
    timestampMs: UInt32,
    rmsRaw: UInt16,
    rmsReserved: UInt16,
    zcrCount: UInt16,
    zcrRate: UInt16,
    splDb: UInt16,
    peakAmplitude: UInt16,
    fftBand: Bands,
    nodeId: UInt8,
    statusFlags: UInt8,
    errorCount: UInt16,
    uptimeSec: UInt32,
    reserved3: UInt32)
  {
    /** Bit 0 of the status byte: an acquisition error occurred in the batch. */
    predicate HasError() { (statusFlags as bv8) & (AUDIO_STATUS_ERROR_FLAG as bv8) != 0 }

    /** Bit 1 of the status byte: ADC clipping was detected in the batch. */
    predicate HasClipping() { (statusFlags as bv8) & (AUDIO_STATUS_CLIPPING_FLAG as bv8) != 0 }
  }

  /** The all-zero record that `memset(pkt, 0, sizeof(*pkt))` produces. */
  const ZERO_PACKET: Packet :=
    Packet(0, 0, 0, 0, 0, 0, 0, 0, 0, 0, seq(8, _ => 0), 0, 0, 0, 0, 0)

  // ---------------------------------------------------------------------------
  // Little-endian fields

  /** The two bytes of a uint16_t in memory, least significant first. */
  function Le16(x: UInt16): (b: seq<UInt8>)
    ensures |b| == 2 && b[0] as int + 0x100 * (b[1] as int) == x
  {
    [x % 0x100, x / 0x100]
  }

  function FromLe16(b: seq<UInt8>): (x: UInt16)
    requires |b| == 2
    ensures Le16(x) == b
  {
    var x: int := b[0] as int + 0x100 * (b[1] as int);
    assert x % 0x100 == b[0] && x / 0x100 == b[1];
    x
  }

  /** The four bytes of a uint32_t in memory, least significant first. */
  function Le32(x: UInt32): (b: seq<UInt8>)
    ensures |b| == 4
    ensures b[0] as int + 0x100 * (b[1] as int) + 0x1_0000 * (b[2] as int) + 0x100_0000 * (b[3] as int) == x
  {
    Le16(x % 0x1_0000) + Le16(x / 0x1_0000)
  }

  function FromLe32(b: seq<UInt8>): (x: UInt32)
    requires |b| == 4
    ensures Le32(x) == b
  {
    var lo, hi := FromLe16(b[..2]), FromLe16(b[2..]);
    var x: int := lo as int + 0x1_0000 * (hi as int);
    assert x % 0x1_0000 == lo && x / 0x1_0000 == hi;
    assert b == b[..2] + b[2..];
    x
  }

  lemma FromLe16Le16(x: UInt16)
    ensures FromLe16(Le16(x)) == x
  {
  }

  lemma FromLe32Le32(x: UInt32)
    ensures FromLe32(Le32(x)) == x
  {
    var b := Le32(x);
    assert b[..2] == Le16(x % 0x1_0000) && b[2..] == Le16(x / 0x1_0000);
  }

  /** The band array as it lies in memory: each magnitude as four little-endian bytes. */
  function BandBytes(bands: seq<UInt32>): (b: seq<UInt8>)
    ensures |b| == 4 * |bands|
  {
    if bands == [] then [] else Le32(bands[0]) + BandBytes(bands[1..])
  }

  function BandsOf(b: seq<UInt8>): (bands: seq<UInt32>)
    requires |b| % 4 == 0
    ensures 4 * |bands| == |b|
  {
    if b == [] then [] else [FromLe32(b[..4])] + BandsOf(b[4..])
  }

  /** Band `i` occupies bytes `4i .. 4i+3` of the band array. */
  lemma {:induction false} BandBytesAt(bands: seq<UInt32>, i: nat)
    requires i < |bands|
    ensures BandBytes(bands)[4 * i .. 4 * i + 4] == Le32(bands[i])
  {
    if i > 0 {
      BandBytesAt(bands[1..], i - 1);
      var rest := BandBytes(bands[1..]);
      assert BandBytes(bands) == Le32(bands[0]) + rest;
      assert BandBytes(bands)[4 * i .. 4 * i + 4] == rest[4 * (i - 1) .. 4 * (i - 1) + 4];
    }
  }

  lemma {:induction false} BandsOfBandBytes(bands: seq<UInt32>)
    ensures BandsOf(BandBytes(bands)) == bands
  {
    if bands != [] {
      var b := BandBytes(bands);
      assert b[..4] == Le32(bands[0]);
      assert b[4..] == BandBytes(bands[1..]);
      FromLe32Le32(bands[0]);
      BandsOfBandBytes(bands[1..]);
    }
  }

  lemma {:induction false} BandBytesBandsOf(b: seq<UInt8>)
    requires |b| % 4 == 0
    ensures BandBytes(BandsOf(b)) == b
  {
    if b != [] {
      var bands := BandsOf(b);
      assert bands[1..] == BandsOf(b[4..]);
      BandBytesBandsOf(b[4..]);
      assert b == b[..4] + b[4..];
    }
  }

  // ---------------------------------------------------------------------------
  // The 64-byte record

  /** The header: version, reserved byte, sequence number and timestamp (bytes 0..7). */
  function HeaderBytes(p: Packet): (b: seq<UInt8>)
    ensures |b| == 8
  {
    [p.version, p.reserved1] + Le16(p.seqNumber) + Le32(p.timestampMs)
  }

  /** The scalar features: RMS, its padding, ZCR count and rate, SPL and peak (bytes 8..19). */
  function FeatureBytes(p: Packet): (b: seq<UInt8>)
    ensures |b| == 12
  {
    Le16(p.rmsRaw) + Le16(p.rmsReserved) + Le16(p.zcrCount) + Le16(p.zcrRate)
    + Le16(p.splDb) + Le16(p.peakAmplitude)
  }

  /** The trailer: node id, status, error count, uptime and the reserved word (bytes 52..63). */
  function TrailerBytes(p: Packet): (b: seq<UInt8>)
    ensures |b| == 12
  {
    [p.nodeId, p.statusFlags] + Le16(p.errorCount) + Le32(p.uptimeSec) + Le32(p.reserved3)
  }

  /** The packet exactly as the packed struct lies in little-endian memory. */
  function Encode(p: Packet): (b: seq<UInt8>)
    ensures |b| == PACKET_SIZE
  {
    HeaderBytes(p) + FeatureBytes(p) + BandBytes(p.fftBand) + TrailerBytes(p)
  }

  /** Reads a 64-byte datagram back into its fields; any other length is not a packet. */
  function Decode(b: seq<UInt8>): (r: Option<Packet>)
    ensures r.Some? <==> |b| == PACKET_SIZE
  {
    if |b| != PACKET_SIZE then None
    else
      Some(Packet(
        b[0], b[1], FromLe16(b[2..4]), FromLe32(b[4..8]),
        FromLe16(b[8..10]), FromLe16(b[10..12]), FromLe16(b[12..14]), FromLe16(b[14..16]),
        FromLe16(b[16..18]), FromLe16(b[18..20]),
        BandsOf(b[20..52]),
        b[52], b[53], FromLe16(b[54..56]), FromLe32(b[56..60]), FromLe32(b[60..64])))
  }

  /** Every field sits at its fixed offset of the packed layout. */
  lemma EncodeLayout(p: Packet)
    ensures var b := Encode(p);
      && b[0] == p.version
      && b[1] == p.reserved1
      && b[2..4] == Le16(p.seqNumber)
      && b[4..8] == Le32(p.timestampMs)
      && b[8..10] == Le16(p.rmsRaw)
      && b[10..12] == Le16(p.rmsReserved)
      && b[12..14] == Le16(p.zcrCount)
      && b[14..16] == Le16(p.zcrRate)
      && b[16..18] == Le16(p.splDb)
      && b[18..20] == Le16(p.peakAmplitude)
      && b[20..52] == BandBytes(p.fftBand)
      && b[52] == p.nodeId
      && b[53] == p.statusFlags
      && b[54..56] == Le16(p.errorCount)
      && b[56..60] == Le32(p.uptimeSec)
      && b[60..64] == Le32(p.reserved3)
  {
    var h, f, d, t := HeaderBytes(p), FeatureBytes(p), BandBytes(p.fftBand), TrailerBytes(p);
    var b := Encode(p);
    assert b[..8] == h && b[8..20] == f && b[20..52] == d && b[52..] == t;
    assert h[2..4] == Le16(p.seqNumber) && h[4..8] == Le32(p.timestampMs);
    assert f[0..2] == Le16(p.rmsRaw) && f[2..4] == Le16(p.rmsReserved);
    assert f[4..6] == Le16(p.zcrCount) && f[6..8] == Le16(p.zcrRate);
    assert f[8..10] == Le16(p.splDb) && f[10..12] == Le16(p.peakAmplitude);
    assert t[2..4] == Le16(p.errorCount) && t[4..8] == Le32(p.uptimeSec) && t[8..12] == Le32(p.reserved3);
  }

  /** Band `i` of an encoded packet is at bytes `20 + 4i .. 23 + 4i`. */
  lemma EncodeBandOffset(p: Packet, i: nat)
    requires i < FFT_BANDS
    ensures Encode(p)[20 + 4 * i .. 24 + 4 * i] == Le32(p.fftBand[i])
  {
    EncodeLayout(p);
    BandBytesAt(p.fftBand, i);
    assert Encode(p)[20 + 4 * i .. 24 + 4 * i] == Encode(p)[20..52][4 * i .. 4 * i + 4];
  }

  /** Decoding an encoded packet gives back every field. */
  lemma DecodeEncode(p: Packet)
    ensures Decode(Encode(p)) == Some(p)
  {
    EncodeLayout(p);
    BandsOfBandBytes(p.fftBand);
  }

  /** The header of a decoded frame re-encodes to the frame's first 8 bytes. */
  lemma DecodedHeader(b: seq<UInt8>)
    requires |b| == PACKET_SIZE
    ensures Decode(b).Some? && HeaderBytes(Decode(b).value) == b[..8]
  {
    assert b[..8] == b[0..2] + b[2..4] + b[4..8];
  }

  /** The scalar features of a decoded frame re-encode to bytes 8 to 19. */
  lemma DecodedFeatures(b: seq<UInt8>)
    requires |b| == PACKET_SIZE
    ensures Decode(b).Some? && FeatureBytes(Decode(b).value) == b[8..20]
  {
    assert b[8..20] == b[8..10] + b[10..12] + b[12..14] + b[14..16] + b[16..18] + b[18..20];
  }

  /** The trailer of a decoded frame re-encodes to its last 12 bytes. */
  lemma DecodedTrailer(b: seq<UInt8>)
    requires |b| == PACKET_SIZE
    ensures Decode(b).Some? && TrailerBytes(Decode(b).value) == b[52..]
  {
    assert b[52..] == b[52..54] + b[54..56] + b[56..60] + b[60..64];
  }

  /** Every 64-byte frame decodes, and re-encoding the result gives the frame back. */
  lemma EncodeDecode(b: seq<UInt8>)
    requires |b| == PACKET_SIZE
    ensures Decode(b).Some? && Encode(Decode(b).value) == b
  {
    BandBytesBandsOf(b[20..52]);
    DecodedHeader(b);
    DecodedFeatures(b);
    DecodedTrailer(b);
    assert b == b[..8] + b[8..20] + b[20..52] + b[52..];
  }

  /** A batch is four frames of 512 samples. */
  lemma SamplesPerPacket()
    ensures AUDIO_SAMPLES_PER_PACKET == 2048
    ensures AUDIO_SAMPLES_PER_PACKET % AUDIO_FRAME_SIZE == 0
  {
  }
}
