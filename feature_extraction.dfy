/**
 * The feature-extraction stage: a fixed 2048-sample accumulator fed one
 * 512-sample frame at a time, which, once full, is turned into one telemetry
 * packet, offered to the output queue without blocking, and reset.
 *
 * The RTOS calls become inputs: the result of the bounded frame receive, the
 * tick counter, and whether the depth-2 output queue had room.
 */
module FeatureExtraction {
  import opened Platform
  import opened PacketFormat
  import opened AudioFeatures

  /** One frame's samples: exactly AUDIO_FRAME_SIZE of them. */
  type FrameSamples = s: seq<Int16> | |s| == AUDIO_FRAME_SIZE witness seq(512, _ => 0)

  /** `AudioFrame_t`, as delivered by the acquisition queue. */
  datatype AudioFrame = AudioFrame(
    samples: FrameSamples,
    timestampMs: UInt32,
    frameNumber: UInt32,
    errorFlags: bv8)

  /** The node identifier the firmware starts with. */
  const DEFAULT_NODE_ID: UInt32 := 1

  /**
   * The bitwise OR of a batch's frame error flags. The firmware keeps it in a
   * uint32_t, but only uint8_t values are ever merged in, so its upper 24 bits
   * stay zero and eight bits hold it exactly.
   */
  function OrAll(flags: seq<bv8>): (r: bv8)
  {
    if flags == [] then 0
    else OrAll(flags[..|flags| - 1]) | flags[|flags| - 1]
  }

  /** Merging one more frame's flags into the running OR. */
  lemma OrAllSnoc(flags: seq<bv8>, f: bv8)
    ensures OrAll(flags + [f]) == OrAll(flags) | f
  {
    assert (flags + [f])[..|flags|] == flags;
  }

  /** The test "carries the bits of `mask`" on one flag byte. */
  function Masked(mask: bv8): bv8 -> bool
  {
    f => f & mask != 0
  }

  /** Some element of `s` satisfies `p`. */
  predicate Any<T>(s: seq<T>, p: T -> bool)
  {
    exists i :: 0 <= i < |s| && p(s[i])
  }

  lemma AnySnoc<T>(init: seq<T>, x: T, p: T -> bool)
    ensures Any(init + [x], p) <==> Any(init, p) || p(x)
  {
    var s := init + [x];
    if Any(s, p) {
      var i :| 0 <= i < |s| && p(s[i]);
      if i < |init| {
        assert init[i] == s[i];
      }
    }
    if Any(init, p) {
      var i :| 0 <= i < |init| && p(init[i]);
      assert s[i] == init[i];
    }
    if p(x) {
      assert s[|init|] == x;
    }
  }

  lemma OrMasked(a: bv8, b: bv8, mask: bv8)
    ensures (a | b) & mask != 0 <==> a & mask != 0 || b & mask != 0
  {
  }

  /**
   * A status bit is set in the merged flags exactly when some frame of the
   * batch carried it: no bit is invented and none is lost.
   */
  lemma {:induction false} OrAllHasBit(flags: seq<bv8>, mask: bv8)
    ensures OrAll(flags) & mask != 0 <==> Any(flags, Masked(mask))
  {
    if flags != [] {
      var n := |flags| - 1;
      var init := flags[..n];
      OrAllHasBit(init, mask);
      assert OrAll(flags) == OrAll(init) | flags[n];
      OrMasked(OrAll(init), flags[n], mask);
      assert flags == init + [flags[n]];
      AnySnoc(init, flags[n], Masked(mask));
      assert Masked(mask)(flags[n]) == (flags[n] & mask != 0);
    }
  }

  /** The packet-sequence counter: post-incremented and reset to 0 once above 65535. */
  function NextSeqNumber(n: UInt32): (r: UInt32)
  {
    if n + 1 > 0xFFFF then 0 else Inc32(n)
  }

  /** Starting from 0, the counter yields 0, 1, ..., 65535 and then 0 again. */
  lemma SeqNumberWraps(n: UInt32)
    requires n <= 0xFFFF
    ensures NextSeqNumber(n) == (n + 1) % 0x1_0000
  {
  }

  /** The eight band magnitudes `ComputeFFTBands` writes for a 512-sample window. */
  function BandValues(window: seq<Int16>, math: FloatMath): (bands: Bands)
    requires |window| == FFT_SIZE
    ensures forall b :: 0 <= b < FFT_BANDS ==> bands[b] <= MAX_BAND_MAGNITUDE
  {
    var bands := seq(FFT_BANDS, (b: nat) => ClampBand(math.bandMagnitude(window, BinStart(b), BinEnd(b))));
    assert forall b :: 0 <= b < FFT_BANDS ==>
      bands[b] == ClampBand(math.bandMagnitude(window, BinStart(b), BinEnd(b)));
    bands
  }

  /** The merged flags as the status byte (`& 0xFF` keeps all eight bits). */
  function StatusByte(flags: bv8): (r: UInt8)
    ensures r as bv8 == flags
  {
    flags as int
  }

  /**
   * The packet `FeatureExtraction_ProcessBuffer` assembles from a batch.
   * `window` is the start of the accumulator the spectral bands read,
   * `elapsedMs` the wrapped tick difference since the stage started.
   */
  function AssemblePacket(batch: seq<Int16>, window: seq<Int16>, seqNumber: UInt16,
                          timestampMs: UInt32, nodeId: UInt32, errorFlags: bv8,
                          errorCount: UInt32, elapsedMs: UInt32, math: FloatMath): (p: Packet)
    requires |batch| < 0x1_0000_0000 && |window| == FFT_SIZE
    ensures p.version == AUDIO_TELEMETRY_VERSION
    ensures p.seqNumber == seqNumber && p.timestampMs == timestampMs
    ensures p.rmsRaw <= Q15_MAX && p.zcrRate <= 100 && p.splDb <= 120
    ensures p.zcrCount == (|batch| / 2) % 0x1_0000
    ensures p.peakAmplitude == MaxMagnitude(batch) && p.nodeId == nodeId % 0x100
    ensures forall b :: 0 <= b < FFT_BANDS ==> p.fftBand[b] <= MAX_BAND_MAGNITUDE
    ensures p.statusFlags == StatusByte(errorFlags) && p.errorCount == errorCount % 0x1_0000
    ensures p.uptimeSec == elapsedMs / 1000
    ensures p.reserved1 == 0 && p.rmsReserved == 0 && p.reserved3 == 0
  {
    var rms := CalculateRms(batch, math.normalizedRms(batch));
    Packet(
      AUDIO_TELEMETRY_VERSION, 0, seqNumber, timestampMs,
      rms, 0, (|batch| / 2) % 0x1_0000, ZcrPercent(batch),
      CalculateSpl(math.splLevel(rms)), MaxMagnitude(batch),
      BandValues(window, math),
      nodeId % 0x100, StatusByte(errorFlags), errorCount % 0x1_0000,
      elapsedMs / 1000, 0)
  }

  /**
   * The packet's error and clipping bits are set exactly when some frame of
   * its batch carried them.
   */
  lemma PacketStatusBits(batch: seq<Int16>, window: seq<Int16>, seqNumber: UInt16,
                         timestampMs: UInt32, nodeId: UInt32, flags: seq<bv8>,
                         errorCount: UInt32, elapsedMs: UInt32, math: FloatMath)
    requires |batch| < 0x1_0000_0000 && |window| == FFT_SIZE
    ensures var p := AssemblePacket(batch, window, seqNumber, timestampMs, nodeId, OrAll(flags),
                                    errorCount, elapsedMs, math);
      && (p.HasError() <==> Any(flags, Masked(AUDIO_STATUS_ERROR_FLAG as bv8)))
      && (p.HasClipping() <==> Any(flags, Masked(AUDIO_STATUS_CLIPPING_FLAG as bv8)))
  {
    OrAllHasBit(flags, AUDIO_STATUS_ERROR_FLAG as bv8);
    OrAllHasBit(flags, AUDIO_STATUS_CLIPPING_FLAG as bv8);
  }

  /** The feature-extraction context: its accumulator, counters and the module's statics. */
  class FeatureExtractor {
    // FeatureBuffer_t
    var accumulated: array<Int16>
    var sampleCount: UInt32
    var startTimestampMs: UInt32
    var frameCount: UInt32

    var isRunning: bool
    var packetCount: UInt32
    var errorCount: UInt32
    var seqNumber: UInt32

    var nodeId: UInt32
    var bootTimeMs: UInt32
    var lastErrorFlags: bv8

    /** The error flags of the frames appended since the last reset. */
    ghost var batchFlags: seq<bv8>

    ghost predicate Valid()
      reads this
    {
      && accumulated.Length == AUDIO_SAMPLES_PER_PACKET
      && sampleCount <= AUDIO_SAMPLES_PER_PACKET
      && sampleCount == 512 * |batchFlags|
      && lastErrorFlags == OrAll(batchFlags)
      && startTimestampMs == 0
      && seqNumber <= 0xFFFF
    }

    /** Between two steps the batch is never full: a full batch is emitted and reset at once. */
    ghost predicate Accumulating()
      reads this
    {
      Valid() && sampleCount < AUDIO_SAMPLES_PER_PACKET
    }

    /** The samples accumulated so far. */
    ghost function Batch(): seq<Int16>
      reads this, accumulated
      requires Valid()
    {
      accumulated[..sampleCount]
    }

    /** The context after a successful `FeatureExtraction_Init`: everything zeroed, not running. */
    constructor ()
      ensures Accumulating() && fresh(accumulated)
      ensures Batch() == [] && batchFlags == []
      ensures !isRunning && packetCount == 0 && errorCount == 0 && seqNumber == 0
      ensures nodeId == DEFAULT_NODE_ID && lastErrorFlags == 0
    {
      accumulated := new Int16[AUDIO_SAMPLES_PER_PACKET](_ => 0);
      sampleCount, startTimestampMs, frameCount := 0, 0, 0;
      isRunning := false;
      packetCount, errorCount, seqNumber := 0, 0, 0;
      nodeId, bootTimeMs, lastErrorFlags := DEFAULT_NODE_ID, 0, 0;
      batchFlags := [];
    }

    /**
     * `FeatureExtraction_Start`: refuses a missing input queue or a stage
     * whose thread stack was never allocated, changing nothing. Otherwise
     * records the boot tick, marks the stage running and returns the status
     * of resuming its thread.
     */
    method Start(queuePresent: bool, stackPresent: bool, now: UInt32, resumeStatus: Status)
      returns (status: Status)
      requires Accumulating()
      modifies this`isRunning, this`bootTimeMs
      ensures Accumulating()
      ensures !queuePresent || !stackPresent ==> status == PtrError && unchanged(this)
      ensures queuePresent && stackPresent ==>
        status == resumeStatus && isRunning && bootTimeMs == now
    {
      if !queuePresent || !stackPresent {
        return PtrError;
      }
      isRunning := true;
      bootTimeMs := now;
      return resumeStatus;
    }

    /**
     * `FeatureExtraction_ProcessBuffer`: refuses an empty accumulator (-1);
     * otherwise takes the next sequence number and assembles the packet.
     */
    method ProcessBuffer(now: UInt32, math: FloatMath) returns (result: int, pkt: Packet)
      requires Valid()
      modifies this`seqNumber
      ensures Valid()
      ensures result == -1 <==> sampleCount == 0
      ensures result == 0 <==> sampleCount != 0
      ensures result == -1 ==> seqNumber == old(seqNumber)
      ensures result == 0 ==>
        && seqNumber == NextSeqNumber(old(seqNumber))
        && pkt == AssemblePacket(Batch(), accumulated[..FFT_SIZE], old(seqNumber),
                                 startTimestampMs, nodeId, lastErrorFlags, errorCount,
                                 (now - bootTimeMs) % 0x1_0000_0000, math)
    {
      pkt := ZERO_PACKET;
      if sampleCount == 0 {
        return -1, pkt;
      }
      var sequence := seqNumber;
      seqNumber := NextSeqNumber(seqNumber);
      var ticksElapsed := (now - bootTimeMs) % 0x1_0000_0000;

      var samples := accumulated[..sampleCount];
      var rms := CalculateRms(samples, math.normalizedRms(samples));
      var zcr := CalculateZcr(samples);
      var peak := FindPeakAmplitude(samples);
      var spl := CalculateSpl(math.splLevel(rms));

      var bandsTmp := new UInt32[FFT_BANDS];
      ComputeFftBands(accumulated[..], bandsTmp, math);
      var window := accumulated[..FFT_SIZE];
      assert accumulated[..][..FFT_SIZE] == window;
      assert bandsTmp[..] == BandValues(window, math) by {
        forall b | 0 <= b < FFT_BANDS
          ensures bandsTmp[b] == BandValues(window, math)[b]
        {
        }
      }
      assert samples == Batch();

      pkt := Packet(
        AUDIO_TELEMETRY_VERSION, 0, sequence, startTimestampMs,
        rms, 0, (sampleCount / 2) % 0x1_0000, zcr,
        spl, peak,
        bandsTmp[..],
        nodeId % 0x100, StatusByte(lastErrorFlags), errorCount % 0x1_0000,
        ticksElapsed / 1000, 0);
      assert pkt == AssemblePacket(samples, window, sequence, startTimestampMs, nodeId,
                                   lastErrorFlags, errorCount, ticksElapsed, math);
      return 0, pkt;
    }

    /** The `memcpy` of one frame into the accumulator behind the samples held. */
    method CopyFrame(samples: FrameSamples)
      requires Accumulating()
      modifies accumulated
      ensures accumulated[..sampleCount + AUDIO_FRAME_SIZE] == old(Batch()) + samples
    {
      var sampleOffset := sampleCount;
      forall i | 0 <= i < AUDIO_FRAME_SIZE {
        accumulated[sampleOffset + i] := samples[i];
      }
      assert accumulated[..sampleCount + AUDIO_FRAME_SIZE] == old(Batch()) + samples;
    }

    /** Copies a frame into the accumulator at the current offset and merges its error flags. */
    method AppendFrame(frame: AudioFrame)
      requires Accumulating()
      modifies accumulated, this`sampleCount, this`startTimestampMs, this`lastErrorFlags, this`batchFlags
      ensures Valid()
      ensures sampleCount == old(sampleCount) + AUDIO_FRAME_SIZE
      ensures Batch() == old(Batch()) + frame.samples
      ensures batchFlags == old(batchFlags) + [frame.errorFlags]
      ensures lastErrorFlags == old(lastErrorFlags) | frame.errorFlags
    {
      CopyFrame(frame.samples);
      ghost var copied := accumulated[..sampleCount + AUDIO_FRAME_SIZE];
      assert 512 * |batchFlags + [frame.errorFlags]| == sampleCount + AUDIO_FRAME_SIZE;
      sampleCount := sampleCount + AUDIO_FRAME_SIZE;
      if sampleCount == 0 {
        // Dead in the firmware: the count was just raised by a whole frame
        // without wrapping, so the start timestamp is never recorded.
        assert false;
      }
      if frame.errorFlags != 0 {
        lastErrorFlags := lastErrorFlags | frame.errorFlags;
      }
      OrAllSnoc(batchFlags, frame.errorFlags);
      batchFlags := batchFlags + [frame.errorFlags];
      assert Batch() == copied;
    }

    /** `memset` of the accumulator and the reset of the merged error flags. */
    method ResetBatch()
      requires Valid()
      modifies accumulated, this`sampleCount, this`startTimestampMs, this`frameCount,
        this`lastErrorFlags, this`batchFlags
      ensures Accumulating()
      ensures sampleCount == 0 && batchFlags == [] && lastErrorFlags == 0
      ensures frameCount == 0
      ensures forall i :: 0 <= i < accumulated.Length ==> accumulated[i] == 0
    {
      forall i | 0 <= i < accumulated.Length {
        accumulated[i] := 0;
      }
      sampleCount, startTimestampMs, frameCount := 0, 0, 0;
      lastErrorFlags := 0;
      batchFlags := [];
    }

    /**
     * The completion branch of the thread loop: process the full batch, offer
     * the packet to the output queue without waiting, count exactly one
     * outcome, and reset the accumulator.
     */
    method EmitBatch(now: UInt32, queueHasRoom: bool, math: FloatMath) returns (sent: Option<Packet>)
      requires Valid() && sampleCount == AUDIO_SAMPLES_PER_PACKET
      modifies accumulated, this`sampleCount, this`startTimestampMs, this`frameCount,
        this`lastErrorFlags, this`batchFlags, this`seqNumber, this`packetCount, this`errorCount
      ensures Accumulating()
      ensures var pkt := AssemblePacket(old(Batch()), old(Batch())[..FFT_SIZE], old(seqNumber), 0, nodeId,
                                        old(lastErrorFlags), old(errorCount),
                                        (now - bootTimeMs) % 0x1_0000_0000, math);
        && seqNumber == NextSeqNumber(old(seqNumber))
        && (queueHasRoom ==> sent == Some(pkt) && packetCount == Inc32(old(packetCount)) && errorCount == old(errorCount))
        && (!queueHasRoom ==> sent == None && errorCount == Inc32(old(errorCount)) && packetCount == old(packetCount))
      ensures sampleCount == 0 && batchFlags == [] && lastErrorFlags == 0
      ensures forall i :: 0 <= i < accumulated.Length ==> accumulated[i] == 0
    {
      sent := None;
      assert Batch()[..FFT_SIZE] == accumulated[..FFT_SIZE];
      var result, pkt := ProcessBuffer(now, math);
      if result == 0 {
        if queueHasRoom {
          sent := Some(pkt);
          packetCount := Inc32(packetCount);
        } else {
          errorCount := Inc32(errorCount);
        }
      } else {
        // Dead here: a full batch is never empty, so processing cannot refuse it.
        assert false;
      }
      ResetBatch();
    }

    /**
     * The outcome of a frame that leaves the batch short of 2048 samples: its
     * samples and flags are appended, nothing is sent and no counter moves.
     */
    twostate predicate Appended(frame: AudioFrame, new sent: Option<Packet>)
      reads this, accumulated
      requires old(Valid()) && Valid()
    {
        && sent == None
        && Batch() == old(Batch()) + frame.samples
        && batchFlags == old(batchFlags) + [frame.errorFlags]
        && lastErrorFlags == old(lastErrorFlags) | frame.errorFlags
        && packetCount == old(packetCount) && errorCount == old(errorCount)
        && seqNumber == old(seqNumber)
    }

    /**
     * The outcome of the frame that completes the batch: the batch with that
     * frame becomes one packet (timestamp 0, the old sequence number, the
     * merged flags), the counter wraps on, the packet is sent when the queue
     * has room, exactly one of the packet and error counts goes up, and the
     * accumulator is reset.
     */
    twostate predicate Emitted(frame: AudioFrame, now: UInt32, queueHasRoom: bool, math: FloatMath,
                               new sent: Option<Packet>)
      reads this, accumulated
      requires old(Valid()) && Valid()
    {
        var batch := old(Batch()) + frame.samples;
        var pkt := AssemblePacket(batch, batch[..FFT_SIZE], old(seqNumber), 0, nodeId,
                                  old(lastErrorFlags) | frame.errorFlags,
                                  old(errorCount), (now - bootTimeMs) % 0x1_0000_0000, math);
        && seqNumber == NextSeqNumber(old(seqNumber))
        && (queueHasRoom ==> sent == Some(pkt) && packetCount == Inc32(old(packetCount)) && errorCount == old(errorCount))
        && (!queueHasRoom ==> sent == None && errorCount == Inc32(old(errorCount)) && packetCount == old(packetCount))
        && sampleCount == 0 && batchFlags == [] && lastErrorFlags == 0
        && forall i :: 0 <= i < accumulated.Length ==> accumulated[i] == 0
    }

    /**
     * A received frame: appended while it fits, and once the batch is full it
     * is emitted and the accumulator reset.
     */
    method ConsumeFrame(frame: AudioFrame, now: UInt32, queueHasRoom: bool, math: FloatMath)
      returns (sent: Option<Packet>)
      requires Accumulating()
      modifies accumulated, this`sampleCount, this`startTimestampMs, this`frameCount,
        this`lastErrorFlags, this`batchFlags, this`seqNumber, this`packetCount, this`errorCount
      ensures Accumulating()
      ensures old(sampleCount) + AUDIO_FRAME_SIZE < AUDIO_SAMPLES_PER_PACKET ==> Appended(frame, sent)
      ensures old(sampleCount) + AUDIO_FRAME_SIZE == AUDIO_SAMPLES_PER_PACKET ==>
        Emitted(frame, now, queueHasRoom, math, sent)
    {
      sent := None;
      if sampleCount + AUDIO_FRAME_SIZE <= AUDIO_SAMPLES_PER_PACKET {
        AppendFrame(frame);
      }
      if sampleCount >= AUDIO_SAMPLES_PER_PACKET {
        sent := EmitBatch(now, queueHasRoom, math);
        assert Emitted(frame, now, queueHasRoom, math, sent);
      } else {
        assert Appended(frame, sent);
      }
    }

    /**
     * One pass of `FeatureExtraction_ThreadEntry`'s loop. Returns the packet
     * handed to the output queue, if any.
     */
    method Step(received: Receive<AudioFrame>, now: UInt32, queueHasRoom: bool, math: FloatMath)
      returns (sent: Option<Packet>)
      requires Accumulating()
      modifies accumulated, this`sampleCount, this`startTimestampMs, this`frameCount,
        this`lastErrorFlags, this`batchFlags, this`seqNumber, this`packetCount, this`errorCount
      ensures Accumulating()
      // Suspended, or the bounded wait timed out: nothing changes.
      ensures !old(isRunning) || received.QueueEmpty? ==>
        sent == None && unchanged(this) && unchanged(accumulated)
      // Another receive error: counted, the frame is skipped.
      ensures old(isRunning) && received.QueueError? ==>
        && sent == None
        && errorCount == Inc32(old(errorCount))
        && packetCount == old(packetCount) && seqNumber == old(seqNumber)
        && batchFlags == old(batchFlags) && Batch() == old(Batch())
      // A received frame that leaves the batch short of 2048 samples is appended.
      ensures old(isRunning) && received.Received? && old(sampleCount) + AUDIO_FRAME_SIZE < AUDIO_SAMPLES_PER_PACKET ==>
        Appended(received.item, sent)
      // The frame that completes the batch: emit, count exactly one outcome, reset.
      ensures old(isRunning) && received.Received? && old(sampleCount) + AUDIO_FRAME_SIZE == AUDIO_SAMPLES_PER_PACKET ==>
        Emitted(received.item, now, queueHasRoom, math, sent)
    {
      sent := None;
      if !isRunning {
        return;
      }
      match received
      case QueueEmpty =>
        return;
      case QueueError(_) =>
        errorCount := Inc32(errorCount);
      case Received(frame) =>
        sent := ConsumeFrame(frame, now, queueHasRoom, math);
    }
  }
}
