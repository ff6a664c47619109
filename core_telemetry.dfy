/**
 * The telemetry module of the `Core/Src` tree: a ten-slot ring buffer that
 * refuses new packets when full, fed by `Telemetry_AddPacket` (which also
 * hands a stamped copy to the UDP socket `Telemetry_Start` binds) and drained
 * by `Telemetry_GetLastPacket`, which, despite its name, removes and returns
 * the OLDEST buffered packet.
 *
 * Its packet is the header's own float-field record, never put on a wire
 * format of its own: the whole struct is appended to the datagram as it lies
 * in memory. The floats are carried as opaque reals.
 */
module CoreTelemetry {
  import opened Platform
  import opened Ring

  const TELEMETRY_UDP_PORT: UInt32 := 12345
  const BROADCAST_IP: UInt32 := 0xFFFF_FFFF

  /** `uint32_t fft_band[8]`. */
  type Bands = s: seq<UInt32> | |s| == 8 witness [0, 0, 0, 0, 0, 0, 0, 0]

  /** `AudioTelemetryPacket_t` of `Core/Inc/app_telemetry.h`. */
  datatype Packet = Packet(
    seqNumber: UInt32,
    timestampMs: UInt32,
    uptimeSec: UInt32,
    rmsRaw: real,
    splDb: real,
    peakAmplitude: UInt32,
    zcrRate: real,
    statusFlags: UInt32,
    errorCount: UInt32,
    fftBand: Bands)

  /** The all-zero record of the zero-initialised statics. */
  const ZERO_PACKET: Packet := Packet(0, 0, 0, 0.0, 0.0, 0, 0.0, 0, 0, seq(8, _ => 0))

  // ---------------------------------------------------------------------------
  // The buffer's meaning, as a sequence of packets oldest first

  /** Putting into a ring that refuses when full: a full ring is left as it was. */
  function RejectPut(contents: seq<Packet>, p: Packet): (r: seq<Packet>)
    requires |contents| <= TELEMETRY_MAX_PACKETS
  {
    if |contents| < TELEMETRY_MAX_PACKETS then contents + [p] else contents
  }

  /** Putting a run of packets one after another. */
  function PutAll(contents: seq<Packet>, ps: seq<Packet>): (r: seq<Packet>)
    requires |contents| <= TELEMETRY_MAX_PACKETS
    ensures |r| <= TELEMETRY_MAX_PACKETS
    decreases |ps|
  {
    if ps == [] then contents else PutAll(RejectPut(contents, ps[0]), ps[1..])
  }

  function Min(a: nat, b: nat): nat
  {
    if a <= b then a else b
  }

  /**
   * Whatever has been put, the ring holds what it held plus the earliest
   * packets that fitted: once full, every later packet is lost, so the ring
   * keeps the oldest ten rather than the newest.
   */
  lemma {:induction false} PutAllKeepsEarliest(contents: seq<Packet>, ps: seq<Packet>)
    requires |contents| <= TELEMETRY_MAX_PACKETS
    ensures PutAll(contents, ps) == contents + ps[..Min(|ps|, TELEMETRY_MAX_PACKETS - |contents|)]
    decreases |ps|
  {
    if ps == [] {
      assert contents + ps[..0] == contents;
    } else {
      var next := RejectPut(contents, ps[0]);
      PutAllKeepsEarliest(next, ps[1..]);
      if |contents| < TELEMETRY_MAX_PACKETS {
        var k := Min(|ps|, TELEMETRY_MAX_PACKETS - |contents|);
        assert ps[1..][..k - 1] == ps[1..k];
        assert contents + [ps[0]] + ps[1..k] == contents + ps[..k];
      } else {
        assert ps[1..][..0] == ps[..0];
      }
    }
  }

  /**
   * Gets return packets in the order they were put: taking from a ring that
   * a run of puts filled from empty yields the first of them, and leaves the
   * rest in order.
   */
  lemma FifoOrder(ps: seq<Packet>)
    requires 0 < |ps|
    ensures var r := PutAll([], ps);
      && |r| == Min(|ps|, TELEMETRY_MAX_PACKETS)
      && r[0] == ps[0]
      && r[1..] == ps[1..Min(|ps|, TELEMETRY_MAX_PACKETS)]
  {
    PutAllKeepsEarliest([], ps);
    assert [] + ps[..Min(|ps|, TELEMETRY_MAX_PACKETS)] == ps[..Min(|ps|, TELEMETRY_MAX_PACKETS)];
  }

  // ---------------------------------------------------------------------------
  // The module state

  /**
   * The module's statics: the ring buffer, the sequence counter, the init
   * flag and the UDP socket. `socketBound` says whether the socket is created
   * and bound to port 12345; `leakedPackets` counts the NetX packets taken
   * from the pool and never given back.
   */
  class Telemetry {
    // TelemetryBuffer_t
    var packets: array<Packet>
    var writeIndex: UInt32
    var readIndex: UInt32
    var packetCount: UInt32

    var sequenceNumber: UInt32
    var initialized: bool
    var socketBound: bool
    var leakedPackets: nat

    /** The ring's index invariant: the write slot is `count` slots after the read slot. */
    ghost predicate Valid()
      reads this
    {
      RingIndices(packets.Length, writeIndex, readIndex, packetCount)
    }

    /** The buffered packets, oldest first. */
    ghost function Contents(): (c: seq<Packet>)
      reads this, packets
      requires Valid()
      ensures |c| == packetCount
    {
      RingView(packets[..], readIndex, packetCount)
    }

    /** The zero-initialised statics before `Telemetry_Init`. */
    constructor ()
      ensures Valid() && Contents() == []
      ensures !initialized && sequenceNumber == 0
      ensures !socketBound && leakedPackets == 0
    {
      packets := new Packet[TELEMETRY_MAX_PACKETS](_ => ZERO_PACKET);
      writeIndex, readIndex, packetCount := 0, 0, 0;
      sequenceNumber := 0;
      initialized := false;
      socketBound, leakedPackets := false, 0;
    }

    /** `Telemetry_BufferInit`: both indices and the count back to zero. */
    method BufferInit()
      requires packets.Length == TELEMETRY_MAX_PACKETS
      modifies this`writeIndex, this`readIndex, this`packetCount
      ensures Valid() && Contents() == []
      ensures writeIndex == 0 && readIndex == 0
    {
      writeIndex, readIndex, packetCount := 0, 0, 0;
    }

    /** `Telemetry_Init`: empties the buffer once; later calls change nothing. */
    method Init()
      requires Valid()
      modifies this`writeIndex, this`readIndex, this`packetCount, this`initialized
      ensures Valid() && initialized
      ensures old(initialized) ==> unchanged(this)
      ensures !old(initialized) ==> Contents() == [] && writeIndex == 0 && readIndex == 0
    {
      if initialized {
        return;
      }
      BufferInit();
      initialized := true;
    }

    /**
     * `Telemetry_BufferPut`: a full ring refuses the packet and is left as it
     * was; otherwise the packet goes to the write slot, which moves on.
     */
    method BufferPut(p: Packet) returns (result: bool)
      requires Valid()
      modifies packets, this`writeIndex, this`packetCount
      ensures Valid()
      ensures result <==> old(packetCount) < TELEMETRY_MAX_PACKETS
      ensures Contents() == RejectPut(old(Contents()), p)
      ensures !result ==> unchanged(this) && unchanged(packets)
      ensures result ==> packets[old(writeIndex)] == p && writeIndex == (old(writeIndex) + 1) % TELEMETRY_MAX_PACKETS
    {
      result := false;
      if packetCount < TELEMETRY_MAX_PACKETS {
        ghost var slots := packets[..];
        packets[writeIndex] := p;
        assert packets[..] == slots[writeIndex := p];
        RingAppend(slots, readIndex, packetCount, p);
        writeIndex := (writeIndex + 1) % TELEMETRY_MAX_PACKETS;
        packetCount := packetCount + 1;
        result := true;
      }
    }

    /** `Telemetry_BufferGet`: take the oldest packet; false on an empty ring. */
    method BufferGet() returns (result: bool, got: Option<Packet>)
      requires Valid()
      modifies this`readIndex, this`packetCount
      ensures Valid()
      ensures result <==> old(packetCount) > 0
      ensures result <==> got.Some?
      ensures !result ==> unchanged(this)
      ensures result ==>
        && got.value == old(Contents())[0]
        && Contents() == old(Contents())[1..]
        && readIndex == (old(readIndex) + 1) % TELEMETRY_MAX_PACKETS
    {
      result, got := false, None;
      if packetCount > 0 {
        RingAdvance(packets[..], readIndex, packetCount);
        got := Some(packets[readIndex]);
        readIndex := (readIndex + 1) % TELEMETRY_MAX_PACKETS;
        packetCount := packetCount - 1;
        result := true;
      }
    }

    /**
     * `Telemetry_GetLastPacket`: false before initialisation; otherwise it is
     * `Telemetry_BufferGet`, so it removes and returns the oldest packet.
     */
    method GetLastPacket() returns (result: bool, got: Option<Packet>)
      requires Valid()
      modifies this`readIndex, this`packetCount
      ensures Valid()
      ensures result <==> old(initialized) && old(packetCount) > 0
      ensures result <==> got.Some?
      ensures !result ==> unchanged(this)
      ensures result ==> got.value == old(Contents())[0] && Contents() == old(Contents())[1..]
    {
      if !initialized {
        return false, None;
      }
      result, got := BufferGet();
    }

    /**
     * `Telemetry_Start`: create the socket, then bind it to port 12345. A
     * failed create returns at once and leaves the socket as it was; a failed
     * bind deletes the socket.
     */
    method Start(createStatus: Status, bindStatus: Status)
      modifies this`socketBound
      ensures createStatus != Success ==> socketBound == old(socketBound)
      ensures createStatus == Success ==> (socketBound <==> bindStatus == Success)
    {
      if createStatus != Success {
        return;
      }
      socketBound := bindStatus == Success;
    }

    /**
     * `Telemetry_AddPacket`: false before initialisation. Otherwise a copy is
     * stamped with the post-incremented counter, handed to the socket for a
     * broadcast to port 12345 when both the NetX allocation and the append
     * succeed, and put into the ring; the result is the put's. The counter
     * advances even when the ring is full and the copy is dropped.
     *
     * The send's own status is ignored: the datagram leaves only when the
     * socket is bound and the send succeeds, and a packet the send refuses is
     * never released, so it is lost to the pool.
     */
    method AddPacket(p: Packet, allocStatus: Status, appendStatus: Status, sendStatus: Status)
      returns (result: bool, datagram: Option<Datagram<Packet>>)
      requires Valid()
      modifies packets, this`writeIndex, this`packetCount, this`sequenceNumber, this`leakedPackets
      ensures Valid()
      ensures !old(initialized) ==> !result && datagram == None && unchanged(this) && unchanged(packets)
      ensures old(initialized) ==>
        var stamped := p.(seqNumber := old(sequenceNumber));
        var handedOver := allocStatus == Success && appendStatus == Success;
        var sent := handedOver && socketBound && sendStatus == Success;
        && sequenceNumber == Inc32(old(sequenceNumber))
        && (result <==> old(packetCount) < TELEMETRY_MAX_PACKETS)
        && Contents() == RejectPut(old(Contents()), stamped)
        && (datagram.Some? <==> sent)
        && (datagram.Some? ==> datagram.value == Datagram(BROADCAST_IP, TELEMETRY_UDP_PORT, stamped))
        && leakedPackets == old(leakedPackets) + (if handedOver && !sent then 1 else 0)
    {
      datagram := None;
      if !initialized {
        return false, None;
      }
      var pkt := p.(seqNumber := sequenceNumber);
      sequenceNumber := Inc32(sequenceNumber);
      if allocStatus == Success {
        if appendStatus == Success {
          if socketBound && sendStatus == Success {
            datagram := Some(Datagram(BROADCAST_IP, TELEMETRY_UDP_PORT, pkt));
          } else {
            leakedPackets := leakedPackets + 1;
          }
        }
      }
      result := BufferPut(pkt);
    }
  }
}
