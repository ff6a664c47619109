/**
 * The telemetry sender of the STM32CubeIDE application: a thread that takes
 * finished packets from the feature-extraction queue, stamps them with its own
 * sequence number, broadcasts them over UDP, and keeps the latest ten in a ring
 * buffer that overwrites its oldest entry when full, for the HTTP server to
 * peek at.
 *
 * The NetX Duo and ThreadX calls become inputs: the status each would return.
 * The mutex around the ring buffer is not modelled; every operation is atomic.
 */
module CubeTelemetry {
  import opened Platform
  import opened PacketFormat
  import opened Ring

  const TELEMETRY_UDP_PORT: UInt32 := 5001

  /** The broadcast address every datagram of this variant goes to. */
  const BROADCAST_IP: UInt32 := 0xFFFF_FFFF

  // ---------------------------------------------------------------------------
  // The ring's meaning, as a sequence of packets oldest first

  /** Putting into a ring that keeps the newest ten: the oldest is evicted when full. */
  function OverwritePut(contents: seq<Packet>, p: Packet): (r: seq<Packet>)
    requires |contents| <= TELEMETRY_MAX_PACKETS
  {
    if |contents| < TELEMETRY_MAX_PACKETS then contents + [p] else contents[1..] + [p]
  }

  /** The newest `n` elements of `s` (all of them when there are fewer). */
  function Newest<T>(s: seq<T>, n: nat): (r: seq<T>)
    ensures |r| <= n
  {
    if |s| <= n then s else s[|s| - n..]
  }

  /** Putting a run of packets one after another. */
  function PutAll(contents: seq<Packet>, ps: seq<Packet>): (r: seq<Packet>)
    requires |contents| <= TELEMETRY_MAX_PACKETS
    ensures |r| <= TELEMETRY_MAX_PACKETS
    decreases |ps|
  {
    if ps == [] then contents else PutAll(OverwritePut(contents, ps[0]), ps[1..])
  }

  /**
   * One put never loses the new packet, keeps at most ten, and evicts exactly
   * the oldest entry when, and only when, the ring was full.
   */
  lemma OverwritePutEffect(contents: seq<Packet>, p: Packet)
    requires |contents| <= TELEMETRY_MAX_PACKETS
    ensures var r := OverwritePut(contents, p);
      && |r| == (if |contents| < TELEMETRY_MAX_PACKETS then |contents| + 1 else TELEMETRY_MAX_PACKETS)
      && r[|r| - 1] == p
      && (|contents| < TELEMETRY_MAX_PACKETS ==> r[..|r| - 1] == contents)
      && (|contents| == TELEMETRY_MAX_PACKETS ==> r[..|r| - 1] == contents[1..])
  {
  }

  /** A put keeps exactly the newest ten of everything seen so far. */
  lemma OverwritePutNewest(contents: seq<Packet>, p: Packet)
    requires |contents| <= TELEMETRY_MAX_PACKETS
    ensures OverwritePut(contents, p) == Newest(contents + [p], TELEMETRY_MAX_PACKETS)
  {
  }

  lemma NewestOfNewest<T>(s: seq<T>, ps: seq<T>, n: nat)
    ensures Newest(Newest(s, n) + ps, n) == Newest(s + ps, n)
  {
    if |s| > n {
      var t := s[|s| - n..];
      assert s + ps == s[..|s| - n] + (t + ps);
    }
  }

  /**
   * Whatever has been put, the ring holds exactly the newest ten packets, in
   * the order they were put.
   */
  lemma {:induction false} PutAllKeepsNewest(contents: seq<Packet>, ps: seq<Packet>)
    requires |contents| <= TELEMETRY_MAX_PACKETS
    ensures PutAll(contents, ps) == Newest(contents + ps, TELEMETRY_MAX_PACKETS)
    decreases |ps|
  {
    if ps == [] {
      assert contents + ps == contents;
    } else {
      var next := OverwritePut(contents, ps[0]);
      OverwritePutNewest(contents, ps[0]);
      PutAllKeepsNewest(next, ps[1..]);
      NewestOfNewest(contents + [ps[0]], ps[1..], TELEMETRY_MAX_PACKETS);
      assert contents + [ps[0]] + ps[1..] == contents + ps;
    }
  }

  /** The sequence number stamped into a packet: the uint32 counter's low 16 bits. */
  function Stamp(p: Packet, counter: UInt32): (r: Packet)
    ensures r.seqNumber == Low16(counter)
    ensures r.(seqNumber := p.seqNumber) == p
  {
    p.(seqNumber := Low16(counter))
  }

  /** Consecutive received packets carry consecutive sequence numbers modulo 65536. */
  lemma StampsAreConsecutive(p: Packet, q: Packet, counter: UInt32)
    ensures Stamp(q, Inc32(counter)).seqNumber == (Stamp(p, counter).seqNumber + 1) % 0x1_0000
  {
    Low16OfInc32(counter);
  }

  // ---------------------------------------------------------------------------
  // The module state

  /** The module's statics: the ring buffer, the counters and the lifecycle flags. */
  class Telemetry {
    // TelemetryBuffer_t
    var packets: array<Packet>
    var writeIndex: UInt32
    var readIndex: UInt32
    var packetCount: UInt32

    var sequenceNumber: UInt32
    var txCount: UInt32
    var errorCount: UInt32
    var initialized: bool
    var started: bool
    var receiverIp: UInt32

    /** The ring's index invariant: the write slot is `count` slots after the read slot. */
    ghost predicate Valid()
      reads this
    {
      RingIndices(packets.Length, writeIndex, readIndex, packetCount)
    }

    /** The buffered packets, oldest first. */
    ghost function Contents(): (c: seq<Packet>)
      reads this, packets
      requires Valid()
      ensures |c| == packetCount
    {
      RingView(packets[..], readIndex, packetCount)
    }

    /** The zero-initialised statics before `Telemetry_Init`. */
    constructor ()
      ensures Valid() && Contents() == []
      ensures !initialized && !started
      ensures sequenceNumber == 0 && txCount == 0 && errorCount == 0 && receiverIp == 0
    {
      packets := new Packet[TELEMETRY_MAX_PACKETS](_ => ZERO_PACKET);
      writeIndex, readIndex, packetCount := 0, 0, 0;
      sequenceNumber, txCount, errorCount := 0, 0, 0;
      initialized, started := false, false;
      receiverIp := 0;
    }

    /** `Telemetry_BufferInit`: both indices and the count back to zero. */
    method BufferInit()
      requires packets.Length == TELEMETRY_MAX_PACKETS
      modifies this`writeIndex, this`readIndex, this`packetCount
      ensures Valid() && Contents() == []
      ensures writeIndex == 0 && readIndex == 0
    {
      writeIndex, readIndex, packetCount := 0, 0, 0;
    }

    /**
     * `Telemetry_BufferPut`: store at the write slot and advance it; when full,
     * advance the read slot too, dropping the oldest. Always reports 1.
     */
    method BufferPut(p: Packet) returns (result: UInt8)
      requires Valid()
      modifies packets, this`writeIndex, this`readIndex, this`packetCount
      ensures Valid()
      ensures result == 1
      ensures Contents() == OverwritePut(old(Contents()), p)
      ensures packets[old(writeIndex)] == p
      ensures writeIndex == (old(writeIndex) + 1) % TELEMETRY_MAX_PACKETS
    {
      ghost var slots := packets[..];
      PutIndices(writeIndex, readIndex, packetCount);
      RingOverwritingPut(slots, writeIndex, readIndex, packetCount, p);
      packets[writeIndex] := p;
      assert packets[..] == slots[old(writeIndex) := p];
      writeIndex := (writeIndex + 1) % TELEMETRY_MAX_PACKETS;
      if packetCount < TELEMETRY_MAX_PACKETS {
        packetCount := packetCount + 1;
      } else {
        readIndex := (readIndex + 1) % TELEMETRY_MAX_PACKETS;
      }
      return 1;
    }

    /** `Telemetry_BufferGet`: take the oldest packet, or report 0 on an empty ring. */
    method BufferGet() returns (result: UInt8, got: Option<Packet>)
      requires Valid()
      modifies this`readIndex, this`packetCount
      ensures Valid()
      ensures old(packetCount) == 0 ==>
        result == 0 && got == None && readIndex == old(readIndex) && packetCount == 0
      ensures old(packetCount) > 0 ==>
        && result == 1
        && got == Some(old(Contents())[0])
        && Contents() == old(Contents())[1..]
        && readIndex == (old(readIndex) + 1) % TELEMETRY_MAX_PACKETS
    {
      result, got := 0, None;
      if packetCount > 0 {
        RingAdvance(packets[..], readIndex, packetCount);
        got := Some(packets[readIndex]);
        readIndex := (readIndex + 1) % TELEMETRY_MAX_PACKETS;
        packetCount := packetCount - 1;
        result := 1;
      }
    }

    /**
     * `Telemetry_GetLastPacket`: a peek at the newest packet, at the slot just
     * before the write index; 0 before initialisation or on an empty ring.
     */
    method GetLastPacket() returns (result: UInt8, got: Option<Packet>)
      requires Valid()
      ensures result == 1 <==> initialized && packetCount > 0
      ensures result == 0 <==> got == None
      ensures result == 1 ==> got == Some(Contents()[packetCount - 1])
    {
      if !initialized {
        return 0, None;
      }
      if packetCount > 0 {
        var lastIndex := (writeIndex + TELEMETRY_MAX_PACKETS - 1) % TELEMETRY_MAX_PACKETS;
        assert lastIndex == (readIndex + (packetCount - 1)) % TELEMETRY_MAX_PACKETS;
        return 1, Some(packets[lastIndex]);
      }
      return 0, None;
    }

    /**
     * `Telemetry_Init`: a second call succeeds at once; a missing byte pool is
     * a pointer error; a failed stack allocation is returned as is; otherwise
     * the ring is emptied and the module marked initialised.
     */
    method Init(poolPresent: bool, allocStatus: Status) returns (status: Status)
      requires Valid()
      modifies this`writeIndex, this`readIndex, this`packetCount, this`initialized
      ensures Valid()
      ensures old(initialized) ==> status == Success && unchanged(this)
      ensures !old(initialized) && !poolPresent ==> status == PtrError && unchanged(this)
      ensures !old(initialized) && poolPresent && allocStatus != Success ==>
        status == allocStatus && unchanged(this)
      ensures !old(initialized) && poolPresent && allocStatus == Success ==>
        status == Success && initialized && Contents() == [] && writeIndex == 0 && readIndex == 0
    {
      if initialized {
        return Success;
      }
      if !poolPresent {
        return PtrError;
      }
      if allocStatus != Success {
        return allocStatus;
      }
      BufferInit();
      initialized := true;
      return Success;
    }

    /**
     * `Telemetry_Start`: refused before initialisation or without an input
     * queue; otherwise records the receiver address and creates the socket,
     * binds it and creates the thread, stopping at the first failure. Only
     * when all three succeed is the module marked started.
     */
    method Start(queuePresent: bool, receiverAddress: UInt32,
                 createStatus: Status, bindStatus: Status, threadStatus: Status)
      returns (status: Status)
      modifies this`receiverIp, this`started
      ensures !old(initialized) || !queuePresent ==> status == PtrError && unchanged(this)
      ensures old(initialized) && queuePresent ==>
        && receiverIp == receiverAddress
        && status == (if createStatus != Success then createStatus
                      else if bindStatus != Success then bindStatus
                      else threadStatus)
        && started == (status == Success || old(started))
    {
      if !initialized || !queuePresent {
        return PtrError;
      }
      receiverIp := receiverAddress;
      if createStatus != Success {
        return createStatus;
      }
      if bindStatus != Success {
        return bindStatus;
      }
      if threadStatus != Success {
        return threadStatus;
      }
      started := true;
      return Success;
    }

    /**
     * `Telemetry_SendUDP`: refused until started; otherwise allocates a NetX
     * packet, appends the 64 packet bytes and broadcasts them to port 5001,
     * returning the first failing status. `datagram` is what reached the wire.
     */
    method SendUdp(p: Packet, allocStatus: Status, appendStatus: Status, sendStatus: Status)
      returns (status: Status, datagram: Option<Datagram<seq<UInt8>>>)
      ensures !started ==> status == NotEnabled
      ensures started ==>
        status == (if allocStatus != Success then allocStatus
                   else if appendStatus != Success then appendStatus
                   else sendStatus)
      ensures datagram.Some? <==> status == Success
      ensures datagram.Some? ==>
        && datagram.value == Datagram(BROADCAST_IP, TELEMETRY_UDP_PORT, Encode(p))
        && Decode(datagram.value.payload) == Some(p)
    {
      datagram := None;
      if !started {
        return NotEnabled, None;
      }
      if allocStatus != Success {
        return allocStatus, None;
      }
      if appendStatus != Success {
        return appendStatus, None;
      }
      if sendStatus == Success {
        DecodeEncode(p);
        datagram := Some(Datagram(BROADCAST_IP, TELEMETRY_UDP_PORT, Encode(p)));
      }
      return sendStatus, datagram;
    }

    /**
     * The received-packet branch of the thread loop: stamp the packet with the
     * next sequence number, send it, count it as sent or failed, and buffer it
     * whatever the outcome.
     */
    method Forward(p: Packet, allocStatus: Status, appendStatus: Status, sendStatus: Status)
      returns (datagram: Option<Datagram<seq<UInt8>>>)
      requires Valid()
      modifies packets, this`writeIndex, this`readIndex, this`packetCount,
        this`sequenceNumber, this`txCount, this`errorCount
      ensures Valid()
      ensures var stamped := Stamp(p, old(sequenceNumber));
        && sequenceNumber == Inc32(old(sequenceNumber))
        && (datagram.Some? <==> started && allocStatus == Success && appendStatus == Success && sendStatus == Success)
        && (datagram.Some? ==> datagram.value == Datagram(BROADCAST_IP, TELEMETRY_UDP_PORT, Encode(stamped)))
        && (datagram.Some? ==> txCount == Inc32(old(txCount)) && errorCount == old(errorCount))
        && (datagram.None? ==> errorCount == Inc32(old(errorCount)) && txCount == old(txCount))
        && Contents() == OverwritePut(old(Contents()), stamped)
    {
      var stamped := Stamp(p, sequenceNumber);
      sequenceNumber := Inc32(sequenceNumber);
      var status;
      status, datagram := SendUdp(stamped, allocStatus, appendStatus, sendStatus);
      if status == Success {
        txCount := Inc32(txCount);
      } else {
        errorCount := Inc32(errorCount);
      }
      var _ := BufferPut(stamped);
    }

    /**
     * One pass of `Telemetry_ThreadEntry`'s loop. A received packet is
     * forwarded; a timeout changes nothing; any other receive error is counted.
     */
    method Step(received: Receive<Packet>, allocStatus: Status, appendStatus: Status, sendStatus: Status)
      returns (datagram: Option<Datagram<seq<UInt8>>>)
      requires Valid()
      modifies packets, this`writeIndex, this`readIndex, this`packetCount,
        this`sequenceNumber, this`txCount, this`errorCount
      ensures Valid()
      ensures received.QueueEmpty? ==> datagram == None && unchanged(this) && unchanged(packets)
      ensures received.QueueError? ==>
        && datagram == None
        && errorCount == Inc32(old(errorCount))
        && txCount == old(txCount) && sequenceNumber == old(sequenceNumber)
        && Contents() == old(Contents())
      ensures received.Received? ==>
        var stamped := Stamp(received.item, old(sequenceNumber));
        && sequenceNumber == Inc32(old(sequenceNumber))
        && (datagram.Some? <==> started && allocStatus == Success && appendStatus == Success && sendStatus == Success)
        && (datagram.Some? ==> datagram.value == Datagram(BROADCAST_IP, TELEMETRY_UDP_PORT, Encode(stamped)))
        && (datagram.Some? ==> txCount == Inc32(old(txCount)) && errorCount == old(errorCount))
        && (datagram.None? ==> errorCount == Inc32(old(errorCount)) && txCount == old(txCount))
        && Contents() == OverwritePut(old(Contents()), stamped)
    {
      datagram := None;
      match received
      case QueueEmpty =>
      case QueueError(_) =>
        errorCount := Inc32(errorCount);
      case Received(p) =>
        datagram := Forward(p, allocStatus, appendStatus, sendStatus);
    }
  }
}
