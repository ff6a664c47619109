/**
 * The telemetry transmitter of the NetX Duo application: a configurable UDP
 * sender (broadcast or unicast to a receiver address and port) whose thread
 * takes finished packets from the feature-extraction queue, transmits each
 * one, counts the outcome, and caches the latest packet for the web dashboard.
 *
 * The ThreadX and NetX Duo calls become inputs: the status each would return.
 * Pointers the firmware checks for NULL become presence flags.
 */
module NetXTelemetry {
  import opened Platform
  import opened PacketFormat

  /** Local port the socket binds. */
  const TELEMETRY_UDP_PORT_TX: UInt32 := 5001
  /** Default receiver port. */
  const TELEMETRY_UDP_PORT_RX: UInt32 := 5000
  /** Default receiver address: the limited broadcast address. */
  const TELEMETRY_DEFAULT_IP_ADDR: UInt32 := 0xFFFF_FFFF
  const BROADCAST_IP: UInt32 := 0xFFFF_FFFF

  /** `Telemetry_Context_t` together with the dashboard's packet cache. */
  class Telemetry {
    var ipInstancePresent: bool
    var inputQueuePresent: bool
    var isReady: UInt32
    var isRunning: UInt32
    var receiverIp: UInt32
    var receiverPort: UInt32
    var useBroadcast: UInt8
    var txCount: UInt32
    var errorCount: UInt32

    var lastPkt: Packet
    var lastPktValid: UInt8

    /**
     * Once `Telemetry_Init` has passed its pointer checks the receiver address
     * is never 0, and the thread only runs over a socket made on the IP
     * instance.
     */
    ghost predicate Valid()
      reads this
    {
      && (ipInstancePresent ==> receiverIp != 0)
      && (isReady != 0 || isRunning != 0 ==> ipInstancePresent)
    }

    /** The zero-initialised context before `Telemetry_Init`. */
    constructor ()
      ensures Valid()
      ensures !ipInstancePresent && !inputQueuePresent && isReady == 0 && isRunning == 0
      ensures receiverIp == 0 && receiverPort == 0 && useBroadcast == 0
      ensures txCount == 0 && errorCount == 0 && lastPktValid == 0
    {
      ipInstancePresent, inputQueuePresent := false, false;
      isReady, isRunning := 0, 0;
      receiverIp, receiverPort, useBroadcast := 0, 0, 0;
      txCount, errorCount := 0, 0;
      lastPkt, lastPktValid := ZERO_PACKET, 0;
    }

    /**
     * Where the next datagram goes: the broadcast address while broadcast is
     * on, the configured receiver otherwise; always to the receiver port.
     */
    function Destination(): (dest: (UInt32, UInt32))
      reads this
      requires Valid()
      ensures dest.1 == receiverPort
      ensures useBroadcast != 0 ==> dest.0 == BROADCAST_IP
      ensures useBroadcast == 0 ==> dest.0 == receiverIp
      ensures ipInstancePresent ==> dest.0 != 0
    {
      if useBroadcast != 0 then (BROADCAST_IP, receiverPort) else (receiverIp, receiverPort)
    }

    /**
     * `Telemetry_Init`: refuses a missing byte pool or IP instance. Otherwise
     * the context is cleared and given its defaults (broadcast to port 5000)
     * BEFORE the stack allocation and the thread creation, so the defaults
     * stand even when either of those fails. The dashboard cache is kept.
     */
    method Init(poolPresent: bool, ipPresent: bool, allocStatus: Status, threadStatus: Status)
      returns (status: Status)
      requires Valid()
      modifies this`ipInstancePresent, this`inputQueuePresent, this`isReady, this`isRunning,
        this`receiverIp, this`receiverPort, this`useBroadcast, this`txCount, this`errorCount
      ensures Valid()
      ensures !poolPresent || !ipPresent ==> status == PtrError && unchanged(this)
      ensures poolPresent && ipPresent ==>
        && status == (if allocStatus != Success then allocStatus else threadStatus)
        && ipInstancePresent && !inputQueuePresent
        && receiverIp == TELEMETRY_DEFAULT_IP_ADDR && receiverPort == TELEMETRY_UDP_PORT_RX
        && useBroadcast == 1
        && isReady == 0 && isRunning == 0 && txCount == 0 && errorCount == 0
      ensures lastPkt == old(lastPkt) && lastPktValid == old(lastPktValid)
    {
      if !poolPresent || !ipPresent {
        return PtrError;
      }
      // memset of the context
      inputQueuePresent := false;
      isReady, isRunning := 0, 0;
      txCount, errorCount := 0, 0;

      ipInstancePresent := true;
      receiverIp := TELEMETRY_DEFAULT_IP_ADDR;
      receiverPort := TELEMETRY_UDP_PORT_RX;
      useBroadcast := 1;

      if allocStatus != Success {
        return allocStatus;
      }
      if threadStatus != Success {
        return threadStatus;
      }
      isReady, isRunning := 0, 0;
      txCount, errorCount := 0, 0;
      return Success;
    }

    /**
     * `Telemetry_CreateSocket`: no IP instance is a pointer error; otherwise
     * the status of the socket creation, then of the bind to port 5001.
     */
    method CreateSocket(createStatus: Status, bindStatus: Status) returns (status: Status)
      ensures !ipInstancePresent ==> status == PtrError
      ensures ipInstancePresent ==>
        status == (if createStatus != Success then createStatus else bindStatus)
      ensures status == Success ==> ipInstancePresent
    {
      if !ipInstancePresent {
        return PtrError;
      }
      if createStatus != Success {
        return createStatus;
      }
      return bindStatus;
    }

    /**
     * `Telemetry_Start`: refuses a missing queue. Otherwise records the queue,
     * takes the receiver address only when it is not 0, and sets up the
     * socket; only when that succeeds does the transmitter become ready and
     * running, and the thread-resume status is returned.
     */
    method Start(queuePresent: bool, receiverAddress: UInt32,
                 createStatus: Status, bindStatus: Status, resumeStatus: Status)
      returns (status: Status)
      requires Valid()
      modifies this`inputQueuePresent, this`receiverIp, this`isReady, this`isRunning
      ensures Valid()
      ensures !queuePresent ==> status == PtrError && unchanged(this)
      ensures queuePresent ==>
        && inputQueuePresent
        && receiverIp == (if receiverAddress != 0 then receiverAddress else old(receiverIp))
      ensures queuePresent && !ipInstancePresent ==>
        status == PtrError && isReady == old(isReady) && isRunning == old(isRunning)
      ensures queuePresent && ipInstancePresent && createStatus != Success ==>
        status == createStatus && isReady == old(isReady) && isRunning == old(isRunning)
      ensures queuePresent && ipInstancePresent && createStatus == Success && bindStatus != Success ==>
        status == bindStatus && isReady == old(isReady) && isRunning == old(isRunning)
      ensures queuePresent && ipInstancePresent && createStatus == Success && bindStatus == Success ==>
        status == resumeStatus && isReady == 1 && isRunning == 1
    {
      if !queuePresent {
        return PtrError;
      }
      inputQueuePresent := true;
      if receiverAddress != 0 {
        receiverIp := receiverAddress;
      }
      status := CreateSocket(createStatus, bindStatus);
      if status != Success {
        return status;
      }
      isReady := 1;
      isRunning := 1;
      return resumeStatus;
    }

    /** `Telemetry_SetReceiver`: address 0 is refused and nothing changes. */
    method SetReceiver(ipAddr: UInt32, port: UInt32) returns (status: Status)
      requires Valid()
      modifies this`receiverIp, this`receiverPort
      ensures Valid()
      ensures ipAddr == 0 ==> status == PtrError && unchanged(this)
      ensures ipAddr != 0 ==> status == Success && receiverIp == ipAddr && receiverPort == port
    {
      if ipAddr == 0 {
        return PtrError;
      }
      receiverIp := ipAddr;
      receiverPort := port;
      return Success;
    }

    /** `Telemetry_SetBroadcast`: stores the flag as given. */
    method SetBroadcast(enable: UInt8) returns (status: Status)
      requires Valid()
      modifies this`useBroadcast
      ensures Valid()
      ensures status == Success && useBroadcast == enable
    {
      useBroadcast := enable;
      return Success;
    }

    /** `Telemetry_GetLastPacket`: 0 until a packet has been received, then a copy of the latest. */
    method GetLastPacket() returns (result: UInt8, got: Option<Packet>)
      ensures result == 0 <==> lastPktValid == 0
      ensures result == 0 <==> got == None
      ensures result != 0 ==> result == 1 && got == Some(lastPkt)
    {
      if lastPktValid == 0 {
        return 0, None;
      }
      return 1, Some(lastPkt);
    }

    /**
     * `Telemetry_TransmitPacket`: no IP instance is a pointer error. A failed
     * allocation is counted as an error HERE and its status returned. Otherwise
     * the 64 packet bytes go to `Destination()` and the send status is returned.
     */
    method TransmitPacket(p: Packet, allocStatus: Status, sendStatus: Status)
      returns (status: Status, datagram: Option<Datagram<seq<UInt8>>>)
      requires Valid()
      modifies this`errorCount
      ensures Valid()
      ensures !ipInstancePresent ==> status == PtrError && errorCount == old(errorCount)
      ensures ipInstancePresent && allocStatus != Success ==>
        status == allocStatus && errorCount == Inc32(old(errorCount))
      ensures ipInstancePresent && allocStatus == Success ==>
        status == sendStatus && errorCount == old(errorCount)
      ensures datagram.Some? <==> status == Success
      ensures datagram.Some? ==>
        && datagram.value == Datagram(Destination().0, Destination().1, Encode(p))
        && datagram.value.ip != 0
        && Decode(datagram.value.payload) == Some(p)
    {
      datagram := None;
      if !ipInstancePresent {
        return PtrError, None;
      }
      if allocStatus != Success {
        errorCount := Inc32(errorCount);
        return allocStatus, None;
      }
      var dest := Destination();
      if sendStatus == Success {
        DecodeEncode(p);
        datagram := Some(Datagram(dest.0, dest.1, Encode(p)));
      }
      return sendStatus, datagram;
    }

    /**
     * The received-packet branch of the thread loop: transmit, cache the
     * packet for the dashboard whatever the outcome, and count the outcome.
     * A failed allocation is thereby counted twice.
     */
    method Deliver(p: Packet, allocStatus: Status, sendStatus: Status)
      returns (datagram: Option<Datagram<seq<UInt8>>>)
      requires Valid() && ipInstancePresent
      modifies this`errorCount, this`txCount, this`lastPkt, this`lastPktValid
      ensures Valid()
      ensures lastPkt == p && lastPktValid == 1
      ensures datagram.Some? <==> allocStatus == Success && sendStatus == Success
      ensures datagram.Some? ==>
        && datagram.value == Datagram(Destination().0, Destination().1, Encode(p))
        && txCount == Inc32(old(txCount)) && errorCount == old(errorCount)
      ensures allocStatus != Success ==>
        errorCount == Inc32(Inc32(old(errorCount))) && txCount == old(txCount)
      ensures allocStatus == Success && sendStatus != Success ==>
        errorCount == Inc32(old(errorCount)) && txCount == old(txCount)
    {
      var status;
      status, datagram := TransmitPacket(p, allocStatus, sendStatus);
      lastPkt := p;
      lastPktValid := 1;
      if status == Success {
        txCount := Inc32(txCount);
      } else {
        errorCount := Inc32(errorCount);
      }
    }

    /**
     * One pass of `Telemetry_ThreadEntry`'s loop. Suspended or waiting for
     * the socket, or on a timeout, nothing changes; another receive error is
     * counted once; a received packet is delivered.
     */
    method Step(received: Receive<Packet>, allocStatus: Status, sendStatus: Status)
      returns (datagram: Option<Datagram<seq<UInt8>>>)
      requires Valid()
      modifies this`errorCount, this`txCount, this`lastPkt, this`lastPktValid
      ensures Valid()
      ensures isRunning == 0 || isReady == 0 || received.QueueEmpty? ==>
        datagram == None && unchanged(this)
      ensures isRunning != 0 && isReady != 0 && received.QueueError? ==>
        && datagram == None
        && errorCount == Inc32(old(errorCount)) && txCount == old(txCount)
        && lastPkt == old(lastPkt) && lastPktValid == old(lastPktValid)
      ensures isRunning != 0 && isReady != 0 && received.Received? ==>
        && lastPkt == received.item && lastPktValid == 1
        && (datagram.Some? <==> allocStatus == Success && sendStatus == Success)
        && (datagram.Some? ==>
              && datagram.value == Datagram(Destination().0, Destination().1, Encode(received.item))
              && txCount == Inc32(old(txCount)) && errorCount == old(errorCount))
        && (allocStatus != Success ==>
              errorCount == Inc32(Inc32(old(errorCount))) && txCount == old(txCount))
        && (allocStatus == Success && sendStatus != Success ==>
              errorCount == Inc32(old(errorCount)) && txCount == old(txCount))
    {
      datagram := None;
      if isRunning == 0 || isReady == 0 {
        return;
      }
      match received
      case QueueEmpty =>
      case QueueError(_) =>
        errorCount := Inc32(errorCount);
      case Received(p) =>
        datagram := Deliver(p, allocStatus, sendStatus);
    }
  }
}
