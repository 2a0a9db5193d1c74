/** The vehicle side of the CAM application (`CAMClient`): on start it
    makes sure it has a socket, connects it and schedules an immediate
    send; each send puts one encoded record on the wire and re-arms the
    timer; stop cancels the pending send and closes the socket.

    Simulator time is not modelled; only whether a send event is pending
    is kept. The sampled position and speed are parameters. */
module CamClient {
  import opened Wire
  import opened Cam

  /** `m_socket`: none yet, open (connected), or closed. */
  datatype SocketState = NoSocket | Open | Closed

  class CamClient {
    /** `GetNode()->GetId()`: the id stamped on every record sent. */
    const nodeId: u32
    var socket: SocketState
    /** Whether `m_sendEvent` is scheduled and not cancelled. */
    var sendPending: bool
    /** How many sockets the client has created. */
    var socketsCreated: nat
    /** The datagrams sent so far, and the records they encode. */
    var sent: seq<seq<byte>>
    ghost var records: seq<CamData>

    /** A send can only be pending on an open socket, and every datagram
        sent is the encoding of a record. */
    ghost predicate Valid()
      reads this
    {
      && (sendPending ==> socket == Open)
      && |sent| == |records|
      && forall k :: 0 <= k < |sent| ==> sent[k] == Encode(records[k])
    }

    /** The client as the event-level model below sees it. */
    ghost function Abstract(): ClientState
      reads this
    {
      ClientState(sendPending, records)
    }

    constructor (nodeId: u32)
      ensures Valid()
      ensures this.nodeId == nodeId
      ensures socket == NoSocket && !sendPending && socketsCreated == 0 && sent == []
      ensures Abstract() == ClientState(false, [])
    {
      this.nodeId := nodeId;
      socket := NoSocket;
      sendPending := false;
      socketsCreated := 0;
      sent := [];
      records := [];
    }

    /** Creates a socket only if there is none, connects it and schedules
        the first send at once. */
    method StartApplication()
      requires Valid()
      modifies this
      ensures Valid()
      ensures socket == Open && sendPending
      ensures socketsCreated == old(socketsCreated) + (if old(socket) == NoSocket then 1 else 0)
      ensures sent == old(sent)
      ensures Abstract() == Step(old(Abstract()), Start, nodeId)
    {
      if socket == NoSocket {
        socketsCreated := socketsCreated + 1;
      }
      socket := Open;
      sendPending := true;
    }

    /** The scheduled send: one datagram holding exactly the encoded
        record, then the next send is scheduled. */
    method SendCam(posX: Float64, posY: Float64, speed: Float64)
      requires Valid() && sendPending
      modifies this
      ensures Valid()
      ensures sent == old(sent) + [Encode(CamData(posX, posY, speed, nodeId))]
      ensures sendPending && socket == old(socket) && socketsCreated == old(socketsCreated)
      ensures Abstract() == Step(old(Abstract()), Send(posX, posY, speed), nodeId)
    {
      var data := CamData(posX, posY, speed, nodeId);
      var buffer := Encode(data);
      sent := sent + [buffer];
      records := records + [data];
      sendPending := true;
    }

    /** Cancels the pending send and closes the socket if there is one. */
    method StopApplication()
      requires Valid()
      modifies this
      ensures Valid()
      ensures !sendPending
      ensures socket == (if old(socket) == NoSocket then NoSocket else Closed)
      ensures sent == old(sent) && socketsCreated == old(socketsCreated)
      ensures Abstract() == Step(old(Abstract()), Stop, nodeId)
    {
      sendPending := false;
      if socket != NoSocket {
        socket := Closed;
      }
    }
  }

  /** Events the simulator can deliver to a client. */
  datatype Event = Start | Send(posX: Float64, posY: Float64, speed: Float64) | Stop

  /** The client's abstract state: whether a send is pending, and the
      records sent so far. */
  datatype ClientState = ClientState(pending: bool, records: seq<CamData>)

  /** The effect of one event. A `Send` with no pending event is never
      delivered (stop cancelled it), so it changes nothing. */
  function Step(s: ClientState, e: Event, nodeId: u32): ClientState
  {
    match e
    case Start => ClientState(true, s.records)
    case Send(x, y, v) =>
      if s.pending then ClientState(true, s.records + [CamData(x, y, v, nodeId)]) else s
    case Stop => ClientState(false, s.records)
  }

  function Run(s: ClientState, events: seq<Event>, nodeId: u32): ClientState
    decreases |events|
  {
    if events == [] then s else Run(Step(s, events[0], nodeId), events[1..], nodeId)
  }

  /** Cancellation: once stopped, a client sends nothing until it is
      started again. */
  lemma {:induction false} NoSendAfterStop(s: ClientState, events: seq<Event>, nodeId: u32)
    requires !s.pending
    requires forall k :: 0 <= k < |events| ==> !events[k].Start?
    ensures Run(s, events, nodeId) == s
    decreases |events|
  {
    if events != [] {
      NoSendAfterStop(Step(s, events[0], nodeId), events[1..], nodeId);
    }
  }

  /** Every record a client sends carries its own node id, and a run of
      events only ever appends to what was sent. */
  lemma {:induction false} RunAppendsOwnRecords(s: ClientState, events: seq<Event>, nodeId: u32)
    ensures |Run(s, events, nodeId).records| >= |s.records|
    ensures Run(s, events, nodeId).records[..|s.records|] == s.records
    ensures forall k :: |s.records| <= k < |Run(s, events, nodeId).records| ==>
      Run(s, events, nodeId).records[k].id == nodeId
    decreases |events|
  {
    if events != [] {
      var s' := Step(s, events[0], nodeId);
      RunAppendsOwnRecords(s', events[1..], nodeId);
      assert s'.records[..|s.records|] == s.records;
    }
  }
}
