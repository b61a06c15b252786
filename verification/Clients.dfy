/** A connected client and its bounded send channel. */
module Clients {
  import opened Domain

  const SEND_BUFFER: nat := 256

  /** What travels to a client. `at` is the action's position among its room's
      publications; it is bookkeeping, the text sent is the action's. */
  datatype Payload =
    | ActionMsg(at: nat, action: Action)
    | SnapshotMsg(snap: Snapshot)
    | ErrorMsg(text: string)

  datatype Chan = Chan(buffer: seq<Payload>, open: bool)

  const FRESH := Chan([], true)

  predicate Full(ch: Chan) {
    |ch.buffer| >= SEND_BUFFER
  }

  /** A select with default: a full buffer drops the message. */
  function TrySend(ch: Chan, p: Payload): Chan {
    if Full(ch) then ch else ch.(buffer := ch.buffer + [p])
  }

  /** Unregistering tries a receive first: it takes one queued message, finds the
      channel closed already, or closes it. */
  function Retire(ch: Chan): Chan {
    if ch.buffer != [] then ch.(buffer := ch.buffer[1..]) else ch.(open := false)
  }

  class Client {
    const roomID: nat
    const userID: nat
    var send: Chan

    constructor (roomID: nat, userID: nat)
      ensures this.roomID == roomID && this.userID == userID && send == FRESH
    {
      this.roomID, this.userID := roomID, userID;
      send := FRESH;
    }

    /** A send on a closed channel would panic, so an open one is required. */
    method Offer(p: Payload) returns (sent: bool)
      requires send.open
      modifies this
      ensures send == TrySend(old(send), p)
      ensures sent <==> |old(send).buffer| < 256
      ensures send.open && send.buffer == if sent then old(send).buffer + [p] else old(send).buffer
    {
      if |send.buffer| < SEND_BUFFER {
        send := send.(buffer := send.buffer + [p]);
        return true;
      }
      return false;
    }

    /** One turn of WritePump on the send channel: the oldest message is written, or
        the pump stops because the channel is closed. */
    method Pump() returns (written: seq<Payload>, stopped: bool)
      requires send.buffer != [] || !send.open
      modifies this
      ensures written + send.buffer == old(send.buffer)
      ensures |written| <= 1 && (stopped <==> written == [])
      ensures send.open == old(send.open)
    {
      if send.buffer == [] {
        return [], true;
      }
      written := [send.buffer[0]];
      send := send.(buffer := send.buffer[1..]);
      stopped := false;
    }
  }
}
