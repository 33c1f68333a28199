/**
 * The WebSocketHandler the client talks through, seen only as the messages
 * sent on it and the messages waiting to be read, in arrival order.
 */
module Transport {
  import opened Json
  import opened Outcomes

  /** Reading takes the oldest waiting message; with none there, the read fails. */
  function Receive(inbound: seq<Json>): (out: (Result<Json>, seq<Json>))
    ensures inbound == [] ==> out == (Err(TransportError), [])
    ensures inbound != [] ==> out.0 == Ok(inbound[0]) && [inbound[0]] + out.1 == inbound
  {
    if inbound == [] then (Err(TransportError), []) else (Ok(inbound[0]), inbound[1..])
  }

  class WebSocket {
    var sent: seq<Json>
    var inbound: seq<Json>

    constructor (inbound: seq<Json>)
      ensures sent == [] && this.inbound == inbound
    {
      sent := [];
      this.inbound := inbound;
    }

    method SendMessage(message: Json)
      modifies this
      ensures sent == old(sent) + [message] && inbound == old(inbound)
    {
      sent := sent + [message];
    }

    method ReadMessage() returns (r: Result<Json>)
      modifies this
      ensures (r, inbound) == Receive(old(inbound)) && sent == old(sent)
    {
      if inbound == [] {
        r := Err(TransportError);
      } else {
        r := Ok(inbound[0]);
        inbound := inbound[1..];
      }
    }
  }
}
