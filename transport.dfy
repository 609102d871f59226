/** The server end of one WebSocket, as far as the chat core uses it. */
module Transport {
  import opened Protocol

  /** A socket whose `send` may throw. Which calls throw is given up front
      by `failing`, indexed by the position of the call among all sends on
      this socket (a socket closed by the peer fails every later send). */
  class Socket {
    /** The messages that reached the client, in order. */
    var delivered: seq<Outbound>
    /** How many times `send` has been called. */
    var attempts: nat
    const failing: iset<nat>

    constructor (failing: iset<nat>)
      ensures delivered == [] && attempts == 0 && this.failing == failing
    {
      delivered, attempts := [], 0;
      this.failing := failing;
    }

    /** `ws.send(JSON.stringify(m))`; `ok` is false when the call threw. */
    method Send(m: Outbound) returns (ok: bool)
      modifies this
      ensures ok <==> old(attempts) !in failing
      ensures attempts == old(attempts) + 1
      ensures delivered == if ok then old(delivered) + [m] else old(delivered)
    {
      ok := attempts !in failing;
      if ok {
        delivered := delivered + [m];
      }
      attempts := attempts + 1;
    }
  }
}
