/** The write side of an asyncio transport, recorded as a log of requests and a closed flag. */
module Transports {
  import opened Messages

  class Transport {
    ghost var written: seq<Request>
    var closed: bool

    constructor ()
      ensures written == [] && !closed
    {
      written := [];
      closed := false;
    }

    /** Every write call is recorded, also after `Close`. */
    method Write(r: Request)
      modifies this
      ensures written == old(written) + [r] && closed == old(closed)
    {
      written := written + [r];
    }

    /** Closing is idempotent. */
    method Close()
      modifies this
      ensures closed && written == old(written)
    {
      closed := true;
    }
  }
}
