/**
 * The interface of SumoLogicMessageSender as the NLog target uses it: a
 * destination URL that may be absent, a connection timeout, a readiness
 * predicate and one delivery attempt per call. The HTTP transport itself is
 * not modelled; each attempt is recorded in `requests`, the sequence of
 * requests the transport received in the order they were made.
 */
module SumoLogicSender {
  import opened Wrappers

  /** An already parsed destination address, treated as opaque. */
  datatype Uri = Uri(text: string)

  /** One outbound request: the body and the three X-Sumo-* header values. */
  datatype Request = Request(body: string, sourceName: string, sourceCategory: string, sourceHost: string)

  class SumoLogicMessageSender {
    /** The client name reported with every request. */
    const clientName: string
    /** The destination; `None` disables sending. */
    var url: Option<Uri>
    /** The connection timeout, in milliseconds; InitializeTarget sets it before any send. */
    var connectionTimeout: int
    /** Whether the sender's transport has been released. */
    var disposed: bool
    /** Every request made through this sender, oldest first. */
    var requests: seq<Request>

    constructor (clientName: string)
      ensures this.clientName == clientName
      ensures url.None? && !disposed && requests == []
    {
      this.clientName := clientName;
      url := None;
      disposed := false;
      requests := [];
    }

    /** Readiness: a destination is configured and the transport is still held. */
    predicate CanTrySend()
      reads this
    {
      url.Some? && !disposed
    }

    /** Exactly one delivery attempt; its network outcome is not modelled. */
    method TrySend(body: string, sourceName: string, sourceCategory: string, sourceHost: string)
      requires CanTrySend()
      modifies this`requests
      ensures requests == old(requests) + [Request(body, sourceName, sourceCategory, sourceHost)]
    {
      requests := requests + [Request(body, sourceName, sourceCategory, sourceHost)];
    }

    /** Releases the transport; a disposed sender is no longer ready. */
    method Dispose()
      modifies this`disposed
      ensures disposed && !CanTrySend()
    {
      disposed := true;
    }
  }
}
