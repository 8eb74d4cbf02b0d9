/**
 * One proxied request (`ProxyRequest`): reading the HTTP header block off the
 * incoming connection, and the run protocol that always reports back to the
 * listener. The socket is replaced by the byte sequence it would deliver.
 */
module ProxyRequests {
  import opened Results
  import opened Text

  // ---------------------------------------------------------------------
  // Header framing
  // ---------------------------------------------------------------------

  /** The four bytes just before index j of s are CR LF CR LF. */
  predicate TerminatedAt(s: seq<byte>, j: int) {
    4 <= j <= |s| && s[j - 4..j] == CRLFCRLF
  }

  /** No header terminator ends at any index from 0 to limit. */
  predicate NoTerminatorUpTo(s: seq<byte>, limit: int) {
    forall j | 0 <= j <= limit :: !TerminatedAt(s, j)
  }

  /** The two IOExceptions of the framing loop. */
  datatype FramingError =
    | EndOfStream   // "End of stream reached before http request headers read"
    | BufferFull    // "Buffer full before http request headers read"

  /** How reading the header block ends: where the block ends, or which error after how many bytes. */
  datatype Framing = Framed(end: nat) | Failed(error: FramingError, consumed: nat)

  /** The first index from `from` to `limit` at which a terminator ends. */
  function FirstTerminator(s: seq<byte>, from: nat, limit: nat): (r: Option<nat>)
    decreases limit + 1 - from
    ensures r.Some? ==> from <= r.value <= limit && TerminatedAt(s, r.value)
    ensures r.Some? ==> forall j | from <= j < r.value :: !TerminatedAt(s, j)
    ensures r.None? ==> forall j | from <= j <= limit :: !TerminatedAt(s, j)
  {
    if from > limit then None
    else if TerminatedAt(s, from) then Some(from)
    else FirstTerminator(s, from + 1, limit)
  }

  /**
   * What the framing loop does on a stream with a buffer of `cap` bytes. It
   * stops on the first terminator that fits the buffer. Otherwise it fails, and
   * end of stream is tested before a full buffer: a stream that ends exactly at
   * the capacity reports end of stream. A full buffer is noticed only after one
   * more byte has been read.
   */
  function Frame(stream: seq<byte>, cap: nat): (r: Framing)
    ensures r.Framed? <==> exists j | 0 <= j <= cap :: TerminatedAt(stream, j)
    ensures r.Framed? ==> r.end <= cap && TerminatedAt(stream, r.end) && NoTerminatorUpTo(stream, r.end - 1)
    ensures r.Failed? ==> NoTerminatorUpTo(stream, cap)
    ensures r.Failed? ==> (r.error == EndOfStream <==> |stream| <= cap)
    ensures r.Failed? && r.error == EndOfStream ==> r.consumed == |stream|
    ensures r.Failed? && r.error == BufferFull ==> r.consumed == cap + 1 <= |stream|
  {
    var m := if |stream| < cap then |stream| else cap;
    match FirstTerminator(stream, 0, m)
    case Some(t) => Framed(t)
    case None =>
      assert NoTerminatorUpTo(stream, cap);
      if |stream| <= cap then Failed(EndOfStream, |stream|) else Failed(BufferFull, cap + 1)
  }

  /**
   * The block as header lines: decoded as US-ASCII, trimmed, split on CR LF.
   * There is always at least one line (the request or status line), no line
   * holds a CR LF, and joining the lines gives back the trimmed text.
   */
  function ParseHeaders(block: seq<byte>): (r: seq<string>)
    ensures |r| >= 1 && NoCrlfIn(r)
    ensures Join(r) == Trim(Decode(block))
  {
    SplitJoin(Trim(Decode(block)));
    Split(Trim(Decode(block)))
  }

  // ---------------------------------------------------------------------
  // The request thread
  // ---------------------------------------------------------------------

  /** What the forward action did: returned its success flag, or threw. */
  datatype ActionOutcome = Returned(success: bool) | Raised

  /** The observable steps of `run`, in order. */
  datatype RequestEvent =
    | SocketTimeoutSet(millis: int)
    | ActionInvoked(headers: seq<string>)
    | IncomingClosed
    | Finished(success: bool)

  /** The success flag that `run` passes to the listener. */
  function RunSuccess(framing: Framing, outcome: ActionOutcome): bool {
    framing.Framed? && outcome == Returned(true)
  }

  class ProxyRequest {
    /** BUF_SIZE and SOCKET_TIMEOUT of the listener's configuration. */
    const bufferSize: nat
    const socketTimeout: int
    var requestHeaders: Option<seq<string>>
    var responseHeaders: Option<seq<string>>
    var events: seq<RequestEvent>

    constructor (bufferSize: nat, socketTimeout: int)
      ensures this.bufferSize == bufferSize && this.socketTimeout == socketTimeout
      ensures requestHeaders == None && responseHeaders == None && events == []
    {
      this.bufferSize := bufferSize;
      this.socketTimeout := socketTimeout;
      requestHeaders := None;
      responseHeaders := None;
      events := [];
    }

    /**
     * Reads the header block one byte at a time into a buffer of `bufferSize`
     * bytes. `consumed` is how many bytes were taken from the stream: on
     * success exactly the block with its terminator, so the body stays unread.
     */
    method ProcessHeaders(stream: seq<byte>) returns (result: Result<seq<string>, FramingError>, consumed: nat)
      ensures consumed <= |stream|
      ensures Frame(stream, bufferSize).Framed? ==>
        consumed == Frame(stream, bufferSize).end && result == Ok(ParseHeaders(stream[..consumed]))
      ensures Frame(stream, bufferSize).Failed? ==>
        consumed == Frame(stream, bufferSize).consumed && result == Err(Frame(stream, bufferSize).error)
    {
      var buf := new byte[bufferSize];
      var bytesRead := 0;
      while bytesRead < 4 || buf[bytesRead - 4..bytesRead] != CRLFCRLF
        invariant bytesRead <= bufferSize && bytesRead <= |stream|
        invariant buf[..bytesRead] == stream[..bytesRead]
        invariant NoTerminatorUpTo(stream, bytesRead - 1)
        decreases bufferSize - bytesRead + 1
      {
        assert !TerminatedAt(stream, bytesRead) by {
          if bytesRead >= 4 {
            assert buf[bytesRead - 4..bytesRead] == stream[bytesRead - 4..bytesRead];
          }
        }
        if bytesRead == |stream| {
          return Err(EndOfStream), bytesRead;
        }
        var byteRead := stream[bytesRead];
        if bytesRead == bufferSize {
          return Err(BufferFull), bytesRead + 1;
        }
        buf[bytesRead] := byteRead;
        bytesRead := bytesRead + 1;
      }
      assert TerminatedAt(stream, bytesRead) by {
        assert buf[bytesRead - 4..bytesRead] == stream[bytesRead - 4..bytesRead];
      }
      result := Ok(ParseHeaders(buf[..bytesRead]));
      consumed := bytesRead;
    }

    /**
     * The thread body. The socket timeout is set first, then the headers are
     * read; the action runs only if they were read. The incoming socket is
     * closed on every path, and then the listener is told exactly once, with
     * success only if the action returned true.
     */
    method Run(stream: seq<byte>, outcome: ActionOutcome)
      modifies this`requestHeaders, this`events
      ensures var f := Frame(stream, bufferSize);
        && requestHeaders == (if f.Framed? then Some(ParseHeaders(stream[..f.end])) else old(requestHeaders))
        && events == old(events) + [SocketTimeoutSet(socketTimeout)]
           + (if f.Framed? then [ActionInvoked(ParseHeaders(stream[..f.end]))] else [])
           + [IncomingClosed, Finished(RunSuccess(f, outcome))]
    {
      var success := false;
      events := events + [SocketTimeoutSet(socketTimeout)];
      var headers, _ := ProcessHeaders(stream);
      if headers.Ok? {
        requestHeaders := Some(headers.value);
        events := events + [ActionInvoked(headers.value)];
        success := outcome == Returned(true);
      }
      events := events + [IncomingClosed];
      events := events + [Finished(success)];
    }
  }

  // ---------------------------------------------------------------------
  // Properties
  // ---------------------------------------------------------------------

  /** A header block stops at its first terminator: whatever follows it is left in the stream. */
  lemma FrameStopsAtBlock(block: seq<byte>, body: seq<byte>, cap: nat)
    requires NoTerminatorUpTo(block + CRLFCRLF, |block| + 3)
    requires |block| + 4 <= cap
    ensures Frame(block + CRLFCRLF + body, cap) == Framed(|block| + 4)
    ensures (block + CRLFCRLF + body)[..|block| + 4] == block + CRLFCRLF
  {
    var s := block + CRLFCRLF + body;
    assert (block + CRLFCRLF + body)[..|block| + 4] == block + CRLFCRLF;
    forall j | 0 <= j <= |block| + 3 ensures !TerminatedAt(s, j) {
      assert !TerminatedAt(block + CRLFCRLF, j);
      if 4 <= j {
        assert s[j - 4..j] == (block + CRLFCRLF)[j - 4..j];
      }
    }
    assert s[|block|..|block| + 4] == CRLFCRLF;
    assert TerminatedAt(s, |block| + 4);
  }
}
