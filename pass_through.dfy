/**
 * One direction of a forwarded connection (`PassThrough`): write the
 * serialised header lines, then copy the rest of the input to the output byte
 * by byte, and report to the listener once. Streams are replaced by the bytes
 * the input delivers and what its next read does after them; the output is
 * the sequence of bytes handed to `os.write`.
 */
module Pumps {
  import opened Results
  import opened Text

  /**
   * The header preamble: the lines joined by CR LF, then CR LF CR LF, as
   * US-ASCII bytes. No headers, no preamble.
   */
  function Preamble(headers: Option<seq<string>>): (r: seq<byte>)
    ensures headers.None? <==> r == []
    ensures headers.Some? ==> |r| >= 4 && r[|r| - 4..] == CRLFCRLF
    ensures headers.Some? ==> r[..|r| - 4] == Encode(Join(headers.value))
  {
    match headers
    case None => []
    case Some(lines) =>
      var text := Join(lines);
      EncodeAppend(text, "\r\n\r\n");
      TerminatorCodes();
      assert Encode(text + "\r\n\r\n")[..|text| + 4 - 4] == Encode(text);
      Encode(text + "\r\n\r\n")
  }

  /** What the read after the last delivered byte does. */
  datatype PumpEnd =
    | EndOfInput      // read() returns -1
    | SocketFault     // read() throws a SocketException
    | OtherIoFault    // read() throws another IOException

  datatype PumpEvent =
    | Flushed(written: nat)   // os.flush(), after this many bytes had been written
    | OutputShutdown          // toShutdownOutput.shutdownOutput()
    | OutputClosed            // os.close()
    | InputClosed             // inputStream.close()
    | Reported(succeeded: bool)

  /** The pump's success flag: false only after a SocketException. */
  function Succeeded(end: PumpEnd): bool {
    end != SocketFault
  }

  /**
   * The flushes of the first k loop rounds: round i flushes when `available`
   * reports nothing waiting, after `start + i` bytes have been written.
   */
  function Flushes(start: nat, available: nat -> nat, k: nat): seq<PumpEvent> {
    if k == 0 then []
    else Flushes(start, available, k - 1) + (if available(k - 1) == 0 then [Flushed(start + k - 1)] else [])
  }

  /** What happens after the copy loop, before the report. */
  function Cleanup(end: PumpEnd, shutdownTarget: bool): seq<PumpEvent> {
    match end
    case EndOfInput => if shutdownTarget then [OutputShutdown] else []
    case SocketFault => [OutputClosed, InputClosed]
    case OtherIoFault => []
  }

  /** An operation of the pump on its output. */
  datatype OutputStep =
    | PreambleWrite          // os.write of the header preamble
    | FlushBefore(read: nat) // os.flush() before read number `read`, counted from 0
    | ByteWrite(index: nat)  // os.write of input byte number `index`
    | Shutdown               // toShutdownOutput.shutdownOutput()

  /** The output operation that throws, and whether what it throws is a SocketException. */
  datatype OutputFault = OutputFault(step: OutputStep, socket: bool)

  /**
   * What the streams do besides delivering the input bytes: what the read
   * after them does, what `available` reports before each read, and the
   * output operation that throws, if any. Only the first exception ends a
   * run, so one faulty operation describes every way the output can fail.
   */
  datatype Streams = Streams(end: PumpEnd, available: nat -> nat, fault: Option<OutputFault>)

  /** The end an output exception gives the run, as the read's exceptions do. */
  function FaultEnd(socket: bool): PumpEnd {
    if socket then SocketFault else OtherIoFault
  }

  /** Whether the faulty operation is `step`. */
  predicate Raises(fault: Option<OutputFault>, step: OutputStep) {
    fault.Some? && fault.value.step == step
  }

  /**
   * Where a run stops: whether the preamble went out, how many input bytes
   * were written and how many counted, how many loop rounds passed their
   * flush check, and how the run ended.
   */
  datatype Halt = Halt(preamble: bool, copied: nat, counted: nat, rounds: nat, end: PumpEnd)

  /**
   * Where the copy loop over `n` input bytes stops: at the first output
   * operation that throws, or at the read after the last byte.
   */
  function CopyHalt(n: nat, streams: Streams): (r: Halt)
    ensures r.preamble && r.copied <= n && r.rounds <= n + 1
    ensures r.copied <= r.counted <= r.copied + 1
    ensures r.copied < n ==> streams.fault.Some? && r.end == FaultEnd(streams.fault.value.socket)
    ensures r.counted > r.copied ==> Raises(streams.fault, ByteWrite(r.copied))
  {
    var normal := Halt(true, n, n, n + 1, streams.end);
    match streams.fault
    case None => normal
    case Some(OutputFault(step, socket)) =>
      match step
      case FlushBefore(i) =>
        if i <= n && streams.available(i) == 0 then Halt(true, i, i, i, FaultEnd(socket)) else normal
      case ByteWrite(i) =>
        if i < n then Halt(true, i, i + 1, i + 1, FaultEnd(socket)) else normal
      case _ => normal
  }

  /**
   * Where a whole run stops: a throwing preamble write stops it before the
   * loop, and after a clean end of input a throwing shutdown replaces that
   * end by its own.
   */
  function Halting(n: nat, streams: Streams, hasPreamble: bool, shutdownTarget: bool): (r: Halt)
    ensures r.copied <= n && r.rounds <= n + 1
    ensures r.copied <= r.counted <= r.copied + 1
    ensures !r.preamble ==> hasPreamble && r.copied == 0 && r.counted == 0
    ensures r.end != streams.end || r.copied < n ==> streams.fault.Some? && r.end == FaultEnd(streams.fault.value.socket)
    ensures streams.fault.None? ==> r == Halt(true, n, n, n + 1, streams.end)
  {
    if hasPreamble && Raises(streams.fault, PreambleWrite) then
      Halt(false, 0, 0, 0, FaultEnd(streams.fault.value.socket))
    else
      var c := CopyHalt(n, streams);
      if c.end == EndOfInput && shutdownTarget && Raises(streams.fault, Shutdown) then
        c.(end := FaultEnd(streams.fault.value.socket))
      else c
  }

  /** The bytes a run that stopped at `h` hands to `os.write`. */
  function Sent(headers: Option<seq<string>>, input: seq<byte>, h: Halt): seq<byte>
    requires h.copied <= |input|
  {
    (if h.preamble then Preamble(headers) else []) + input[..h.copied]
  }

  class PassThrough {
    const headers: Option<seq<string>>
    /** Whether a socket to shut down the output of (`toShutdownOutput`) was given. */
    const shutdownTarget: bool
    var bytesTransferred: nat
    var written: seq<byte>
    var events: seq<PumpEvent>

    constructor (headers: Option<seq<string>>, shutdownTarget: bool)
      ensures this.headers == headers && this.shutdownTarget == shutdownTarget
      ensures bytesTransferred == 0 && written == [] && events == []
    {
      this.headers := headers;
      this.shutdownTarget := shutdownTarget;
      bytesTransferred := 0;
      written := [];
      events := [];
    }

    /**
     * The thread body. The output gets the preamble and then the input bytes
     * in order, up to the first output operation that throws;
     * `bytesTransferred` counts the input bytes only, and counts a byte before
     * its write. Before each read the output is flushed if nothing is
     * waiting. A SocketException, from either side, closes both streams and
     * makes the run a failure; another IOException ends it quietly. The
     * listener is told exactly once, as the last step.
     */
    method Run(input: seq<byte>, streams: Streams)
      modifies this`bytesTransferred, this`written, this`events
      ensures var h := Halting(|input|, streams, headers.Some?, shutdownTarget);
        && written == old(written) + Sent(headers, input, h)
        && bytesTransferred == old(bytesTransferred) + h.counted
        && events == old(events) + Flushes(|old(written)| + |Preamble(headers)|, streams.available, h.rounds)
          + Cleanup(h.end, shutdownTarget) + [Reported(Succeeded(h.end))]
    {
      var succeeded := true;
      var stop;
      if headers.Some? && Raises(streams.fault, PreambleWrite) {
        stop := FaultEnd(streams.fault.value.socket);
      } else {
        written := written + Preamble(headers);
        stop := Copy(input, streams);
        if stop == EndOfInput && shutdownTarget {
          if Raises(streams.fault, Shutdown) {
            stop := FaultEnd(streams.fault.value.socket);
          } else {
            events := events + [OutputShutdown];
          }
        }
      }
      if stop == SocketFault {
        succeeded := false;
        events := events + [OutputClosed, InputClosed];
      }
      events := events + [Reported(succeeded)];
    }

    /**
     * The copy loop: before each read, flush if nothing is waiting; at the
     * end of the input stop with how the read ended; otherwise count the
     * byte and write it. An output operation that throws stops the loop.
     */
    method Copy(input: seq<byte>, streams: Streams) returns (stop: PumpEnd)
      modifies this`bytesTransferred, this`written, this`events
      ensures var c := CopyHalt(|input|, streams);
        && stop == c.end
        && written == old(written) + input[..c.copied]
        && bytesTransferred == old(bytesTransferred) + c.counted
        && events == old(events) + Flushes(|old(written)|, streams.available, c.rounds)
    {
      ghost var start := |written|;
      var i := 0;
      while true
        invariant 0 <= i <= |input|
        invariant written == old(written) + input[..i]
        invariant bytesTransferred == old(bytesTransferred) + i
        invariant events == old(events) + Flushes(start, streams.available, i)
        invariant !StoppedBefore(streams, i)
        decreases |input| - i
      {
        assert |written| == start + i;
        assert Flushes(start, streams.available, i + 1)
          == Flushes(start, streams.available, i) + (if streams.available(i) == 0 then [Flushed(start + i)] else []);
        if streams.available(i) == 0 {
          if Raises(streams.fault, FlushBefore(i)) {
            return FaultEnd(streams.fault.value.socket);
          }
          events := events + [Flushed(|written|)];
        }
        if i == |input| {
          return streams.end;
        }
        bytesTransferred := bytesTransferred + 1;
        if Raises(streams.fault, ByteWrite(i)) {
          return FaultEnd(streams.fault.value.socket);
        }
        written := written + [input[i]];
        i := i + 1;
        assert input[..i] == input[..i - 1] + [input[i - 1]];
      }
    }
  }

  /** Whether the faulty operation is one of the first `i` rounds of the copy loop that ran. */
  predicate StoppedBefore(streams: Streams, i: nat) {
    match streams.fault
    case None => false
    case Some(OutputFault(step, _)) =>
      match step
      case FlushBefore(j) => j < i && streams.available(j) == 0
      case ByteWrite(j) => j < i
      case _ => false
  }

  /** Whatever throws, the output is a prefix of what a run without output faults writes. */
  lemma SentIsPrefix(headers: Option<seq<string>>, input: seq<byte>, streams: Streams, shutdownTarget: bool)
    ensures var h := Halting(|input|, streams, headers.Some?, shutdownTarget);
      Sent(headers, input, h) <= Preamble(headers) + input
    ensures var h := Halting(|input|, streams, headers.Some?, shutdownTarget);
      streams.fault.None? ==> Sent(headers, input, h) == Preamble(headers) + input
  {
    var h := Halting(|input|, streams, headers.Some?, shutdownTarget);
    if h.preamble {
      assert Preamble(headers) + input == Sent(headers, input, h) + input[h.copied..];
    }
  }

  /** An empty header list still ends the preamble with a blank line. */
  lemma PreambleOfNoLines()
    ensures Preamble(Some([])) == CRLFCRLF
  {
    assert Join([]) == "";
    assert Encode("" + "\r\n\r\n") == [13, 10, 13, 10];
  }

  /** A round of the pump flushes at most once, so there are never more flushes than reads. */
  lemma {:induction false} FlushesBounded(start: nat, available: nat -> nat, k: nat)
    ensures |Flushes(start, available, k)| <= k
    ensures forall i | 0 <= i < |Flushes(start, available, k)| ::
      Flushes(start, available, k)[i].Flushed? && start <= Flushes(start, available, k)[i].written < start + k
  {
    if k > 0 {
      FlushesBounded(start, available, k - 1);
    }
  }

  /** When nothing is ever waiting, the pump flushes before every read. */
  lemma {:induction false} FlushesWhenIdle(start: nat, available: nat -> nat, k: nat)
    requires forall i :: available(i) == 0
    ensures |Flushes(start, available, k)| == k
    ensures forall i | 0 <= i < k :: Flushes(start, available, k)[i] == Flushed(start + i)
  {
    if k > 0 {
      FlushesWhenIdle(start, available, k - 1);
    }
  }
}
