/**
 * Forwarding a request to the upstream proxy (`ForwardRequest`): the two
 * header rewrites, the 407 status-line matcher, the order in which `go`
 * applies them, and the sticky error flag that the two pumps report into.
 */
module Forwarding {
  import opened Results
  import opened Text
  import Base64
  import ProxyRequests
  import Pumps

  // ---------------------------------------------------------------------
  // Header rewrites
  // ---------------------------------------------------------------------

  /** The line's lower case starts with the given (lower-case) header name. */
  predicate HasHeader(line: string, name: string) {
    StartsWith(Lower(line), name)
  }

  const AUTH: string := "proxy-authorization:"
  const CONNECTION: string := "connection:"
  const KEEP_ALIVE: string := "keep-alive:"
  const CONNECTION_CLOSE: string := "Connection: Close"

  /** `filterNot { it.lowercase().startsWith(name) }`. */
  function Reject(lines: seq<string>, name: string): seq<string> {
    if lines == [] then []
    else (if HasHeader(lines[0], name) then [] else [lines[0]]) + Reject(lines[1..], name)
  }

  /** The credential line: "Basic" and the Base64 of the US-ASCII bytes of user:pass. */
  function AuthLine(username: string, password: string): string {
    "Proxy-Authorization: Basic " + Base64.Encode(Encode(username + ":" + password))
  }

  /** `processAuthHeaders`: drop every Proxy-Authorization line, append the configured one. */
  function ProcessAuthHeaders(headers: seq<string>, username: string, password: string): seq<string> {
    Reject(headers, AUTH) + [AuthLine(username, password)]
  }

  /** `processKeepAlive`: drop every Connection and Keep-Alive line, append "Connection: Close". */
  function ProcessKeepAlive(headers: seq<string>): seq<string> {
    Reject(Reject(headers, CONNECTION), KEEP_ALIVE) + [CONNECTION_CLOSE]
  }

  /** The request headers as `go` sends them upstream: auth first, then keep-alive if configured. */
  function RequestPipeline(headers: seq<string>, username: string, password: string, connectionClose: bool): seq<string> {
    var withAuth := ProcessAuthHeaders(headers, username, password);
    if connectionClose then ProcessKeepAlive(withAuth) else withAuth
  }

  /** The response headers as `go` sends them back: only the keep-alive rewrite, if configured. */
  function ResponsePipeline(headers: seq<string>, connectionClose: bool): seq<string> {
    if connectionClose then ProcessKeepAlive(headers) else headers
  }

  // ---------------------------------------------------------------------
  // Properties of the rewrites
  // ---------------------------------------------------------------------

  /** Filtering distributes over concatenation, which with the one-line cases fixes the order of what is kept. */
  lemma {:induction false} RejectAppend(a: seq<string>, b: seq<string>, name: string)
    ensures Reject(a + b, name) == Reject(a, name) + Reject(b, name)
  {
    if a == [] {
      assert a + b == b;
    } else {
      assert (a + b)[1..] == a[1..] + b;
      RejectAppend(a[1..], b, name);
    }
  }

  lemma RejectOne(x: string, name: string)
    ensures Reject([x], name) == if HasHeader(x, name) then [] else [x]
  {
    assert [x][1..] == [];
  }

  /** Filtering leaves a list alone when nothing in it matches. */
  lemma {:induction false} RejectNone(lines: seq<string>, name: string)
    requires forall i | 0 <= i < |lines| :: !HasHeader(lines[i], name)
    ensures Reject(lines, name) == lines
  {
    if lines != [] {
      RejectNone(lines[1..], name);
    }
  }

  lemma RejectIdempotent(lines: seq<string>, name: string)
    ensures Reject(Reject(lines, name), name) == Reject(lines, name)
  {
    RejectRemovesAll(lines, name);
    RejectNone(Reject(lines, name), name);
  }

  /** Filtering keeps exactly the lines without the header, and nothing else. */
  lemma {:induction false} RejectMembers(lines: seq<string>, name: string)
    ensures |Reject(lines, name)| <= |lines|
    ensures forall x :: x in Reject(lines, name) <==> x in lines && !HasHeader(x, name)
  {
    if lines != [] {
      RejectMembers(lines[1..], name);
      assert lines == [lines[0]] + lines[1..];
    }
  }

  /** No kept line carries the header. */
  lemma {:induction false} RejectRemovesAll(lines: seq<string>, name: string)
    ensures forall i | 0 <= i < |Reject(lines, name)| :: !HasHeader(Reject(lines, name)[i], name)
  {
    if lines != [] {
      RejectRemovesAll(lines[1..], name);
    }
  }

  /** Filtering on one header keeps a list free of another. */
  lemma {:induction false} RejectKeepsFree(lines: seq<string>, name: string, other: string)
    requires forall i | 0 <= i < |lines| :: !HasHeader(lines[i], other)
    ensures forall i | 0 <= i < |Reject(lines, name)| :: !HasHeader(Reject(lines, name)[i], other)
  {
    if lines != [] {
      RejectKeepsFree(lines[1..], name, other);
    }
  }

  /**
   * `processAuthHeaders` keeps every other line, in order, removes every
   * Proxy-Authorization line and ends with the configured one.
   */
  lemma ProcessAuthHeadersSpec(headers: seq<string>, username: string, password: string)
    ensures var r := ProcessAuthHeaders(headers, username, password);
      && |r| >= 1 && r[|r| - 1] == AuthLine(username, password)
      && (forall i | 0 <= i < |r| - 1 :: !HasHeader(r[i], AUTH))
      && (forall x :: x in r[..|r| - 1] <==> x in headers && !HasHeader(x, AUTH))
  {
    RejectMembers(headers, AUTH);
    RejectRemovesAll(headers, AUTH);
    var r := ProcessAuthHeaders(headers, username, password);
    assert r[..|r| - 1] == Reject(headers, AUTH);
  }

  /**
   * `processKeepAlive` keeps every other line, in order, removes every
   * Connection and Keep-Alive line and ends with "Connection: Close".
   */
  lemma ProcessKeepAliveSpec(headers: seq<string>)
    ensures var r := ProcessKeepAlive(headers);
      && |r| >= 1 && r[|r| - 1] == CONNECTION_CLOSE
      && (forall i | 0 <= i < |r| - 1 :: !HasHeader(r[i], CONNECTION) && !HasHeader(r[i], KEEP_ALIVE))
      && (forall x :: x in r[..|r| - 1] <==> x in headers && !HasHeader(x, CONNECTION) && !HasHeader(x, KEEP_ALIVE))
  {
    var once := Reject(headers, CONNECTION);
    RejectMembers(headers, CONNECTION);
    RejectMembers(once, KEEP_ALIVE);
    RejectRemovesAll(once, KEEP_ALIVE);
    var r := ProcessKeepAlive(headers);
    var kept := Reject(once, KEEP_ALIVE);
    assert r[..|r| - 1] == kept;
    forall i | 0 <= i < |kept| ensures !HasHeader(kept[i], CONNECTION) {
      assert kept[i] in kept;
    }
  }

  /** A line that starts "Proxy-Authorization: Basic " is a Proxy-Authorization line, and neither a Connection nor a Keep-Alive line. */
  lemma AuthPrefixHeader(rest: string)
    ensures HasHeader("Proxy-Authorization: Basic " + rest, AUTH)
    ensures !HasHeader("Proxy-Authorization: Basic " + rest, CONNECTION)
    ensures !HasHeader("Proxy-Authorization: Basic " + rest, KEEP_ALIVE)
  {
    AuthPrefixIsAuth(rest);
    AuthPrefixFirst("Proxy-Authorization: Basic " + rest);
  }

  lemma AuthPrefixIsAuth(rest: string)
    ensures HasHeader("Proxy-Authorization: Basic " + rest, AUTH)
  {
    var p := "Proxy-Authorization: Basic ";
    assert IsAsciiText(p);
    LowerAsciiPrefix(p, rest);
    var q := AsciiLowered(p);
    assert q[..20] == AUTH;
    var low := q + Lower(rest);
    assert low[..20] == q[..20];
  }

  /** A line whose first character is 'P' is neither a Connection nor a Keep-Alive line. */
  lemma AuthPrefixFirst(line: string)
    requires |line| >= 1 && line[0] == 'P'
    ensures !HasHeader(line, CONNECTION) && !HasHeader(line, KEEP_ALIVE)
  {
    assert Lower(line) == LowerChar(line[0]) + Lower(line[1..]);
    assert Lower(line)[0] == 'p';
  }

  lemma AuthLineHeader(username: string, password: string)
    ensures HasHeader(AuthLine(username, password), AUTH)
    ensures !HasHeader(AuthLine(username, password), CONNECTION)
    ensures !HasHeader(AuthLine(username, password), KEEP_ALIVE)
  {
    AuthPrefixHeader(Base64.Encode(Encode(username + ":" + password)));
  }

  /** "Connection: Close" is a Connection line, and neither a Keep-Alive nor a Proxy-Authorization line. */
  lemma ConnectionCloseHeader(line: string)
    requires line == "Connection: Close"
    ensures HasHeader(line, CONNECTION)
    ensures !HasHeader(line, KEEP_ALIVE)
    ensures !HasHeader(line, AUTH)
  {
    assert IsAsciiText(line);
    LowerAscii(line);
    var q := AsciiLowered(line);
    assert q[..11] == CONNECTION;
    assert q[0] == 'c';
  }

  /** Applying the auth rewrite twice is the same as once. */
  lemma ProcessAuthHeadersIdempotent(headers: seq<string>, username: string, password: string)
    ensures ProcessAuthHeaders(ProcessAuthHeaders(headers, username, password), username, password)
         == ProcessAuthHeaders(headers, username, password)
  {
    var line := AuthLine(username, password);
    var once := Reject(headers, AUTH);
    RejectAppend(once, [line], AUTH);
    RejectIdempotent(headers, AUTH);
    AuthLineHeader(username, password);
    RejectOne(line, AUTH);
  }

  /** Applying the keep-alive rewrite twice is the same as once. */
  lemma ProcessKeepAliveIdempotent(headers: seq<string>)
    ensures ProcessKeepAlive(ProcessKeepAlive(headers)) == ProcessKeepAlive(headers)
  {
    var once := Reject(headers, CONNECTION);
    var kept := Reject(once, KEEP_ALIVE);
    RejectRemovesAll(headers, CONNECTION);
    RejectKeepsFree(once, KEEP_ALIVE, CONNECTION);
    RejectRemovesAll(once, KEEP_ALIVE);
    ConnectionCloseHeader(CONNECTION_CLOSE);
    RejectAppend(kept, [CONNECTION_CLOSE], CONNECTION);
    RejectOne(CONNECTION_CLOSE, CONNECTION);
    RejectNone(kept, CONNECTION);
    assert Reject(kept + [CONNECTION_CLOSE], CONNECTION) == kept;
    RejectNone(kept, KEEP_ALIVE);
  }

  /** A list holding one Proxy-Authorization line, between lines that are none. */
  lemma OneAuthLine(pre: seq<string>, line: string, post: seq<string>)
    requires forall i | 0 <= i < |pre| :: !HasHeader(pre[i], AUTH)
    requires forall i | 0 <= i < |post| :: !HasHeader(post[i], AUTH)
    requires HasHeader(line, AUTH)
    ensures var r := pre + [line] + post;
      forall i | 0 <= i < |r| :: HasHeader(r[i], AUTH) <==> i == |pre|
  {
    var r := pre + [line] + post;
    forall i | 0 <= i < |r| ensures HasHeader(r[i], AUTH) <==> i == |pre| {
      if i < |pre| {
        assert r[i] == pre[i];
      } else if i > |pre| {
        assert r[i] == post[i - |pre| - 1];
      }
    }
  }

  /** The keep-alive rewrite keeps a trailing line that is neither Connection nor Keep-Alive in place. */
  lemma KeepAliveKeepsLast(kept: seq<string>, line: string)
    requires !HasHeader(line, CONNECTION) && !HasHeader(line, KEEP_ALIVE)
    ensures ProcessKeepAlive(kept + [line]) == Reject(Reject(kept, CONNECTION), KEEP_ALIVE) + [line] + [CONNECTION_CLOSE]
  {
    RejectAppend(kept, [line], CONNECTION);
    RejectOne(line, CONNECTION);
    RejectAppend(Reject(kept, CONNECTION), [line], KEEP_ALIVE);
    RejectOne(line, KEEP_ALIVE);
  }

  /** With the keep-alive rewrite, the credential line stays just before "Connection: Close". */
  lemma KeepAliveAroundAuth(kept: seq<string>, line: string) returns (pre: seq<string>)
    requires forall i | 0 <= i < |kept| :: !HasHeader(kept[i], AUTH)
    requires !HasHeader(line, CONNECTION) && !HasHeader(line, KEEP_ALIVE)
    ensures ProcessKeepAlive(kept + [line]) == pre + [line] + [CONNECTION_CLOSE]
    ensures forall i | 0 <= i < |pre| :: !HasHeader(pre[i], AUTH)
  {
    KeepAliveKeepsLast(kept, line);
    pre := Reject(Reject(kept, CONNECTION), KEEP_ALIVE);
    RejectKeepsFree(kept, CONNECTION, AUTH);
    RejectKeepsFree(Reject(kept, CONNECTION), KEEP_ALIVE, AUTH);
  }

  /** The request pipeline's output around its credential line. */
  lemma RequestPipelineSplit(headers: seq<string>, username: string, password: string, connectionClose: bool)
    returns (pre: seq<string>, post: seq<string>)
    ensures RequestPipeline(headers, username, password, connectionClose) == pre + [AuthLine(username, password)] + post
    ensures forall i | 0 <= i < |pre| :: !HasHeader(pre[i], AUTH)
    ensures forall i | 0 <= i < |post| :: !HasHeader(post[i], AUTH)
  {
    var line := AuthLine(username, password);
    var kept := Reject(headers, AUTH);
    RejectRemovesAll(headers, AUTH);
    if connectionClose {
      AuthLineHeader(username, password);
      pre := KeepAliveAroundAuth(kept, line);
      post := CloseLineAlone();
    } else {
      pre, post := kept, [];
    }
  }

  lemma CloseLineAlone() returns (post: seq<string>)
    ensures post == [CONNECTION_CLOSE]
    ensures forall i | 0 <= i < |post| :: !HasHeader(post[i], AUTH)
  {
    ConnectionCloseHeader(CONNECTION_CLOSE);
    post := [CONNECTION_CLOSE];
  }

  /**
   * The request sent upstream carries exactly one Proxy-Authorization line,
   * the configured one, whether or not the keep-alive rewrite follows.
   */
  lemma RequestPipelineAuth(headers: seq<string>, username: string, password: string, connectionClose: bool)
    ensures AuthLine(username, password) in RequestPipeline(headers, username, password, connectionClose)
    ensures var r := RequestPipeline(headers, username, password, connectionClose);
      forall i, j | 0 <= i < |r| && 0 <= j < |r| :: HasHeader(r[i], AUTH) && HasHeader(r[j], AUTH) ==> i == j
  {
    var pre, post := RequestPipelineSplit(headers, username, password, connectionClose);
    AuthLineHeader(username, password);
    OneAuthLine(pre, AuthLine(username, password), post);
    assert (pre + [AuthLine(username, password)] + post)[|pre|] == AuthLine(username, password);
  }

  /** The response path never introduces a Proxy-Authorization line. */
  lemma ResponsePipelineNoAuth(headers: seq<string>, connectionClose: bool)
    requires forall i | 0 <= i < |headers| :: !HasHeader(headers[i], AUTH)
    ensures forall i | 0 <= i < |ResponsePipeline(headers, connectionClose)| ::
      !HasHeader(ResponsePipeline(headers, connectionClose)[i], AUTH)
  {
    if connectionClose {
      ConnectionCloseHeader(CONNECTION_CLOSE);
      RejectKeepsFree(headers, CONNECTION, AUTH);
      RejectKeepsFree(Reject(headers, CONNECTION), KEEP_ALIVE, AUTH);
      var kept := Reject(Reject(headers, CONNECTION), KEEP_ALIVE);
      assert ResponsePipeline(headers, connectionClose) == kept + [CONNECTION_CLOSE];
    }
  }

  /** The credential of the end-to-end scenario. */
  lemma FooBarAuthLine()
    ensures AuthLine("foo", "bar") == "Proxy-Authorization: Basic Zm9vOmJhcg=="
  {
    assert "foo" + ":" + "bar" == "foo:bar";
    Base64.FooBar();
  }

  // ---------------------------------------------------------------------
  // The 407 matcher
  // ---------------------------------------------------------------------

  /** What `.` of a Java regular expression does not match by default. */
  predicate IsLineTerminator(c: char) {
    c == '\n' || c == '\r' || c == '\U{0085}' || c == '\U{2028}' || c == '\U{2029}'
  }

  /** `\d` without UNICODE_CHARACTER_CLASS. */
  predicate IsDigit(c: char) {
    '0' <= c <= '9'
  }

  /**
   * `PROXY_AUTH_ERROR matches line`, i.e. the whole line matches
   * `^HTTP/\d.\d 407 .*`. The dot between the digits is unescaped, so any
   * character but a line terminator may stand there.
   */
  predicate ProxyAuthError(line: string) {
    && |line| >= 13
    && line[..5] == "HTTP/"
    && IsDigit(line[5]) && !IsLineTerminator(line[6]) && IsDigit(line[7])
    && line[8..13] == " 407 "
    && forall i | 13 <= i < |line| :: !IsLineTerminator(line[i])
  }

  /** A status line built the way the regular expression reads. */
  predicate AuthErrorParts(line: string, major: char, dot: char, minor: char, rest: string) {
    && line == "HTTP/" + [major, dot, minor] + " 407 " + rest
    && IsDigit(major) && !IsLineTerminator(dot) && IsDigit(minor)
    && forall i | 0 <= i < |rest| :: !IsLineTerminator(rest[i])
  }

  lemma AuthErrorFromParts(line: string, major: char, dot: char, minor: char, rest: string)
    requires AuthErrorParts(line, major, dot, minor, rest)
    ensures ProxyAuthError(line)
  {
    assert line[..5] == "HTTP/";
    assert line[5] == major && line[6] == dot && line[7] == minor;
    assert line[8..13] == " 407 ";
    assert forall i | 13 <= i < |line| :: line[i] == rest[i - 13];
  }

  lemma PartsFromAuthError(line: string)
    requires ProxyAuthError(line)
    ensures AuthErrorParts(line, line[5], line[6], line[7], line[13..])
  {
    assert line == line[..5] + [line[5], line[6], line[7]] + line[8..13] + line[13..];
  }

  /** The matcher read as the regular expression's concatenation, in both directions. */
  lemma ProxyAuthErrorShape(line: string)
    ensures ProxyAuthError(line) <==>
      exists major: char, dot: char, minor: char, rest: string :: AuthErrorParts(line, major, dot, minor, rest)
  {
    if ProxyAuthError(line) {
      PartsFromAuthError(line);
    }
    if exists major: char, dot: char, minor: char, rest: string :: AuthErrorParts(line, major, dot, minor, rest) {
      var major: char, dot: char, minor: char, rest: string :| AuthErrorParts(line, major, dot, minor, rest);
      AuthErrorFromParts(line, major, dot, minor, rest);
    }
  }

  /** A 407 status line of HTTP/1.1 or HTTP/1.0 matches, whatever its reason phrase on that line. */
  lemma ProxyAuthErrorMatches(reason: string)
    requires forall i | 0 <= i < |reason| :: !IsLineTerminator(reason[i])
    ensures ProxyAuthError("HTTP/1.1 407 " + reason)
    ensures ProxyAuthError("HTTP/1.0 407 " + reason)
  {
    AuthErrorFromParts("HTTP/1.1 407 " + reason, '1', '.', '1', reason);
    AuthErrorFromParts("HTTP/1.0 407 " + reason, '1', '.', '0', reason);
  }

  /** An example of the unescaped dot: `HTTP/1x0 407 `, with `x` for the version dot, matches. */
  lemma ProxyAuthErrorAnyDot(line: string)
    requires line == "HTTP/1x0 407 "
    ensures ProxyAuthError(line)
  {
    AuthErrorFromParts(line, '1', 'x', '0', "");
  }

  /** Two examples that do not match: a 200 line, and a 407 line without the space after the code. */
  lemma ProxyAuthErrorRejects(ok: string, bare: string)
    requires ok == "HTTP/1.1 200 OK"
    requires bare == "HTTP/1.1 407"
    ensures !ProxyAuthError(ok) && !ProxyAuthError(bare)
  {
    assert ok[9] == '2';
  }

  // ---------------------------------------------------------------------
  // Completion: the sticky error flag
  // ---------------------------------------------------------------------

  /** The error flag after a series of pump reports: set by any failure, never cleared. */
  function ErrorsAfter(anyErrors: bool, reports: seq<bool>): bool
    decreases |reports|
  {
    if |reports| == 0 then anyErrors else ErrorsAfter(anyErrors || !reports[0], reports[1..])
  }

  lemma {:induction false} ErrorsAfterAnyFailure(anyErrors: bool, reports: seq<bool>)
    ensures ErrorsAfter(anyErrors, reports) <==> anyErrors || false in reports
    decreases |reports|
  {
    if |reports| > 0 {
      ErrorsAfterAnyFailure(anyErrors || !reports[0], reports[1..]);
      assert false in reports <==> !reports[0] || false in reports[1..];
    }
  }

  /** The order in which the pumps report does not change the outcome. */
  lemma ErrorsAfterOrder(anyErrors: bool, a: seq<bool>, b: seq<bool>)
    ensures ErrorsAfter(anyErrors, a + b) == ErrorsAfter(anyErrors, b + a)
  {
    ErrorsAfterAnyFailure(anyErrors, a + b);
    ErrorsAfterAnyFailure(anyErrors, b + a);
    assert false in a + b <==> false in a || false in b;
    assert false in b + a <==> false in a || false in b;
  }

  // ---------------------------------------------------------------------
  // The forwarding object
  // ---------------------------------------------------------------------

  datatype ForwardEvent =
    | UpstreamConnected
    | UploadStarted
    | ResponseRead
    | DownloadStarted
    | UpstreamClosed
    | IncomingClosed

  /** How `go` ends: it returns `!anyErrors`, throws an IOException, or exits the process. */
  datatype GoOutcome = Completed(success: bool) | Raised | ExitProcess(code: int)

  /** How a 407 stop is decided: only on the first response line, and only when configured. */
  function StopsOnAuthError(stopOnProxyAuthError: bool, responseHeaders: seq<string>): bool
    requires |responseHeaders| >= 1
  {
    stopOnProxyAuthError && ProxyAuthError(responseHeaders[0])
  }

  /** The sockets a failure report closes: the upstream one once it is set, then the incoming one. */
  function Closes(succeeded: bool, upstreamSet: bool): (r: seq<ForwardEvent>)
    ensures succeeded <==> r == []
    ensures !succeeded ==> r[|r| - 1] == IncomingClosed && (UpstreamClosed in r <==> upstreamSet)
  {
    if succeeded then [] else (if upstreamSet then [UpstreamClosed] else []) + [IncomingClosed]
  }

  /** The closes both reports cause, in the order the pumps report. */
  function ReportCloses(uploadOk: bool, downloadOk: bool, uploadReportsFirst: bool, upstreamSet: bool): seq<ForwardEvent> {
    if uploadReportsFirst then Closes(uploadOk, upstreamSet) + Closes(downloadOk, upstreamSet)
    else Closes(downloadOk, upstreamSet) + Closes(uploadOk, upstreamSet)
  }

  /** The events of two reports taken in turn are those of both, in that order. */
  lemma InTurn(started: seq<ForwardEvent>, first: seq<ForwardEvent>, second: seq<ForwardEvent>)
    ensures started + first + second == started + (first + second)
  {
  }

  /** The success flag of a pump's report, its last event. */
  function Report(pump: seq<Pumps.PumpEvent>): bool
    requires |pump| >= 1 && pump[|pump| - 1].Reported?
  {
    pump[|pump| - 1].succeeded
  }

  /** What `go`, or its part after the upload pump started, leaves: the outcome, the events and the error flag. */
  datatype Ending = Ending(outcome: GoOutcome, events: seq<ForwardEvent>, anyErrors: bool)

  /**
   * The part of `go` after the upload pump started, from the events and
   * the error flag before it: the response headers are read; a response
   * that cannot be framed raises, a 407 under the stop flag exits, and
   * otherwise the download pump runs, both reports are taken and the
   * upstream socket is closed.
   */
  function Responding(upstreamData: seq<byte>, bufferSize: nat, stopOnProxyAuthError: bool,
                      uploadOk: bool, downloadStreams: Pumps.Streams, uploadReportsFirst: bool,
                      upstreamSet: bool, events: seq<ForwardEvent>, anyErrors: bool): Ending
  {
    var f := ProxyRequests.Frame(upstreamData, bufferSize);
    var read := events + [ResponseRead];
    if f.Failed? then Ending(Raised, read + [UpstreamClosed], anyErrors)
    else if StopsOnAuthError(stopOnProxyAuthError, ProxyRequests.ParseHeaders(upstreamData[..f.end])) then
      Ending(ExitProcess(5), read, anyErrors)
    else
      var downloadOk := Pumps.Succeeded(Pumps.Halting(|upstreamData| - f.end, downloadStreams, true, true).end);
      var errors := ErrorsAfter(anyErrors, [uploadOk, downloadOk]);
      Ending(Completed(!errors),
             read + [DownloadStarted] + ReportCloses(uploadOk, downloadOk, uploadReportsFirst, upstreamSet) + [UpstreamClosed],
             errors)
  }

  /**
   * `go` from the events and the error flag before it: a failed connect
   * closes the socket and raises; otherwise the upstream socket is set, the
   * upload pump starts with its own report, and the rest is `Responding`.
   */
  function Going(connects: bool, clientBody: seq<byte>, uploadStreams: Pumps.Streams,
                 upstreamData: seq<byte>, bufferSize: nat, stopOnProxyAuthError: bool,
                 downloadStreams: Pumps.Streams, uploadReportsFirst: bool,
                 events: seq<ForwardEvent>, anyErrors: bool): Ending
  {
    if !connects then Ending(Raised, events + [UpstreamClosed], anyErrors)
    else
      var uploadOk := Pumps.Succeeded(Pumps.Halting(|clientBody|, uploadStreams, true, true).end);
      Responding(upstreamData, bufferSize, stopOnProxyAuthError, uploadOk, downloadStreams, uploadReportsFirst,
                 true, events + [UpstreamConnected] + [UploadStarted], anyErrors)
  }

  /** However `go` is left, the upstream socket is closed last, unless the process exits. */
  lemma GoingClosesUpstream(connects: bool, clientBody: seq<byte>, uploadStreams: Pumps.Streams,
                            upstreamData: seq<byte>, bufferSize: nat, stopOnProxyAuthError: bool,
                            downloadStreams: Pumps.Streams, uploadReportsFirst: bool,
                            events: seq<ForwardEvent>, anyErrors: bool)
    ensures var e := Going(connects, clientBody, uploadStreams, upstreamData, bufferSize, stopOnProxyAuthError,
                           downloadStreams, uploadReportsFirst, events, anyErrors);
      e.outcome.ExitProcess? || (|e.events| > |events| && e.events[|e.events| - 1] == UpstreamClosed)
  {
  }

  /**
   * Only a completed `go` changes the error flag, and then it returns its
   * inverse: the flag is set exactly when it was set before or a pump
   * reported failure. A process exit always has code 5.
   */
  lemma GoingErrorFlag(connects: bool, clientBody: seq<byte>, uploadStreams: Pumps.Streams,
                       upstreamData: seq<byte>, bufferSize: nat, stopOnProxyAuthError: bool,
                       downloadStreams: Pumps.Streams, uploadReportsFirst: bool,
                       events: seq<ForwardEvent>, anyErrors: bool)
    ensures var e := Going(connects, clientBody, uploadStreams, upstreamData, bufferSize, stopOnProxyAuthError,
                           downloadStreams, uploadReportsFirst, events, anyErrors);
      && (!e.outcome.Completed? ==> e.anyErrors == anyErrors)
      && (e.outcome.ExitProcess? ==> e.outcome.code == 5)
      && (e.outcome.Completed? ==> e.outcome.success == !e.anyErrors)
    ensures var e := Going(connects, clientBody, uploadStreams, upstreamData, bufferSize, stopOnProxyAuthError,
                           downloadStreams, uploadReportsFirst, events, anyErrors);
      var f := ProxyRequests.Frame(upstreamData, bufferSize);
      e.outcome.Completed? ==> (
        && f.Framed?
        && (e.anyErrors <==>
             || anyErrors
             || !Pumps.Succeeded(Pumps.Halting(|clientBody|, uploadStreams, true, true).end)
             || !Pumps.Succeeded(Pumps.Halting(|upstreamData| - f.end, downloadStreams, true, true).end)))
  {
    var f := ProxyRequests.Frame(upstreamData, bufferSize);
    if connects && f.Framed? {
      var uploadOk := Pumps.Succeeded(Pumps.Halting(|clientBody|, uploadStreams, true, true).end);
      var downloadOk := Pumps.Succeeded(Pumps.Halting(|upstreamData| - f.end, downloadStreams, true, true).end);
      ErrorsAfterAnyFailure(anyErrors, [uploadOk, downloadOk]);
    }
  }

  /**
   * Once connected, the upload pump starts before the response headers are
   * read, and the download pump starts right after them, and only when
   * `go` goes on to complete.
   */
  lemma GoingOrder(connects: bool, clientBody: seq<byte>, uploadStreams: Pumps.Streams,
                   upstreamData: seq<byte>, bufferSize: nat, stopOnProxyAuthError: bool,
                   downloadStreams: Pumps.Streams, uploadReportsFirst: bool,
                   events: seq<ForwardEvent>, anyErrors: bool)
    ensures var e := Going(connects, clientBody, uploadStreams, upstreamData, bufferSize, stopOnProxyAuthError,
                           downloadStreams, uploadReportsFirst, events, anyErrors);
      connects ==> (
        && |e.events| >= |events| + 3
        && e.events[..|events| + 3] == events + [UpstreamConnected, UploadStarted, ResponseRead]
        && (e.outcome.Completed? <==> DownloadStarted in e.events[|events| + 3..])
        && (e.outcome.Completed? ==> e.events[|events| + 3] == DownloadStarted))
  {
    if connects {
      var e := Going(connects, clientBody, uploadStreams, upstreamData, bufferSize, stopOnProxyAuthError,
                     downloadStreams, uploadReportsFirst, events, anyErrors);
      assert e.events[..|events| + 3] == events + [UpstreamConnected, UploadStarted, ResponseRead];
      if !e.outcome.Completed? {
        assert e.events[|events| + 3..] == [] || e.events[|events| + 3..] == [UpstreamClosed];
      } else {
        assert e.events[|events| + 3] == DownloadStarted;
      }
    }
  }

  class ForwardRequest {
    const proxyRequest: ProxyRequests.ProxyRequest
    /** The action's credentials and the forwarding switches of the configuration. */
    const username: string
    const password: string
    const connectionClose: bool
    const stopOnProxyAuthError: bool
    /** Whether `upstreamSocket` has been set. */
    var upstreamSet: bool
    var anyErrors: bool
    var events: seq<ForwardEvent>

    constructor (proxyRequest: ProxyRequests.ProxyRequest, username: string, password: string,
                 connectionClose: bool, stopOnProxyAuthError: bool)
      ensures this.proxyRequest == proxyRequest && this.username == username && this.password == password
      ensures this.connectionClose == connectionClose && this.stopOnProxyAuthError == stopOnProxyAuthError
      ensures !upstreamSet && !anyErrors && events == []
    {
      this.proxyRequest := proxyRequest;
      this.username := username;
      this.password := password;
      this.connectionClose := connectionClose;
      this.stopOnProxyAuthError := stopOnProxyAuthError;
      upstreamSet := false;
      anyErrors := false;
      events := [];
    }

    /**
     * A pump's report. A failure sets the error flag for good and closes the
     * upstream socket (once it is set) and the incoming socket, on every
     * failure report; a success changes nothing.
     */
    method Finished(succeeded: bool)
      modifies this`anyErrors, this`events
      ensures anyErrors == ErrorsAfter(old(anyErrors), [succeeded])
      ensures events == old(events) + Closes(succeeded, upstreamSet)
    {
      if !succeeded {
        anyErrors := true;
        if upstreamSet {
          events := events + [UpstreamClosed];
        }
        events := events + [IncomingClosed];
      }
    }

    /** The upload pump: the rewritten request headers, then the client's body, towards the upstream proxy. */
    method StartUpload(clientBody: seq<byte>, streams: Pumps.Streams)
      returns (upload: Pumps.PassThrough)
      requires proxyRequest.requestHeaders.Some?
      modifies this`events
      ensures fresh(upload) && upload.shutdownTarget
      ensures upload.headers == Some(RequestPipeline(proxyRequest.requestHeaders.value, username, password, connectionClose))
      ensures var h := Pumps.Halting(|clientBody|, streams, true, true);
        && upload.written == Pumps.Sent(upload.headers, clientBody, h)
        && |upload.events| >= 1 && upload.events[|upload.events| - 1] == Pumps.Reported(Pumps.Succeeded(h.end))
      ensures events == old(events) + [UploadStarted]
    {
      var headers := ProcessAuthHeaders(proxyRequest.requestHeaders.value, username, password);
      if connectionClose {
        headers := ProcessKeepAlive(headers);
      }
      assert headers == RequestPipeline(proxyRequest.requestHeaders.value, username, password, connectionClose);
      upload := new Pumps.PassThrough(Some(headers), true);
      events := events + [UploadStarted];
      upload.Run(clientBody, streams);
    }

    /** The download pump: the rewritten response headers, then the rest of the upstream data, back to the client. */
    method StartDownload(response: seq<string>, body: seq<byte>, streams: Pumps.Streams)
      returns (download: Pumps.PassThrough)
      modifies this`events
      ensures fresh(download) && download.shutdownTarget
      ensures download.headers == Some(ResponsePipeline(response, connectionClose))
      ensures var h := Pumps.Halting(|body|, streams, true, true);
        && download.written == Pumps.Sent(download.headers, body, h)
        && |download.events| >= 1 && download.events[|download.events| - 1] == Pumps.Reported(Pumps.Succeeded(h.end))
      ensures events == old(events) + [DownloadStarted]
    {
      var respHeaders := if connectionClose then ProcessKeepAlive(response) else response;
      download := new Pumps.PassThrough(Some(respHeaders), true);
      events := events + [DownloadStarted];
      download.Run(body, streams);
    }

    /**
     * `go`, with the sockets replaced by what they deliver: `clientBody` is
     * what the client sends after its headers, `upstreamData` everything the
     * upstream proxy sends, and `uploadStreams` and `downloadStreams` what
     * else the two pumps' streams do. The upload pump starts before the
     * response headers are read, the download pump after them, and their
     * reports are taken in the order `uploadReportsFirst` says once both
     * have run. The upstream socket is closed on leaving, however `go` is
     * left, unless the process exits.
     */
    method Go(connects: bool, clientBody: seq<byte>, uploadStreams: Pumps.Streams,
              upstreamData: seq<byte>, downloadStreams: Pumps.Streams, uploadReportsFirst: bool)
      returns (outcome: GoOutcome, upload: Pumps.PassThrough?, download: Pumps.PassThrough?)
      requires proxyRequest.requestHeaders.Some?
      modifies this, proxyRequest`responseHeaders
      ensures var e := Going(connects, clientBody, uploadStreams, upstreamData, proxyRequest.bufferSize,
                             stopOnProxyAuthError, downloadStreams, uploadReportsFirst, old(events), old(anyErrors));
        outcome == e.outcome && events == e.events && anyErrors == e.anyErrors
      ensures !connects ==> upload == null && download == null && upstreamSet == old(upstreamSet)
      ensures connects ==> (
        && upstreamSet
        && upload != null && fresh(upload)
        && upload.headers == Some(RequestPipeline(proxyRequest.requestHeaders.value, username, password, connectionClose))
        && upload.written == Pumps.Sent(upload.headers, clientBody, Pumps.Halting(|clientBody|, uploadStreams, true, true)))
      ensures var f := ProxyRequests.Frame(upstreamData, proxyRequest.bufferSize);
        connects && f.Failed? ==> download == null && proxyRequest.responseHeaders == old(proxyRequest.responseHeaders)
      ensures var f := ProxyRequests.Frame(upstreamData, proxyRequest.bufferSize);
        connects && f.Framed? ==>
          proxyRequest.responseHeaders == Some(ProxyRequests.ParseHeaders(upstreamData[..f.end]))
      ensures var f := ProxyRequests.Frame(upstreamData, proxyRequest.bufferSize);
        connects && f.Framed? && StopsOnAuthError(stopOnProxyAuthError, ProxyRequests.ParseHeaders(upstreamData[..f.end])) ==>
          download == null
      ensures var f := ProxyRequests.Frame(upstreamData, proxyRequest.bufferSize);
        connects && f.Framed? && !StopsOnAuthError(stopOnProxyAuthError, ProxyRequests.ParseHeaders(upstreamData[..f.end])) ==> (
          && download != null && fresh(download)
          && download.headers == Some(ResponsePipeline(ProxyRequests.ParseHeaders(upstreamData[..f.end]), connectionClose))
          && download.written == Pumps.Sent(download.headers, upstreamData[f.end..],
               Pumps.Halting(|upstreamData| - f.end, downloadStreams, true, true)))
    {
      upload, download := null, null;
      if !connects {
        events := events + [UpstreamClosed];
        return Raised, upload, download;
      }
      upstreamSet := true;
      events := events + [UpstreamConnected];
      upload := StartUpload(clientBody, uploadStreams);
      var uploadOk := Report(upload.events);
      assert uploadOk == Pumps.Succeeded(Pumps.Halting(|clientBody|, uploadStreams, true, true).end);
      outcome, download := Respond(upstreamData, downloadStreams, uploadOk, uploadReportsFirst);
    }

    /**
     * The part of `go` after the upload pump started: the response headers
     * are read from the upstream proxy; a response that cannot be framed
     * raises, a 407 stops the process when configured, and otherwise the
     * response is delivered. `uploadOk` is the upload pump's report.
     */
    method Respond(upstreamData: seq<byte>, streams: Pumps.Streams, uploadOk: bool, uploadReportsFirst: bool)
      returns (outcome: GoOutcome, download: Pumps.PassThrough?)
      modifies this`anyErrors, this`events, proxyRequest`responseHeaders
      ensures var e := Responding(upstreamData, proxyRequest.bufferSize, stopOnProxyAuthError, uploadOk, streams,
                                 uploadReportsFirst, upstreamSet, old(events), old(anyErrors));
        outcome == e.outcome && events == e.events && anyErrors == e.anyErrors
      ensures var f := ProxyRequests.Frame(upstreamData, proxyRequest.bufferSize);
        f.Failed? ==> download == null && proxyRequest.responseHeaders == old(proxyRequest.responseHeaders)
      ensures var f := ProxyRequests.Frame(upstreamData, proxyRequest.bufferSize);
        f.Framed? ==>
          proxyRequest.responseHeaders == Some(ProxyRequests.ParseHeaders(upstreamData[..f.end]))
      ensures var f := ProxyRequests.Frame(upstreamData, proxyRequest.bufferSize);
        f.Framed? && StopsOnAuthError(stopOnProxyAuthError, ProxyRequests.ParseHeaders(upstreamData[..f.end])) ==>
          download == null
      ensures var f := ProxyRequests.Frame(upstreamData, proxyRequest.bufferSize);
        f.Framed? && !StopsOnAuthError(stopOnProxyAuthError, ProxyRequests.ParseHeaders(upstreamData[..f.end])) ==> (
          && download != null && fresh(download)
          && download.headers == Some(ResponsePipeline(ProxyRequests.ParseHeaders(upstreamData[..f.end]), connectionClose))
          && download.written == Pumps.Sent(download.headers, upstreamData[f.end..],
               Pumps.Halting(|upstreamData| - f.end, streams, true, true)))
    {
      download := null;
      var response, consumed := proxyRequest.ProcessHeaders(upstreamData);
      events := events + [ResponseRead];
      if response.Err? {
        events := events + [UpstreamClosed];
        return Raised, download;
      }
      proxyRequest.responseHeaders := Some(response.value);
      if stopOnProxyAuthError && ProxyAuthError(response.value[0]) {
        return ExitProcess(5), download;
      }
      download := Deliver(response.value, upstreamData[consumed..], streams, uploadOk, uploadReportsFirst);
      outcome := Completed(!anyErrors);
    }

    /**
     * The end of `go` once the response headers are in: the download pump
     * runs, both pumps report in the given order, and the upstream socket
     * is closed. The error flag then records whether either pump failed.
     */
    method Deliver(response: seq<string>, body: seq<byte>, streams: Pumps.Streams, uploadOk: bool,
                   uploadReportsFirst: bool)
      returns (download: Pumps.PassThrough)
      modifies this`anyErrors, this`events
      ensures var h := Pumps.Halting(|body|, streams, true, true);
        && fresh(download)
        && download.headers == Some(ResponsePipeline(response, connectionClose))
        && download.written == Pumps.Sent(download.headers, body, h)
        && anyErrors == ErrorsAfter(old(anyErrors), [uploadOk, Pumps.Succeeded(h.end)])
        && events == old(events) + [DownloadStarted]
             + ReportCloses(uploadOk, Pumps.Succeeded(h.end), uploadReportsFirst, upstreamSet) + [UpstreamClosed]
    {
      download := StartDownload(response, body, streams);
      TakeReports(uploadOk, Report(download.events), uploadReportsFirst);
      events := events + [UpstreamClosed];
    }

    /** Both pumps' reports, in the order they arrive; the error flag takes in both, whatever the order. */
    method TakeReports(uploadOk: bool, downloadOk: bool, uploadReportsFirst: bool)
      modifies this`anyErrors, this`events
      ensures anyErrors == ErrorsAfter(old(anyErrors), [uploadOk, downloadOk])
      ensures events == old(events) + ReportCloses(uploadOk, downloadOk, uploadReportsFirst, upstreamSet)
    {
      ghost var started := events;
      ghost var up, down := Closes(uploadOk, upstreamSet), Closes(downloadOk, upstreamSet);
      if uploadReportsFirst {
        Finished(uploadOk);
        Finished(downloadOk);
        InTurn(started, up, down);
      } else {
        Finished(downloadOk);
        Finished(uploadOk);
        InTurn(started, down, up);
      }
      ErrorsAfterAnyFailure(old(anyErrors), [uploadOk, downloadOk]);
    }
  }
}
