/**
 * The echo action (`EchoAction`): a request whose first line starts with
 * "GET " is answered with a 200 reply whose body echoes the request's header
 * lines; any other request gets a 501 reply followed by the same echo. The
 * writer is modelled line by line, since `println` ends each line with the
 * platform's separator.
 */
module Echo {
  import opened Text

  /** The reply text to a GET, one element per line of the trimmed text block. */
  const OK_REPLY: seq<string> := [
    "HTTP/1.1 200 Echoing your request",
    "Content-Type: text/plain",
    "Connection: close",
    "",
    "Received request + headers:"]

  /** The reply text to anything else: the block ends with two blank lines. */
  const NOT_IMPLEMENTED_REPLY: seq<string> := [
    "HTTP/1.1 501 Not Implemented",
    "Content-Type: text/plain",
    "Connection: close",
    "",
    ""]

  /** The success test: a case-sensitive prefix check on the request line. */
  predicate IsGet(requestLine: string) {
    StartsWith(requestLine, "GET ")
  }

  function Reply(success: bool): seq<string> {
    if success then OK_REPLY else NOT_IMPLEMENTED_REPLY
  }

  /** The `PrintWriter` over the client socket, as the lines written to it. */
  class LineWriter {
    var lines: seq<string>
    var closed: bool

    constructor ()
      ensures lines == [] && !closed
    {
      lines := [];
      closed := false;
    }

    method Println(line: string)
      modifies this`lines
      ensures lines == old(lines) + [line]
    {
      lines := lines + [line];
    }

    method Close()
      modifies this`closed
      ensures closed
    {
      closed := true;
    }
  }

  /**
   * `action`: the reply text for the request line's verdict, then every
   * header line of the request in order, then the writer is closed. The
   * result is the verdict. The request has at least its request line.
   */
  method Action(headers: seq<string>, pw: LineWriter) returns (success: bool)
    requires |headers| >= 1
    modifies pw
    ensures success <==> IsGet(headers[0])
    ensures pw.lines == old(pw.lines) + Reply(success) + headers
    ensures pw.closed
  {
    success := IsGet(headers[0]);
    var reply := Reply(success);
    var i := 0;
    while i < |reply|
      invariant 0 <= i <= |reply|
      invariant pw.lines == old(pw.lines) + reply[..i]
    {
      pw.Println(reply[i]);
      assert reply[..i + 1] == reply[..i] + [reply[i]];
      i := i + 1;
    }
    assert reply[..i] == reply;
    var j := 0;
    while j < |headers|
      invariant 0 <= j <= |headers|
      invariant pw.lines == old(pw.lines) + reply + headers[..j]
    {
      pw.Println(headers[j]);
      assert headers[..j + 1] == headers[..j] + [headers[j]];
      j := j + 1;
    }
    assert headers[..j] == headers;
    pw.Close();
  }

  /** The two replies' status lines, as examples: 200 for a GET verdict, 501 otherwise, both HTTP/1.1. */
  lemma StatusLine(success: bool)
    ensures Reply(success)[0] == if success then "HTTP/1.1 200 Echoing your request" else "HTTP/1.1 501 Not Implemented"
    ensures StartsWith(Reply(success)[0], "HTTP/1.1 ")
  {
  }

  /**
   * For each of the two fixed replies: the written text starts with a head
   * of three non-blank lines (the status line and the two fields) ended by
   * the blank line at index 3, so the request header lines that follow it
   * are the reply body.
   */
  lemma EchoInBody(success: bool, headers: seq<string>)
    ensures var out := Reply(success) + headers;
      && (forall i | 0 <= i < 3 :: out[i] != "")
      && out[3] == ""
      && out[1] == "Content-Type: text/plain" && out[2] == "Connection: close"
      && (forall i | 0 <= i < |headers| :: 3 < |Reply(success)| + i && out[|Reply(success)| + i] == headers[i])
  {
    var out := Reply(success) + headers;
    assert out[..5] == Reply(success);
  }

  /** Examples of the verdict: of these four lines only the first is a GET, so the test is case-sensitive and needs the space. */
  lemma GetExamples(get: string, lower: string, bare: string, post: string)
    requires get == "GET / HTTP/1.1" && lower == "get / HTTP/1.1" && bare == "GETX" && post == "POST / HTTP/1.1"
    ensures IsGet(get) && !IsGet(lower) && !IsGet(bare) && !IsGet(post)
  {
    assert get[..4] == "GET ";
    assert lower[0] != 'G';
    assert bare[3] != ' ';
    assert post[0] != 'G';
  }
}
