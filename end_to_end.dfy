/**
 * How the pieces fit together on one forwarded request: the header block the
 * listener reads is split into lines, rewritten, and serialised again by the
 * pump. Reading and writing are inverse on the blocks a client sends (plain
 * ASCII, nothing for `trim()` to remove), and the two end-to-end scenarios
 * of the repository's own tests come out as expected.
 */
module EndToEnd {
  import opened Text
  import opened Results
  import ProxyRequests
  import Pumps
  import Forwarding

  /** The text of a header block has no blank at either end. */
  predicate PlainBlock(block: seq<byte>) {
    AllAscii(block) && Untrimmable(Decode(block))
  }

  /** The text of a block with its terminator, trimmed, is the text of the block. */
  lemma TrimTerminated(block: seq<byte>)
    requires Untrimmable(Decode(block))
    ensures Trim(Decode(block + CRLFCRLF)) == Decode(block)
  {
    DecodeAppend(block, CRLFCRLF);
    assert Decode(CRLFCRLF) == "\r\n\r\n";
    TrimTrailing(Decode(block), "\r\n\r\n");
  }

  /** Serialising the lines read from a block gives the block back, terminator included. */
  lemma ReadThenWrite(block: seq<byte>)
    requires PlainBlock(block)
    ensures Pumps.Preamble(Some(ProxyRequests.ParseHeaders(block + CRLFCRLF))) == block + CRLFCRLF
  {
    TrimTerminated(block);
    var lines := ProxyRequests.ParseHeaders(block + CRLFCRLF);
    assert Join(lines) == Decode(block);
    var out := Pumps.Preamble(Some(lines));
    EncodeDecode(block);
    assert out == out[..|out| - 4] + out[|out| - 4..];
  }

  /** Reading back what was written gives the same lines, for ASCII lines whose joined text is plain. */
  lemma WriteThenRead(lines: seq<string>)
    requires |lines| >= 1 && NoCrlfIn(lines)
    requires IsAsciiText(Join(lines)) && Untrimmable(Join(lines))
    ensures ProxyRequests.ParseHeaders(Pumps.Preamble(Some(lines))) == lines
  {
    var text := Join(lines);
    var out := Pumps.Preamble(Some(lines));
    assert out == Encode(text) + CRLFCRLF by {
      assert out == out[..|out| - 4] + out[|out| - 4..];
    }
    DecodeEncode(text);
    TrimTerminated(Encode(text));
    var r := ProxyRequests.ParseHeaders(out);
    assert Join(r) == text;
    JoinSplit(r);
    JoinSplit(lines);
  }

  /** An ASCII line whose lower-cased first character is not that of the name does not carry the header. */
  lemma NotHeaderByFirst(line: string, name: string)
    requires |line| >= 1 && line[0] as int < 0x80 && |name| >= 1
    requires AsciiLower(line[0]) != name[0]
    ensures !Forwarding.HasHeader(line, name)
  {
    assert Lower(line) == LowerChar(line[0]) + Lower(line[1..]);
    assert LowerChar(line[0]) == [AsciiLower(line[0])];
  }

  /** The request and response lines of the scenarios carry none of the rewritten headers. */
  lemma ScenarioLinesPlain(r0: string, r1: string, s0: string, s1: string)
    requires r0 == "FOO http://bar/ HTTP/1.1" && r1 == "Baz: 1" && s0 == "HTTP/1.1 123 Foo" && s1 == "Bar"
    ensures forall name | name in {Forwarding.AUTH, Forwarding.CONNECTION, Forwarding.KEEP_ALIVE} ::
      !Forwarding.HasHeader(r0, name) && !Forwarding.HasHeader(r1, name)
      && !Forwarding.HasHeader(s0, name) && !Forwarding.HasHeader(s1, name)
  {
    forall name | name in {Forwarding.AUTH, Forwarding.CONNECTION, Forwarding.KEEP_ALIVE}
      ensures !Forwarding.HasHeader(r0, name) && !Forwarding.HasHeader(r1, name)
      ensures !Forwarding.HasHeader(s0, name) && !Forwarding.HasHeader(s1, name)
    {
      assert name[0] == 'p' || name[0] == 'c' || name[0] == 'k';
      NotHeaderByFirst(r0, name);
      NotHeaderByFirst(r1, name);
      NotHeaderByFirst(s0, name);
      NotHeaderByFirst(s1, name);
    }
  }

  /** None of the lines is a Proxy-Authorization, Connection or Keep-Alive line. */
  predicate Plain(lines: seq<string>) {
    forall i | 0 <= i < |lines| ::
      !Forwarding.HasHeader(lines[i], Forwarding.AUTH)
      && !Forwarding.HasHeader(lines[i], Forwarding.CONNECTION)
      && !Forwarding.HasHeader(lines[i], Forwarding.KEEP_ALIVE)
  }

  /**
   * A request without the rewritten headers reaches upstream unchanged but
   * for the credential line, and then "Connection: Close", appended.
   */
  lemma PlainRequest(headers: seq<string>, username: string, password: string)
    requires Plain(headers)
    ensures Forwarding.RequestPipeline(headers, username, password, false)
      == headers + [Forwarding.AuthLine(username, password)]
    ensures Forwarding.RequestPipeline(headers, username, password, true)
      == headers + [Forwarding.AuthLine(username, password), Forwarding.CONNECTION_CLOSE]
  {
    Forwarding.RejectNone(headers, Forwarding.AUTH);
    var withAuth := headers + [Forwarding.AuthLine(username, password)];
    Forwarding.AuthLineHeader(username, password);
    assert Forwarding.ProcessAuthHeaders(headers, username, password) == withAuth;
    Forwarding.RejectNone(withAuth, Forwarding.CONNECTION);
    Forwarding.RejectNone(withAuth, Forwarding.KEEP_ALIVE);
  }

  /** A response without the rewritten headers reaches the client unchanged, or with "Connection: Close" appended. */
  lemma PlainResponse(headers: seq<string>)
    requires Plain(headers)
    ensures Forwarding.ResponsePipeline(headers, false) == headers
    ensures Forwarding.ResponsePipeline(headers, true) == headers + [Forwarding.CONNECTION_CLOSE]
  {
    Forwarding.RejectNone(headers, Forwarding.CONNECTION);
    Forwarding.RejectNone(headers, Forwarding.KEEP_ALIVE);
  }

  /**
   * The two end-to-end scenarios, user "foo" with password "bar": upstream
   * receives the request with the credential line appended, and with the
   * keep-alive rewrite also "Connection: Close"; the client receives the
   * response unchanged, or with "Connection: Close" appended.
   */
  lemma Scenarios(r0: string, r1: string, s0: string, s1: string)
    requires r0 == "FOO http://bar/ HTTP/1.1" && r1 == "Baz: 1" && s0 == "HTTP/1.1 123 Foo" && s1 == "Bar"
    ensures Forwarding.RequestPipeline([r0, r1], "foo", "bar", true)
      == [r0, r1, "Proxy-Authorization: Basic Zm9vOmJhcg==", "Connection: Close"]
    ensures Forwarding.RequestPipeline([r0, r1], "foo", "bar", false)
      == [r0, r1, "Proxy-Authorization: Basic Zm9vOmJhcg=="]
    ensures Forwarding.ResponsePipeline([s0, s1], true) == [s0, s1, "Connection: Close"]
    ensures Forwarding.ResponsePipeline([s0, s1], false) == [s0, s1]
  {
    ScenarioLinesPlain(r0, r1, s0, s1);
    assert Plain([r0, r1]) && Plain([s0, s1]);
    Forwarding.FooBarAuthLine();
    PlainRequest([r0, r1], "foo", "bar");
    PlainResponse([s0, s1]);
  }

  /** A non-empty line of printable ASCII characters and spaces that neither starts nor ends with a space. */
  predicate PrintableLine(a: string) {
    && |a| >= 1 && a[0] != ' ' && a[|a| - 1] != ' '
    && forall i | 0 <= i < |a| :: 0x20 <= a[i] as int < 0x7F
  }

  /** The lines of the scenarios are such lines. */
  lemma ScenarioLinesPrintable(r0: string, r1: string, s0: string, s1: string)
    requires r0 == "FOO http://bar/ HTTP/1.1" && r1 == "Baz: 1" && s0 == "HTTP/1.1 123 Foo" && s1 == "Bar"
    ensures PrintableLine(r0) && PrintableLine(r1) && PrintableLine(s0) && PrintableLine(s1)
  {
  }

  /** Two such lines, sent as a header block, are read back as sent. */
  lemma TwoLinesRoundTrip(a: string, b: string)
    requires PrintableLine(a) && PrintableLine(b)
    ensures ProxyRequests.ParseHeaders(Pumps.Preamble(Some([a, b]))) == [a, b]
  {
    var text := Join([a, b]);
    assert [a, b][1..] == [b] && Join([b]) == b;
    assert text == a + CRLF + b;
    assert !HasCrlf(a) && !HasCrlf(b);
    assert NoCrlfIn([a, b]);
    assert IsAsciiText(text) by {
      forall i | 0 <= i < |text| ensures text[i] as int < 0x80 {
        if i < |a| {
          assert text[i] == a[i];
        } else if i >= |a| + 2 {
          assert text[i] == b[i - |a| - 2];
        }
      }
    }
    assert text[0] == a[0] && text[|text| - 1] == b[|b| - 1];
    WriteThenRead([a, b]);
  }

  /**
   * The same scenarios on the wire: the client sends the two request lines
   * ended by a blank line, and what the listener reads from those bytes,
   * once rewritten, is what the pump serialises upstream; likewise for the
   * response of the mock upstream proxy.
   */
  lemma ScenariosOnTheWire(r0: string, r1: string, s0: string, s1: string)
    requires r0 == "FOO http://bar/ HTTP/1.1" && r1 == "Baz: 1" && s0 == "HTTP/1.1 123 Foo" && s1 == "Bar"
    ensures ProxyRequests.ParseHeaders(Pumps.Preamble(Some([r0, r1]))) == [r0, r1]
    ensures ProxyRequests.ParseHeaders(Pumps.Preamble(Some([s0, s1]))) == [s0, s1]
    ensures Pumps.Preamble(Some(Forwarding.RequestPipeline(ProxyRequests.ParseHeaders(Pumps.Preamble(Some([r0, r1]))), "foo", "bar", true)))
      == Pumps.Preamble(Some([r0, r1, "Proxy-Authorization: Basic Zm9vOmJhcg==", "Connection: Close"]))
    ensures Pumps.Preamble(Some(Forwarding.RequestPipeline(ProxyRequests.ParseHeaders(Pumps.Preamble(Some([r0, r1]))), "foo", "bar", false)))
      == Pumps.Preamble(Some([r0, r1, "Proxy-Authorization: Basic Zm9vOmJhcg=="]))
    ensures Pumps.Preamble(Some(Forwarding.ResponsePipeline(ProxyRequests.ParseHeaders(Pumps.Preamble(Some([s0, s1]))), true)))
      == Pumps.Preamble(Some([s0, s1, "Connection: Close"]))
    ensures Pumps.Preamble(Some(Forwarding.ResponsePipeline(ProxyRequests.ParseHeaders(Pumps.Preamble(Some([s0, s1]))), false)))
      == Pumps.Preamble(Some([s0, s1]))
  {
    ScenarioLinesPrintable(r0, r1, s0, s1);
    TwoLinesRoundTrip(r0, r1);
    TwoLinesRoundTrip(s0, s1);
    Scenarios(r0, r1, s0, s1);
  }
}
