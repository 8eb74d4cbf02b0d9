# ProxyAuth in Dafny

ProxyAuth is a small local HTTP proxy. It accepts client connections on
a local port and forwards each request to an upstream corporate proxy, adding
the `Proxy-Authorization: Basic …` credential line. It can rewrite the
keep-alive headers to `Connection: Close`, and it stops the program when the
upstream proxy answers `407 Proxy Authentication Required`. A settings table
(`proxyauth.properties`) holds its configuration. That table is loaded,
completed at the console, and saved; the command line selects how.

This project models the core of that program and proves the properties
its code promises:

- **Framing** (`ProxyRequests`, `Text`): the header block is read up to the
  first CRLFCRLF, without going past the buffer size and without consuming
  body bytes. It is decoded as US-ASCII, trimmed and split at CRLF.
- **Forwarding** (`Forwarding`, `Base64`): the request-header rewrite (drop
  every `Proxy-Authorization` line, append the credential line) and the
  keep-alive rewrite. Also the `407` matcher, the coordinator `go`, and the
  error flag the pumps report into.
- **Pumps and listener** (`Pumps`, `Listener`): the byte pump with its
  preamble, flushes, shutdown and single report. The listener's admission
  limit, its bookkeeping of active requests, and its port.
- **Settings** (`Converters`, `Settings`, `Config`): the three converters,
  bounds checking and the console prompt. The defaults table, loading
  (merge), saving (the password filter), the interactive `init` and its
  completeness check.
- **Command line** (`MainOptions`): option-name cleaning, the alias table,
  argument parsing, and `/quiet` overriding `/wizard`.
- **Echo action** (`Echo`): the test action that echoes a request back.
- **End to end** (`EndToEnd`): the two end-to-end scenarios of the
  repository's tests, as header blocks on the wire.

Sockets, threads and the console are replaced by values:

- a socket's incoming bytes are a `seq<byte>` plus how the read after them
  ends (end of stream, an `IOException`, a `SocketException`);
- `available()` is a function from position to count;
- the output operation that throws, if any (preamble write, a flush, a byte write, the shutdown), is a parameter of each pump, along with whether what it throws is a `SocketException`;
- the console is a queue of lines;
- the environment variable `USERNAME` and the `LISTEN_ADDRESS` check are
  parameters;
- events that the source causes outside its own state (a socket closed, a
  listener notified, a thread started) are recorded in an event log field.

## Model

| member | source | states |
|---|---|---|
| Text.EncodeDecode | src/main/kotlin/proxyauth/Utils.kt:30 | re-encoding decoded US-ASCII bytes gives the bytes back exactly when every byte is ASCII |
| Text.DecodeEncode | src/main/kotlin/proxyauth/Utils.kt:30 | encoding ASCII text and decoding it gives the text back |
| Text.SplitJoin | src/main/kotlin/proxyauth/ProxyRequest.kt:95 | `split("\r\n")` yields at least one piece, no piece holds CRLF, and joining the pieces with CRLF restores the text |
| Text.JoinSplit | src/main/kotlin/proxyauth/PassThrough.kt:60 | splitting the CRLF-joined lines gives the lines back, when no line holds CRLF |
| Text.TrimTrailing | src/main/kotlin/proxyauth/ProxyRequest.kt:95 | `trim()` of a text with trailing whitespace appended, when nothing is trimmable at its ends, is the text |
| Text.LowerAsciiPrefix | src/main/kotlin/proxyauth/actions/ForwardRequest.kt:56-60 | lower-casing an ASCII prefix followed by any text lowers the prefix letter by letter |
| Base64.DecodeEncode | src/main/kotlin/proxyauth/actions/ForwardRequest.kt:56-60 | Base64 encoding (RFC 4648 section 4, with padding) is undone by decoding, for every byte string |
| Base64.EncodedLength | src/main/kotlin/proxyauth/actions/ForwardRequest.kt:56-60 | the encoding of n bytes has 4·⌈n/3⌉ characters |
| Base64.EncodedAlphabet | src/main/kotlin/proxyauth/actions/ForwardRequest.kt:56-60 | every encoded character is a letter of the Base64 alphabet or the pad `=` |
| Base64.FooBar | src/test/kotlin/proxyauth/End2EndTest.kt:47-48 | the credentials `foo:bar` encode to `Zm9vOmJhcg==` |
| ProxyRequests.FirstTerminator | src/main/kotlin/proxyauth/ProxyRequest.kt:82-88 | the result is the first position in the window where CRLFCRLF ends, or none exists there |
| ProxyRequests.Frame | src/main/kotlin/proxyauth/ProxyRequest.kt:76-96 | a block is framed exactly when CRLFCRLF ends within the buffer size, at its first occurrence; otherwise the error is end of stream exactly when the stream is no longer than the buffer, with the bytes consumed counted |
| ProxyRequests.ParseHeaders | src/main/kotlin/proxyauth/ProxyRequest.kt:95 | the lines are at least one, hold no CRLF, and joined with CRLF they are the trimmed US-ASCII text of the block |
| ProxyRequests.ProxyRequest.ProcessHeaders | src/main/kotlin/proxyauth/ProxyRequest.kt:76-96 | the array loop either returns the parsed block, having consumed exactly the block with its terminator, or returns the framing error with the bytes it consumed |
| ProxyRequests.ProxyRequest.Run | src/main/kotlin/proxyauth/ProxyRequest.kt:56-74 | the timeout is set first; the action runs only on a framed block and sees its lines; the socket is closed and the listener told once, with success only if the action returned true |
| ProxyRequests.FrameStopsAtBlock | src/main/kotlin/proxyauth/ProxyRequest.kt:82-88 | a block followed by CRLFCRLF and a body is framed at the end of the terminator, so the body stays unread |
| Pumps.Preamble | src/main/kotlin/proxyauth/PassThrough.kt:60 | no headers give no bytes; otherwise the bytes are the CRLF-joined lines followed by CRLFCRLF |
| Pumps.CopyHalt | src/main/kotlin/proxyauth/PassThrough.kt:63-73 | the copy loop over n bytes stops at the first output operation that throws (a flush only when nothing is waiting before that read, or a byte write, which has counted its byte), with that exception's end; without one it copies all n bytes and ends as the read after them |
| Pumps.Halting | src/main/kotlin/proxyauth/PassThrough.kt:57-85 | a throwing preamble write stops the run before any byte; a throwing shutdown replaces a clean end; the end differs from the input's, or bytes are left, only through an output fault; without one every byte is copied |
| Pumps.SentIsPrefix | src/main/kotlin/proxyauth/PassThrough.kt:57-85 | whichever output operation throws, the bytes written are a prefix of the preamble followed by the input, and are all of it when nothing throws |
| Pumps.PassThrough.Copy | src/main/kotlin/proxyauth/PassThrough.kt:63-73 | the loop flushes before each read with nothing waiting, counts and writes every byte read, and stops where CopyHalt says, with the bytes, count and flushes up to there |
| Pumps.PassThrough.Run | src/main/kotlin/proxyauth/PassThrough.kt:54-89 | the output is the preamble, then the input bytes in order, up to the first output operation that throws; the count takes in input bytes only, each before its write; there is one flush check per read reached; then the target is shut down after a clean end, or both streams are closed on a SocketException from either side; then exactly one report, a failure exactly on a SocketException |
| Pumps.FlushesBounded | src/main/kotlin/proxyauth/PassThrough.kt:63-73 | a pump flushes at most once per read, each time at the position it has reached |
| Pumps.FlushesWhenIdle | src/main/kotlin/proxyauth/PassThrough.kt:63-73 | when nothing is ever waiting, the pump flushes before every read |
| Pumps.PreambleOfNoLines | src/main/kotlin/proxyauth/PassThrough.kt:60 | an empty header list still sends the blank-line terminator |
| Forwarding.RejectMembers | src/main/kotlin/proxyauth/actions/ForwardRequest.kt:56-68 | the header filter keeps exactly the lines that do not carry the header, and never adds lines |
| Forwarding.RejectRemovesAll | src/main/kotlin/proxyauth/actions/ForwardRequest.kt:56-68 | no line that the filter keeps carries the filtered header |
| Forwarding.RejectIdempotent | src/main/kotlin/proxyauth/actions/ForwardRequest.kt:56-68 | filtering twice is filtering once |
| Forwarding.RejectAppend | src/main/kotlin/proxyauth/actions/ForwardRequest.kt:56-68 | the filter distributes over concatenation, so it keeps the order of the lines |
| Forwarding.ProcessAuthHeadersSpec | src/main/kotlin/proxyauth/actions/ForwardRequest.kt:56-60 | the rewritten request ends with the credential line; before it are exactly the original lines that are not `Proxy-Authorization` lines |
| Forwarding.ProcessKeepAliveSpec | src/main/kotlin/proxyauth/actions/ForwardRequest.kt:66-68 | the rewritten headers end with `Connection: Close`; before it are exactly the original lines that are neither `Connection` nor `Keep-Alive` lines |
| Forwarding.ProcessAuthHeadersIdempotent | src/main/kotlin/proxyauth/actions/ForwardRequest.kt:56-60 | rewriting the credentials twice gives the same request as once |
| Forwarding.ProcessKeepAliveIdempotent | src/main/kotlin/proxyauth/actions/ForwardRequest.kt:66-68 | rewriting keep-alive twice gives the same headers as once |
| Forwarding.AuthLineHeader | src/main/kotlin/proxyauth/actions/ForwardRequest.kt:56-60 | the credential line is a `Proxy-Authorization` line and neither a `Connection` nor a `Keep-Alive` line |
| Forwarding.RequestPipelineSplit | src/main/kotlin/proxyauth/actions/ForwardRequest.kt:84-87 | the request sent upstream holds the credential line once, with no other `Proxy-Authorization` line before or after it |
| Forwarding.RequestPipelineAuth | src/main/kotlin/proxyauth/actions/ForwardRequest.kt:84-87 | the request sent upstream holds the credential line, and it is its only `Proxy-Authorization` line |
| Forwarding.ResponsePipelineNoAuth | src/main/kotlin/proxyauth/actions/ForwardRequest.kt:105-107 | the response rewrite adds no `Proxy-Authorization` line |
| Forwarding.KeepAliveAroundAuth | src/main/kotlin/proxyauth/actions/ForwardRequest.kt:84-87 | after the credential line is added, the keep-alive rewrite keeps it in front of `Connection: Close` |
| Forwarding.FooBarAuthLine | src/test/kotlin/proxyauth/End2EndTest.kt:47-48 | user `foo` with password `bar` gives `Proxy-Authorization: Basic Zm9vOmJhcg==` |
| Forwarding.ProxyAuthErrorShape | src/main/kotlin/proxyauth/actions/ForwardRequest.kt:161 | the 407 matcher accepts a line exactly when it is `HTTP/`, a digit, any character but a line terminator, a digit, ` 407 `, then any text without a line terminator |
| Forwarding.ProxyAuthErrorMatches | src/main/kotlin/proxyauth/actions/ForwardRequest.kt:161 | an HTTP/1.1 or HTTP/1.0 `407` status line matches, whatever reason phrase follows on the line |
| Forwarding.ProxyAuthErrorAnyDot | src/main/kotlin/proxyauth/actions/ForwardRequest.kt:161 | example: `HTTP/1x0 407 ` matches, because the `.` of the pattern is unescaped |
| Forwarding.ProxyAuthErrorRejects | src/main/kotlin/proxyauth/actions/ForwardRequest.kt:161 | examples: a 200 line does not match, nor does a 407 line without the space after the code |
| Forwarding.ErrorsAfterAnyFailure | src/main/kotlin/proxyauth/actions/ForwardRequest.kt:139-158 | the error flag ends up set exactly when it was already set or some pump reported failure |
| Forwarding.ErrorsAfterOrder | src/main/kotlin/proxyauth/actions/ForwardRequest.kt:139-158 | the order in which the two pumps report does not change the flag |
| Forwarding.Closes | src/main/kotlin/proxyauth/actions/ForwardRequest.kt:139-158 | a report closes nothing exactly when it is a success; a failure closes the incoming socket last, and the upstream socket exactly when it is set |
| Forwarding.GoingClosesUpstream | src/main/kotlin/proxyauth/actions/ForwardRequest.kt:74-123 | however `go` is left, unless the process exits, the last event is the upstream socket's close |
| Forwarding.GoingErrorFlag | src/main/kotlin/proxyauth/actions/ForwardRequest.kt:70-158 | the error flag changes only when `go` completes, and then `go` returns its inverse; it is then set exactly when it was set before or either pump failed; a process exit has code 5 |
| Forwarding.GoingOrder | src/main/kotlin/proxyauth/actions/ForwardRequest.kt:74-115 | once connected, the upstream socket is set, the upload starts, then the response headers are read, and the download starts right after them exactly when `go` goes on to complete |
| Forwarding.ForwardRequest.Finished | src/main/kotlin/proxyauth/actions/ForwardRequest.kt:139-158 | a failure report sets the error flag for good and closes the upstream socket (once set) and then the incoming socket; a success report changes nothing |
| Forwarding.ForwardRequest.StartUpload | src/main/kotlin/proxyauth/actions/ForwardRequest.kt:88-92 | the upload pump carries the rewritten request, then the client's body, and shuts its target down |
| Forwarding.ForwardRequest.StartDownload | src/main/kotlin/proxyauth/actions/ForwardRequest.kt:108-115 | the download pump carries the rewritten response, then the upstream body, and shuts its target down |
| Forwarding.ForwardRequest.Respond | src/main/kotlin/proxyauth/actions/ForwardRequest.kt:93-135 | the outcome, events and flag are those of Responding: a response that cannot be framed raises, closes the upstream socket and leaves the response headers as they were; with `stopOnProxyAuthError` a 407 first line exits with code 5 before any download; otherwise the download pump carries the rewritten response and the rest of the upstream data |
| Forwarding.ForwardRequest.Deliver | src/main/kotlin/proxyauth/actions/ForwardRequest.kt:105-123 | the download carries the rewritten response and what its pump sent of the body; both reports are taken in the order given, the flag takes in both, and then the upstream socket is closed |
| Forwarding.ForwardRequest.TakeReports | src/main/kotlin/proxyauth/actions/ForwardRequest.kt:116-122 | both pumps' reports, in the order given: the flag takes in both, and each failure closes its sockets as Finished does |
| Forwarding.ForwardRequest.Go | src/main/kotlin/proxyauth/actions/ForwardRequest.kt:70-137 | the outcome, events and error flag are those of Going; a failed connect raises with neither pump; otherwise the upstream socket is set, the upload carries the rewritten request and what its pump sent of the body, the response headers are those framed from upstream (unchanged when framing fails), and a download runs exactly when no 407 stop and framing succeeded, carrying the rewritten response |
| Listener.ProxyListener.constructor | src/main/kotlin/proxyauth/ProxyListener.kt:37 | a new listener has no active requests and no port |
| Listener.ProxyListener.Admit | src/main/kotlin/proxyauth/ProxyListener.kt:53-61 | admission below the limit adds one fresh request to the active set and starts it after a notify |
| Listener.ProxyListener.Finished | src/main/kotlin/proxyauth/ProxyListener.kt:71-84 | a finished request leaves the active set and waiters are notified |
| Listener.ProxyListener.Run | src/main/kotlin/proxyauth/ProxyListener.kt:41-69 | when binding fails nothing changes; otherwise the port is announced and kept in `localPort`, the active set never exceeds the limit, every connection is started or still waiting, and connections wait only while the set is full or after the loop ended on a failure, after which nothing starts; the set afterwards is the old one less the requests that reported, plus the ones started |
| Listener.ProxyListener.Serve | src/main/kotlin/proxyauth/ProxyListener.kt:50-62 | the accept loop over all the steps keeps the loop and bookkeeping invariants |
| Listener.ProxyListener.TakeStep | src/main/kotlin/proxyauth/ProxyListener.kt:50-62 | one outside step keeps both invariants: a connection waits, a report leaves the set, a failure ends the loop |
| Listener.ProxyListener.TakeReport | src/main/kotlin/proxyauth/ProxyListener.kt:71-84 | a report keeps both invariants and removes its request |
| Listener.ProxyListener.TakeFailure | src/main/kotlin/proxyauth/ProxyListener.kt:64-68 | the first failure ends the loop; a later one changes nothing |
| Listener.ProxyListener.AdmitWaiting | src/main/kotlin/proxyauth/ProxyListener.kt:51-60 | waiting connections are admitted while the loop runs and the set is not full, each as a new request |
| Listener.StartsAppend | src/main/kotlin/proxyauth/ProxyListener.kt:56 | the requests started by two stretches of events are those of the first, then those of the second |
| Listener.Extend | src/main/kotlin/proxyauth/ProxyListener.kt:56 | appending events extends the stretch since `run` began, and what it starts |
| Listener.LoopsStep | src/main/kotlin/proxyauth/ProxyListener.kt:50-68 | a step that admits nothing keeps the loop invariant, and a first failure ends the loop there |
| Listener.AccountsStep | src/main/kotlin/proxyauth/ProxyListener.kt:50-84 | a step that starts nothing keeps the count of connections and the active set in step |
| Listener.AccountsAdmit | src/main/kotlin/proxyauth/ProxyListener.kt:53-56 | an admission turns a waiting connection into a new member of the set |
| Listener.LoopsAdmit | src/main/kotlin/proxyauth/ProxyListener.kt:53-56 | an admission while the loop runs ends nothing |
| Listener.RunStarts | src/main/kotlin/proxyauth/ProxyListener.kt:47-49 | right after binding, both invariants hold with nothing counted |
| Listener.RunEnds | src/main/kotlin/proxyauth/ProxyListener.kt:50-68 | after all steps, the loop ended exactly when a failure was among them |
| Converters.ParseYesNo | src/main/kotlin/proxyauth/conf/Converter.kt:32-41 | the text is accepted exactly when its lower case is one of yes, y, true, no, n or false, and it means true exactly for the first three |
| Converters.YesNoDisjoint | src/main/kotlin/proxyauth/conf/Converter.kt:56-57 | no word is both a yes and a no |
| Converters.YesNoRoundTrip | src/main/kotlin/proxyauth/conf/Converter.kt:32-41 | `Yes` and `No` parse back to the flag they print |
| Converters.YesNoAcceptsAsciiOnly | src/main/kotlin/proxyauth/conf/Converter.kt:32-41 | every accepted text is plain ASCII, whatever Unicode lower-casing does |
| Converters.YesNoExamples | src/test/kotlin/proxyauth/conf/SettingTest.kt:48-53 | upper and mixed case parse and `Foo` is rejected with the yes/no error |
| Converters.ParseInt | src/main/kotlin/proxyauth/conf/Converter.kt:43-49 | a text is accepted exactly when, after an optional sign, it is a nonempty run of decimal digits whose signed value is a 32-bit integer, and the value is that signed value; every decimal numeral up to the maximum is accepted with its value |
| Converters.Unsigned | src/main/kotlin/proxyauth/conf/Converter.kt:43-49 | the digits after an optional sign are a suffix of the text |
| Converters.NatToString | src/main/kotlin/proxyauth/conf/Converter.kt:29-31 | the printed numeral is all digits, denotes the number, and has no leading zero |
| Converters.IntegerRoundTrip | src/main/kotlin/proxyauth/conf/Converter.kt:43-49 | every 32-bit integer parses back from its printed form |
| Converters.IntegerExamples | src/test/kotlin/proxyauth/conf/SettingTest.kt:31-45 | `3` and `-42` parse; `Foo`, the empty text and a bare `-` do not |
| Converters.IntegerOverflow | src/main/kotlin/proxyauth/conf/Converter.kt:43-49 | one past the largest `Int` is rejected |
| Converters.FromString | src/main/kotlin/proxyauth/conf/Converter.kt:32-53 | a converter produces only values of its own kind; STRING keeps the text; each failure carries its converter's error |
| Converters.RoundTrip | src/main/kotlin/proxyauth/conf/Converter.kt:29-53 | every value a converter holds survives printing and parsing |
| Settings.CheckBounds | src/main/kotlin/proxyauth/conf/Setting.kt:80-85 | a value passes exactly when it is within the bounds; each error names the bound it breaks |
| Settings.BoundsInclusive | src/main/kotlin/proxyauth/conf/Setting.kt:80-85 | both bounds are inclusive, below the minimum and above the maximum give their own errors |
| Settings.MissingValueNeedsNoBounds | src/main/kotlin/proxyauth/conf/Setting.kt:80-85 | a missing value is refused exactly by a bounded setting, with the null-value error |
| Settings.Console.ReadLine | src/main/kotlin/proxyauth/conf/Setting.kt:50-67 | a closed console reads nothing; otherwise the first line is taken |
| Settings.Setting.constructor | src/main/kotlin/proxyauth/conf/Setting.kt:36-45 | a setting starts at its default, which its bounds admit |
| Settings.Setting.SetValue | src/main/kotlin/proxyauth/conf/Setting.kt:77-87 | the setter stores the value exactly when it is within bounds, else keeps the old one and reports the error |
| Settings.Setting.Parse | src/main/kotlin/proxyauth/conf/Setting.kt:69-72 | a validator complaint is the error; otherwise a converter failure is its error; otherwise the converted value is the result when it is within bounds, and else the bounds error |
| Settings.Setting.SetString | src/main/kotlin/proxyauth/conf/Setting.kt:69-72 | the text is stored exactly when it parses, and the error is the parse error |
| Settings.Setting.ToUserString | src/main/kotlin/proxyauth/conf/Setting.kt:95-97 | a missing value raises the null-value error; a present one is shown as its converter prints it (SettingRoundTrip parses it back) |
| Settings.Setting.PromptOutcome | src/main/kotlin/proxyauth/conf/Setting.kt:50-67 | the prompt consumes at least one and at most all of the lines typed; running out of lines is the null-value error |
| Settings.Setting.PromptOutcomeMeaning | src/main/kotlin/proxyauth/conf/Setting.kt:50-67 | the prompt ends on the blank line it consumes last, and its value is the one present at the start or one a line read on the way parsed to |
| Settings.Setting.PromptRound | src/main/kotlin/proxyauth/conf/Setting.kt:50-67 | one round asks, reads one line, keeps the value on a blank line, or stores the parsed line |
| Settings.Setting.Prompt | src/main/kotlin/proxyauth/conf/Setting.kt:50-67 | the prompt loop ends as its outcome says: the value stored and exactly the lines consumed, or the null-value error with the console exhausted |
| Settings.SettingRoundTrip | src/main/kotlin/proxyauth/conf/Setting.kt:69-97 | a value that is in bounds, with the validator silent, is read back from its user string |
| Settings.IntegerScenario | src/test/kotlin/proxyauth/conf/SettingTest.kt:31-37 | an integer setting starts at 5, takes `3`, and shows `3` |
| Settings.InvalidScenarios | src/test/kotlin/proxyauth/conf/SettingTest.kt:40-53 | `Foo` is refused by the integer and the yes/no converters and the value is kept |
| Settings.Create | src/main/kotlin/proxyauth/conf/Setting.kt:88-90 | creating a setting fails exactly when its default is out of its bounds |
| Config.Index | src/main/kotlin/proxyauth/conf/Configuration.kt:128-144 | every key has a place in the table of all settings |
| Config.KeyNamed | src/main/kotlin/proxyauth/conf/Configuration.kt:146-161 | a file name is mapped to the key with that name, or to none when no key has it |
| Config.KeyNamedName | src/main/kotlin/proxyauth/conf/Configuration.kt:146-161 | each key is found by its own name |
| Config.NameInjective | src/main/kotlin/proxyauth/conf/Configuration.kt:43-121 | no two settings share a name |
| Config.KeysComplete | src/main/kotlin/proxyauth/conf/Configuration.kt:128-144 | the table of all settings holds every key |
| Config.KeysDistinct | src/main/kotlin/proxyauth/conf/Configuration.kt:128-144 | the table of all settings holds each key once |
| Config.SpecOf | src/main/kotlin/proxyauth/conf/Configuration.kt:109-121 | only the username, password and save-password settings are special |
| Config.DefaultsAdmissible | src/main/kotlin/proxyauth/conf/Configuration.kt:43-121 | every default fits its converter and its bounds, so building the settings never fails |
| Config.NumericBounds | src/main/kotlin/proxyauth/conf/Configuration.kt:43-121 | the buffer, request-limit and port bounds, and only integer settings have bounds |
| Config.LoadSourceAsWritten | src/main/kotlin/proxyauth/conf/Configuration.kt:146-151 | as written: a missing file fails to load, even when loading is optional |
| Config.OptionalLoadFailsAsWritten | src/main/kotlin/proxyauth/conf/Configuration.kt:146-151 | as written, an optional load of a missing file raises the reader's error |
| Config.LoadSource | src/main/kotlin/proxyauth/conf/Configuration.kt:146-151 | loading fails exactly when the file is missing and required; a missing optional file is an empty table |
| Config.LoadSourcesAgree | src/main/kotlin/proxyauth/conf/Configuration.kt:146-151 | the corrected loader differs from the code only on a missing optional file |
| Config.UsernameEntry | src/main/kotlin/proxyauth/conf/Configuration.kt:187-193 | a typed username is taken; a blank line keeps the current one, or gives the empty name |
| Config.ReadCredentials | src/main/kotlin/proxyauth/conf/Configuration.kt:186-200 | the credentials succeed exactly with two lines at the console, and store those two lines |
| Config.NewSettings | src/main/kotlin/proxyauth/conf/Configuration.kt:43-121 | one fresh, distinct setting is built per key, as its defaults say |
| Config.BuiltValid | src/main/kotlin/proxyauth/conf/Configuration.kt:43-144 | the built settings form a valid table of distinct objects |
| Config.LoadStart | src/main/kotlin/proxyauth/conf/Configuration.kt:153-160 | the merge invariant holds before any file entry is read |
| Config.LoadEnd | src/main/kotlin/proxyauth/conf/Configuration.kt:153-160 | after every entry, the discarded names are exactly those of no setting; the failed keys are exactly those whose text does not parse; every value is the merge of file and old value |
| Config.LoadDiscards | src/main/kotlin/proxyauth/conf/Configuration.kt:153-160 | a name no setting has is discarded and changes nothing |
| Config.LoadHands | src/main/kotlin/proxyauth/conf/Configuration.kt:153-160 | an entry for a setting updates only that setting, by its `setString` |
| Config.TableEntry | src/main/kotlin/proxyauth/conf/Configuration.kt:163-174 | every saved key appears under its name with its text |
| Config.TableName | src/main/kotlin/proxyauth/conf/Configuration.kt:163-174 | every name in the saved table belongs to a saved key |
| Config.PromptSkips | src/main/kotlin/proxyauth/conf/Configuration.kt:181-185 | a set setting, or a special one, is not prompted for without the wizard |
| Config.PromptAsks | src/main/kotlin/proxyauth/conf/Configuration.kt:181-185 | a missing ordinary setting, or any one under the wizard, is prompted for and then has a value |
| Config.PromptField | src/main/kotlin/proxyauth/conf/Configuration.kt:181-185 | prompting changes only the one setting, and succeeds exactly when its prompt does |
| Config.Configuration.constructor | src/main/kotlin/proxyauth/conf/Configuration.kt:43-144 | a new configuration holds the default setting for every key |
| Config.Configuration.LoadKey | src/main/kotlin/proxyauth/conf/Configuration.kt:153-160 | one file entry keeps the merge invariant |
| Config.Configuration.LoadKeys | src/main/kotlin/proxyauth/conf/Configuration.kt:153-160 | the loop over the file entries ends with the invariant over all of them |
| Config.Configuration.LoadTable | src/main/kotlin/proxyauth/conf/Configuration.kt:153-160 | each entry for a setting is applied with `setString`; unknown names are discarded and unparsable texts reported; nothing else changes |
| Config.Configuration.Load | src/main/kotlin/proxyauth/conf/Configuration.kt:146-161 | a required missing file fails and changes nothing; otherwise the table is merged as in LoadTable |
| Config.Configuration.NoBlocker | src/main/kotlin/proxyauth/conf/Configuration.kt:167-168 | when no key in the order raises, no key raises |
| Config.Configuration.Save | src/main/kotlin/proxyauth/conf/Configuration.kt:163-174 | saving raises exactly when a special setting has a value and save-password is unset; otherwise the table holds the saved entries |
| Config.Configuration.SaveTable | src/main/kotlin/proxyauth/conf/Configuration.kt:163-174 | the saved table holds exactly the set settings, leaving out the credentials unless save-password is yes, each under its name with its user string |
| Config.Configuration.CheckComplete | src/main/kotlin/proxyauth/conf/Configuration.kt:206-208 | the check passes exactly when every setting has a value, and names one without |
| Config.Configuration.PromptKey | src/main/kotlin/proxyauth/conf/Configuration.kt:181-185 | one step of the prompt loop keeps its invariant, or fails with a closed console |
| Config.Configuration.PromptSettings | src/main/kotlin/proxyauth/conf/Configuration.kt:181-185 | exactly the missing ordinary settings, or all ordinary ones under the wizard, are prompted for and set; the others are unchanged |
| Config.Configuration.ReadLogin | src/main/kotlin/proxyauth/conf/Configuration.kt:186-200 | the login reads two lines into username and password |
| Config.Configuration.AskCredentials | src/main/kotlin/proxyauth/conf/Configuration.kt:186-200 | the credentials need two console lines; only the special settings change, and save-password only when saving |
| Config.Configuration.Login | src/main/kotlin/proxyauth/conf/Configuration.kt:186-200 | the credentials are asked when the username or password is unset, or under the wizard; otherwise nothing changes; no ordinary setting changes |
| Config.Configuration.Converse | src/main/kotlin/proxyauth/conf/Configuration.kt:181-200 | the first pass prompts for exactly the unset ordinary settings, or all under the wizard; the others keep their values, and the credentials too unless Login asks |
| Config.Configuration.SaveIf | src/main/kotlin/proxyauth/conf/Configuration.kt:201 | with saving, the table Save writes of every setting, or its error; without, nothing is saved |
| Config.Configuration.Interact | src/main/kotlin/proxyauth/conf/Configuration.kt:179-203 | the two console passes, then the save, with the facts of Converse and SaveIf |
| Config.Configuration.LoadIf | src/main/kotlin/proxyauth/conf/Configuration.kt:178 | with loading the values become the merge of the optional file, else they stay |
| Config.Configuration.Complete | src/main/kotlin/proxyauth/conf/Configuration.kt:206-208 | `init` succeeds exactly when every setting has a value, else names one without, changing nothing |
| Config.Configuration.Init | src/main/kotlin/proxyauth/conf/Configuration.kt:176-209 | with loading the values become the merge of the file (a missing one being empty), else they stay; quiet mode neither asks nor reads nor saves and leaves the loaded values; otherwise exactly the ordinary settings unset after loading, or all of them under the wizard, are prompted for, the other ordinary ones keep their loaded values, and the credentials keep theirs unless one is unset or the wizard runs; a saved table is the one Save writes of the final values; success means every setting has a value, and a `NotSet` error names a setting without one |
| MainOptions.WordChars | src/main/kotlin/proxyauth/Main.kt:192-194 | dropping non-word characters never lengthens a text |
| MainOptions.CleanAlphabet | src/main/kotlin/proxyauth/Main.kt:192-194 | a cleaned option name holds only lower-case letters, digits and underscores |
| MainOptions.CleanIdempotent | src/main/kotlin/proxyauth/Main.kt:192-194 | cleaning twice is cleaning once |
| MainOptions.CleanSpellings | src/main/kotlin/proxyauth/Main.kt:192-194 | `/foo`, `--foo` and `foo` are the same option |
| MainOptions.CleanQueries | src/main/kotlin/proxyauth/Main.kt:192-194 | `/?` and `-?` clean to the empty name |
| MainOptions.FirstMatch | src/main/kotlin/proxyauth/Main.kt:106-125 | the first option from a position whose aliases hold the name, or none does |
| MainOptions.AliasesDisjoint | src/main/kotlin/proxyauth/Main.kt:150-168 | no name is an alias of two options |
| MainOptions.MatchIsUnique | src/main/kotlin/proxyauth/Main.kt:150-168 | a name selects the one option it is an alias of |
| MainOptions.QueryMeansHelp | src/main/kotlin/proxyauth/Main.kt:150-168 | `/?` and `-?` select help |
| MainOptions.HitsStep | src/main/kotlin/proxyauth/Main.kt:106-125 | each argument adds its own target to the options hit |
| MainOptions.UnrecognisedStep | src/main/kotlin/proxyauth/Main.kt:106-125 | an argument list is unrecognised once one argument matches no option |
| MainOptions.UnrecognisedSetsHelp | src/main/kotlin/proxyauth/Main.kt:106-125 | an unrecognised argument selects help |
| MainOptions.Switch.Set | src/main/kotlin/proxyauth/Main.kt:180-182 | setting an option marks it set, so setting it again changes nothing |
| MainOptions.Cli.constructor | src/main/kotlin/proxyauth/Main.kt:168 | the options start unset |
| MainOptions.Cli.Match | src/main/kotlin/proxyauth/Main.kt:106-125 | one argument is recognised exactly when some option has it as an alias, and then sets exactly that option; an unrecognised one sets nothing |
| MainOptions.Cli.ParseArgs | src/main/kotlin/proxyauth/Main.kt:106-125 | parsing reports an error exactly when some argument is unrecognised, and afterwards exactly the options hit are set |
| MainOptions.Cli.QuietOverridesWizard | src/main/kotlin/proxyauth/Main.kt:58-61 | the wizard stays on only if quiet is off |
| MainOptions.Cli.InitArguments | src/main/kotlin/proxyauth/Main.kt:73 | `init` loads unless reset, saves unless no-save, and passes the wizard and quiet flags |
| Echo.Action | src/main/kotlin/proxyauth/actions/EchoAction.kt:33-59 | the reply is 200 exactly for a request line starting `GET `, else 501; then every header line follows in order; the writer is closed; the result is the verdict |
| Echo.StatusLine | src/main/kotlin/proxyauth/actions/EchoAction.kt:37-54 | the two fixed replies open with their status lines, 200 for a GET and 501 otherwise |
| Echo.EchoInBody | src/main/kotlin/proxyauth/actions/EchoAction.kt:37-55 | each of the two fixed replies ends its head with the blank line at index 3, so the echoed lines are the body |
| Echo.GetExamples | src/main/kotlin/proxyauth/actions/EchoAction.kt:35-36 | examples: of `GET / HTTP/1.1`, `get / HTTP/1.1`, `GETX` and `POST / HTTP/1.1` only the first is a GET |
| EndToEnd.ReadThenWrite | src/main/kotlin/proxyauth/PassThrough.kt:60 | serialising the lines read from a plain ASCII block gives back the block with its terminator |
| EndToEnd.WriteThenRead | src/main/kotlin/proxyauth/ProxyRequest.kt:95 | reading back serialised ASCII lines gives the lines |
| EndToEnd.PlainRequest | src/main/kotlin/proxyauth/actions/ForwardRequest.kt:84-87 | a request without the rewritten headers is forwarded as is, plus the credential line and, with the rewrite, `Connection: Close` |
| EndToEnd.PlainResponse | src/main/kotlin/proxyauth/actions/ForwardRequest.kt:105-107 | a response without the rewritten headers is delivered as is, or with `Connection: Close` added |
| EndToEnd.Scenarios | src/test/kotlin/proxyauth/End2EndTest.kt:104-124 | the two scenarios' headers, with and without the keep-alive rewrite, come out as the tests expect |
| EndToEnd.TwoLinesRoundTrip | src/test/kotlin/proxyauth/End2EndTest.kt:104-124 | two printable lines sent as a header block are read back as sent |
| EndToEnd.ScenariosOnTheWire | src/test/kotlin/proxyauth/End2EndTest.kt:104-124 | the scenarios' bytes on the wire, as read, rewritten with and without `Connection: Close`, and serialised, are what the tests expect upstream and at the client |

## Left out

- Sockets, server sockets, threads and `join`: a socket is its incoming bytes plus how the read ends; a thread is the call to its body; the two pumps are run one after another, and `uploadReportsFirst` chooses the order of their reports (ErrorsAfterOrder shows the order does not matter).
- Timing: `System.currentTimeMillis`, the socket timeout's effect and the debug timings are not modelled; the timeout is recorded as an event.
- `available()` is a parameter, a function from the number of bytes read so far to the number waiting.
- Logging and debug printing (`debug`, `println` of diagnostics) are left out.
- `ForwardAction` and the `Action` interface are not part of this model; `ProxyRequest.Run` takes the action's outcome (returned true or false, or raised) as a parameter.
- `exitProcess(5)` is the outcome `ExitProcess(5)` of `Go`, not a process exit.
- The console is a queue of lines; the prompt text, each setting's description and the help text are left out; a closed console is the null-value error.
- The `LISTEN_ADDRESS` validator (`InetAddress` and a test bind) and `System.getenv("USERNAME")` are parameters of the configuration's constructor.
- The properties file is a `map<string, string>`, absent when the file is missing; reading and writing `.properties` syntax is left out.
- Config.Configuration.Save: the source iterates over a `HashMap`, whose order is unspecified; the model takes the order as a parameter, and SaveTable shows the saved table is the same for every order.
- Config.Configuration.CheckComplete: the final check also iterates over that `HashMap`; the model checks in the declared order, so which unset setting a `NotSet` error names is fixed here and unspecified in the source.
- Config.Configuration.PromptSettings: `init` prompts while iterating over the same `HashMap`; the model prompts in the declared order of the settings, so which console line answers which setting is fixed here and unspecified in the source.
- Converters.ParseInt: accepts ASCII digits only; `String.toInt()` on the JVM also accepts digits of other Unicode scripts.
- Text.Lower: `lowercase()` is modelled for ASCII letters and the two Unicode characters whose lower case is ASCII (KELVIN SIGN, U+0130); other non-ASCII characters are kept as they are.
- Echo.Action: the writer is modelled line by line; the platform line separator `println` writes is not modelled.
- Listener.ProxyListener.Run: the `wait()` while the limit is reached is modelled as connections left waiting (`waiting`) until a report frees room; the outside steps are fixed before `run`, so a request started during `run` cannot report during it.
- Exceptions raised by `Properties.load` inside the `.properties` reader are left out.
- Pumps.PassThrough.Run: an exception thrown by `os.close()` or `inputStream.close()` inside the SocketException handler is not modelled; those closes always succeed.
- Config.Configuration.Init: loads through the corrected LoadSource; as written (src/main/kotlin/proxyauth/conf/Configuration.kt:151) `init` with loading and no configuration file raises the reader's `FileNotFoundException` instead (see Findings).

## Findings

| source | as written | input that shows it | evidently intended | confidence | as-written member | corrected member |
|---|---|---|---|---|---|---|
| src/main/kotlin/proxyauth/conf/Configuration.kt:146-151 | `load(required = false)` only skips the missing-file error; it still opens the file, and `FileReader` on a missing file raises | a first run with no `proxyauth.properties` and no reset option, so `init` calls `load(false)` | an optional load of a missing file loads nothing and carries on | medium, not executed | Config.OptionalLoadFailsAsWritten | Config.LoadSource |
