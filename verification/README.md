# A verified model of the MCP host and the netops server

The repository is a hand-written Model Context Protocol stack: a host that launches or
calls MCP servers, an agent loop over a language model, and `netops`, a support server for
an internet provider that is reached over stdio or over Streamable HTTP. This project models
the parts that keep state under threads, crashes and long runs, and proves what they
promise. Every file is Dafny; `dafny verify dfyconfig.toml` checks all of it.

## What is modelled

**Concurrent client.** `FutureLedger` is the bookkeeping behind `MCPClient._pending`: who may
complete a Future. `ClientProtocol` interleaves any number of callers, one reader, any number
of `close()` calls, timeouts and a FIFO inbox with an end marker; each step is what one thread
does between two points where another may run. `ClientInvariant` is the inductive invariant
over all interleavings, `ClientTheorems` what follows from it, including where a promise
stops, and `ClientReleases` exactly which waiting calls are released, and by whom.
`McpClient` is the same table as an object with a heap of Futures, each method run
without interruption. `Connect` is the handshake seen from the client, and `EndToEnd` joins
the client, in any interleaving, to one run of the server.

**Transports.** `HttpTransport` and `StdioTransport` are the two transport objects: a retry
loop, learned headers, an inbox whose end marker is put back. `HttpClientServer` lets the HTTP
transport talk to the HTTP adapter.

**Server.** `Protocol` is the handshake automaton and the error mapping as functions,
`ServerRuns` and `ServerWire` what they do over whole message traces and over the stdio
stream, `NetopsSession` the session object over the shared store object. `SessionTable` is
the bounded table with oldest-first eviction, `HttpAdapter` the endpoint as a function and its
simulation of stdio, `HttpInterleaved` that simulation for one session among other clients,
`HttpEndpoint` the registry object and the endpoint method.
`NetopsCore` and `ToolCalls` are the seven tools, their schemas, handlers and dispatch;
`SchemaMeanings` is what the validator accepts, told over plain values, and exactly which
arguments each tool takes; `ToolReadings` and `ToolAnswers` are what each tool answers, told
by the arguments, the seed and the store; `ToolStories` is what the tools promise each other
and the model that calls them.
`TicketStore`, `StoreFile`, `CrashSafety` and `NetopsStore` are the ticket store: its
invariant, its file, saving with crashes between any two steps, and the object.

**Data paths.** `JsonText` is `json.dumps` and `json.loads`; `JsonRpc` the envelopes; `Ndjson`
the framing; `Validation` the schema subset; `McpLogger` the session log; `Agent`,
`Conversation`, `OpenAi` and `OpenAiReply` the agent loop and the OpenAI dialect;
`Sequences` says by positions what a filter, a join and a strip give back;
`ToolRegistry` the namespaced tools; `Dashboard` the visible part of the transcript.

Code that changes state step by step is a class with those fields, or a method with a loop,
proved equal to a function; what is promised is then proved about the function. Code made of
expressions is functions and lemmas.

## Where the code does less than it seems to

- Over stdio, a second `close()` that passes the closed check while the first is shutting the
  process down skips the transport and sweeps early. It joins the reader, but when the reader
  has gone already or the join times out it finishes while sends still go through, and a call
  can then wait for its timeout (`ClientTheorems.RacingCloses`; exactly which states allow it:
  `ClientReleases.StrandingIff`). Over HTTP it cannot (`ClientTheorems.FinishedCloseCanStrand`).
- The reader fails what is pending when it ends, and only that. A server that ends its output
  but keeps reading leaves every later request without an answer until it times out or
  `close()` sweeps (`ClientTheorems.EofBeforeRequest`); the calls released are exactly those
  that had registered before the sweep (`ClientReleases.AfterTheReaderIff`).
- `_body_of` says that any non-2xx other than 202 is raised. A non-2xx answer is raised exactly
  when it has a body and is 400 or above or carries no JSON object
  (`HttpTransports.FailureIsRaisedIff`): an error without a body passes for an answer that owes
  nothing (`HttpTransports.EmptyErrorIsSilent`), and a redirect with an object for a body
  passes for the answer itself (`HttpTransports.RedirectIsEnqueued`).
- An HTTP body that arrives after `close()` lands behind the end marker, so the stream goes on
  after its end (`HttpTransports.LateBodyReopensTheStream`, `HttpTransports.EndIsStickyIff`).
- A reply echoes an ill-typed raw id, and no peer accepts that reply
  (`ServerRuns.ReplyDiscipline`, `JsonRpc.ParseOfBuildErrorFrom`).
- A second `initialize` and a body that is no object are answered differently on the two
  transports (`HttpAdapter.SecondInitializeDiffers`, `HttpAdapter.NonObjectDiffers`).
- An id used again while it is in flight can make the log forget the earlier request. Durations
  and methods are those of the right requests exactly when no response that follows another
  one comes while a request with its id is still in flight (`McpLoggers.AttachedIsLatestIff`,
  `McpLoggers.ReusedIdIsForgotten`).
- `connect_all` stops at an `McpError` or at a tool definition that is no dict
  (`ToolRegistry.OneBadServerStopsTheRestIff`), and overlapping server names misroute calls
  (`ToolRegistry.ClashIff`, `ToolRegistry.OverlappingNamesMisroute`).
- A model answer that calls tools without the stop reason `tool_use`, or a tool call that
  raises, leaves calls without results (`Agents.TurnIsOrderlyIff`, `Agents.EndsWellIff`).
- `close_all` stops at the first client whose `close()` raises
  (`ToolRegistry.ServerRegistry.CloseAll`).

## Model

| member | source | states |
|---|---|---|
| JsonText.LoadsInvertsDumps | host/mcp/jsonrpc.py:184-215 | `json.loads` of `json.dumps` is the same value, for every value and each of the three layouts the repository writes |
| JsonText.ParseCharsOfEmit | host/mcp/jsonrpc.py:190 | string escaping (section 7 of RFC 8259) is undone by the parser, character by character |
| Ndjson.EmitOnOneLine | host/mcp/jsonrpc.py:184-193 | an encoded message holds no raw CR or LF, so the defensive error in `encode` is never raised |
| Ndjson.DecodeInvertsEncode | host/mcp/jsonrpc.py:184-215 | `decode` gives back the encoded object, behind any number of byte order marks (section 8.1 of RFC 8259) |
| Ndjson.DecodeReads | host/mcp/jsonrpc.py:196-215 | any line decodes exactly when its text, without the blanks around it and the byte order marks in front, is JSON text of an object, and then to that object |
| Ndjson.StreamRoundTrip | host/mcp/stdio_transport.py:148-152 | every sequence of messages, one to a line, is split on CR or LF and decoded into the same sequence |
| JsonRpc.ParseAcceptsExactly | host/mcp/jsonrpc.py:223-285 | `parse_message` accepts exactly the four shapes of sections 4, 4.1, 5 and 5.1 of JSON-RPC 2.0, each as what it is, and answers everything else with -32600 |
| JsonRpc.ParseInvertsBuildRequest | host/mcp/jsonrpc.py:135-141 | a built request parses exactly when its method is not empty and its params are a dict or a list, and then to what it was built from |
| JsonRpc.ParseInvertsBuildNotification | host/mcp/jsonrpc.py:144-148 | a built notification parses to itself and to no request |
| JsonRpc.ParseInvertsBuildResponse | host/mcp/jsonrpc.py:151-152 | a built response parses to a success with its id and result |
| JsonRpc.ParseInvertsBuildError | host/mcp/jsonrpc.py:155-172 | a built error parses to a failure with its id or null, its code, its message or the default one, and its data |
| JsonRpc.ParseOfBuildErrorFrom | host/mcp/jsonrpc.py:175-176 | an error reply is accepted if and only if the raw id it echoes is null, an int or a string |
| FutureLedger.CompleteKeeps | host/mcp/client.py:160-176 | completing a Future just seen not done never meets a done one, although the test is outside the lock, and brings its holder closer to the end |
| FutureLedger.TakeKeeps | host/mcp/client.py:160-176 | removal from the pending table hands a Future to exactly one owner |
| FutureLedger.DropKeeps | host/mcp/client.py:195-204 | a caller removing its own id keeps the ownership invariant |
| McpClients.McpClient.Register | host/mcp/client.py:188-191 | a fresh id and an unset Future are registered, and nothing else changes |
| McpClients.McpClient.Unregister | host/mcp/client.py:195-204 | after a caller gives up its id is not pending |
| McpClients.McpClient.Resolve | host/mcp/client.py:160-168 | a response completes the Future of its id and no other; an unknown or null id completes nobody |
| McpClients.McpClient.FailAllPending | host/mcp/client.py:170-176 | everything pending is completed with the error, by this actor, nothing else changes, and nothing is pending any more |
| McpClients.McpClient.FailOne | host/mcp/client.py:174-176 | one Future of a sweep: the done test outside the lock passes and the Future is set once |
| ClientInvariant.NextKeeps | host/mcp/client.py:121-207 | every step of every thread keeps the invariant |
| ClientInvariant.ReachableInv | host/mcp/client.py:121-258 | the invariant holds after every interleaving, on either transport |
| ClientTheorems.CompletionIsOwned | host/mcp/client.py:160-207 | in every interleaving no Future is set twice, it is set only by the actor that took its id out, and a call that has returned by any route has no id pending |
| ClientTheorems.CompletedOnce | host/mcp/client.py:160-176 | a completed Future keeps its outcome and its completer through everything that follows |
| ClientTheorems.HolderDrains | host/mcp/client.py:170-176 | whoever took Futures out can complete them all alone, whatever the others do |
| ClientTheorems.CloseReleasesEveryone | host/mcp/client.py:250-258 | once a `close()` has finished (over stdio: once no other is shutting down) nobody is left to wait out a timeout, and no registered request can still be sent |
| ClientTheorems.SealedReleases | host/mcp/client.py:185-198 | after a sweep that followed the transport's close, every waiting call can collect an outcome by completion steps alone |
| ClientTheorems.FinishedCloseCanStrand | host/mcp/client.py:250-258 | a finished `close()` can leave a call stranded if and only if the transport is stdio |
| ClientTheorems.RacingCloses | host/mcp/client.py:250-258 | a run of two racing `close()` calls over stdio, the reader gone before, in which the second skips the transport, sweeps, has nothing to join and returns, and a call is then stranded |
| ClientTheorems.AnswerIsNotLost | host/mcp/client.py:188-201 | a response to an outstanding id always finds it registered: its three next steps complete that very Future |
| ClientTheorems.OutcomeWasDelivered | host/mcp/client.py:188-201 | what a call returns as the server's answer came in a delivered response with its own id, and the request sent under that id is its own |
| ClientTheorems.IdsAreUnique | host/mcp/client.py:113-115 | no two calls ever use one id |
| ClientTheorems.EofBeforeRequest | host/mcp/client.py:125-143 | a run in which the reader is gone before a request is sent, and the request waits |
| ClientTheorems.OrphanStaysUnset | host/mcp/client.py:125-143 | such a request gets no outcome, whatever happens, until a `close()` sweeps |
| ClientReleases.ReleasableIff | host/mcp/client.py:160-207 | in every reachable state a waiting call can be released by completion steps alone if and only if its id is no longer pending |
| ClientReleases.SweepReleasesAll | host/mcp/client.py:140-143 | after the reader's sweep, and after a `close()`'s, every waiting call can be released by completion steps alone |
| ClientReleases.AfterTheReaderIff | host/mcp/client.py:125-143 | once the reader has ended, a waiting call is released by completion steps if and only if it had registered before the last sweep |
| ClientReleases.AfterTheReadersSweepIff | host/mcp/client.py:125-143 | whatever happens after the reader's sweep, as long as no `close()` sweeps: once the reader has ended, a waiting call is released if and only if it had registered before that sweep |
| ClientReleases.StrandingIff | host/mcp/client.py:250-258 | after a finished `close()` some call can still come to be stranded if and only if some call now waits on a pending id, or has passed the closed check while sends go through |
| ClientReleases.SealedExposesNobody | host/mcp/client.py:250-258 | after a sweep that followed the transport's close there is no such call; over HTTP, and over stdio once no other `close()` is shutting down, every finished `close()` has made one |
| EndToEnd.EachCallerGetsItsOwnAnswer | host/mcp/client.py:178-207 | against one run of the netops engine, which takes the requests of any number of concurrent callers in any order, what a caller returns or raises is what the engine did with that caller's own method and params, at a line of that run that is its request and in the state the run had reached there |
| EndToEnd.TheAnswerIsTheOnlyOne | host/mcp/client.py:178-207 | when no request is taken twice there is one such line, so every caller gets the engine's only answer |
| EndToEnd.ReplyNamesItsRequest | servers/netops/protocol.py:133-143 | the reader finds in every reply the id of the request it answers |
| Connect.ClientSession.Finish | host/mcp/client.py:232-248 | the session becomes initialized exactly when the result names a supported version and the notification goes out, and runs on that version; a result that names none of them closes the session and sends nothing |
| Connect.ParamsShow | host/mcp/client.py:221-230 | the initialize request asks for the client's version, no capabilities, and says who the client is |
| Connect.ConnectCompletesTheHandshake | host/mcp/client.py:214-248 | connecting to this server with any requested version ends with the client accepting and the server's session initialized, its store untouched |
| HttpTransports.HttpTransport.Post | host/mcp/http_transport.py:165-188 | the first HTTP answer within retries + 1 attempts is returned, and an answered POST is never repeated |
| HttpTransports.HttpTransport.Send | host/mcp/http_transport.py:148-163 | a send raises, learns and enqueues exactly as the function of the answer says; a refused body teaches nothing |
| HttpTransports.HttpTransport.Learn | host/mcp/http_transport.py:132-144 | only the answer to an initialize changes the session id and the version |
| HttpTransports.HttpTransport.Receive | host/mcp/http_transport.py:230-236 | the head of the inbox, with the end marker put back |
| HttpTransports.HttpTransport.Close | host/mcp/http_transport.py:102-112 | the first close sets the flag and puts one end marker, later ones nothing |
| HttpTransports.FailureIsRaisedIff | host/mcp/http_transport.py:190-216 | for every status outside 200 to 299: the send raises if and only if the answer has a body and is 400 or above or carries no JSON object, and then nothing changes; otherwise nothing, or the object, is enqueued |
| HttpTransports.RedirectIsEnqueued | host/mcp/http_transport.py:190-216 | a 302 with an object for a body is enqueued as the answer |
| HttpTransports.EmptyErrorIsSilent | host/mcp/http_transport.py:198-199 | a 500 without a body is no error and enqueues nothing |
| HttpTransports.SuccessIsEnqueuedIff | host/mcp/http_transport.py:190-216 | a 2xx answer: 202 and an empty body owe nothing, a JSON object is enqueued, and anything else is raised and changes nothing |
| HttpTransports.NextMessageClaims | host/mcp/http_transport.py:116-144 | after an initialize answered with a session id and a version every message names that session, and every one but another initialize claims that version |
| HttpTransports.EndIsStickyIff | host/mcp/http_transport.py:230-236 | `receive` returns None for ever if and only if nothing but end markers is in the inbox |
| HttpTransports.LateBodyReopensTheStream | host/mcp/http_transport.py:152-163 | whatever the inbox holds: a body enqueued after `close()` is received after the end of the stream; enqueued before it, the end is final |
| HttpClientServer.HttpClientReadsStdio | host/mcp/http_transport.py:116-163 | a client that initializes once finds in its inbox, over HTTP, exactly the messages a stdio server would write, in order: the headers it learns are the ones the server asks for |
| StdioTransports.StdioTransport.ReadLoop | host/mcp/stdio_transport.py:144-161 | the inbox gains every decodable line in order and then the end marker; blank and unreadable lines put nothing |
| StdioTransports.StdioTransport.Send | host/mcp/stdio_transport.py:187-202 | one encoded line reaches stdin, or the send raises and nothing changes |
| StdioTransports.StdioTransport.Close | host/mcp/stdio_transport.py:206-244 | the process is gone and one end marker is put, once |
| StdioTransports.StdioTransport.Receive | host/mcp/stdio_transport.py:177-183 | the head of the inbox, with the end marker put back |
| StdioTransports.PipeDelivers | host/mcp/stdio_transport.py:144-161 | what a peer writes as messages arrives as those messages and nothing else, in order |
| ServerRuns.InitializedIff | servers/netops/protocol.py:57-113 | after any trace the session is initialized if and only if some valid initialize request comes strictly before some `notifications/initialized` |
| ServerRuns.SessionOnlyGrows | servers/netops/protocol.py:57-113 | neither handshake flag is ever cleared |
| ServerRuns.NoHandshakeNoStore | servers/netops/protocol.py:92-101 | a trace without a completed handshake leaves the store as it was |
| ServerRuns.StepSession | servers/netops/protocol.py:103-143 | one message sets a flag only when it is the message for that flag, and reaches the store only as `tools/call` on an initialized session |
| ServerRuns.DispatchSession | servers/netops/protocol.py:81-101 | before the handshake `tools/list` and `tools/call` are refused |
| ServerRuns.TraceKeepsStore | servers/netops/protocol.py:117-143 | any message trace keeps the store invariant and loses no ticket, history or visit |
| ServerRuns.ReplyDiscipline | servers/netops/protocol.py:117-156 | a message is answered exactly when an answer is due (sections 4, 4.1 and 5 of JSON-RPC 2.0), with the due id and exactly one of result and error; a peer accepts the reply if and only if that id is null, an int or a string |
| ServerRuns.ReplyIsRead | servers/netops/protocol.py:133-143 | a peer parses the reply back into the outcome it was made of |
| ServerRuns.OutputsAnswerDues | servers/netops/protocol.py:117-156 | over any trace the outputs answer what is due, one each, in order |
| ServerWire.NoInternalErrors | servers/netops/protocol.py:133-143 | with a sound seed, a readable clock and saves that do not fail, no message whatever is answered with -32603: the code in an error reply is one of the four others, also where the echoed id is one that no peer accepts |
| ServerWire.OutputsWellFormed | servers/netops/protocol.py:117-156 | everything the server writes can be encoded and read back |
| ServerWire.StdioExchange | servers/netops/stdio_server.py:48-54 | a client that writes messages and reads the server's stream gets one answer for each message that needs one, in order, ids echoed |
| NetopsSessions.NetopsSession.HandleMessage | servers/netops/protocol.py:117-143 | the session object replies and changes as the engine function says, and the file is the new state exactly when the store changed and the save succeeded |
| NetopsSessions.NetopsSession.Dispatch | servers/netops/protocol.py:81-95 | the method table on the session object and the shared store |
| ToolAnswers.CallIsReported | servers/netops/core.py:509-515 | on an initialized session a `tools/call` is a result exactly when the handler gives a payload or a domain failure, with `isError` true exactly for the failure and the payload as its one text; the model's result block is an error exactly for the failure; everything else is a JSON-RPC error |
| ToolAnswers.MethodTable | servers/netops/protocol.py:75-101 | what each method does: `ping` answers {}, `tools/list` the listed tools once initialized, `initialize` its result and one flag; -32600 before the handshake, -32602 without a usable tool name, -32601 for any other method |
| ToolAnswers.InitializeShows | servers/netops/protocol.py:62-73 | `initialize` answers protocol version 2025-11-25, the tools capability without `listChanged`, and the server's name and version |
| NetopsSessions.NetopsSession.HandleNotification | servers/netops/protocol.py:103-113 | the notification confirms a handshake and cannot start one |
| NetopsSessions.NetopsSession.CallOn | servers/netops/core.py:495-515 | a tool call on the store object: unknown tool, violation, or the handler |
| NetopsSessions.OpenTicketOn | servers/netops/core.py:397-412 | `open_ticket` on the store object, with every failing path and the failing save |
| NetopsSessions.ScheduleVisitOn | servers/netops/core.py:427-463 | `schedule_visit` on the store object, with every failing path and the failing save |
| ToolAnswers.ScheduleIsDecidedByTheDate | servers/netops/core.py:436-463 | for an existing ticket: a payload exactly for a real date that is not before today and a save that succeeds, a domain failure exactly for a date before today, -32602 exactly for what is no date |
| ToolAnswers.RefusedVisit | servers/netops/core.py:436-452 | a refusal leaves the store as it was and names the ticket and the earliest day, or the field `date` |
| ToolAnswers.BookedVisit | servers/netops/core.py:454-463 | a booked visit has this ticket, its account, this date and this window; the ticket gains one history entry, no other ticket or visit changes, and `rescheduled` says whether a visit was there before |
| ToolAnswers.NoTicketNoVisit | servers/netops/core.py:427-434 | an unknown ticket is a domain failure that names it, whatever the date, and nothing is booked |
| SessionTable.EvictionTakesTheEarliest | servers/netops/http_server.py:96-107 | over any run with fresh ids the table keeps within its cap, and what it would evict was created before every other live session |
| SessionTable.CreateTakesTheOldest | servers/netops/http_server.py:96-107 | a full table gives up exactly its first entry and every other session keeps its value |
| SessionTable.SurvivesLaterCreations | servers/netops/http_server.py:90-123 | a session not deleted is still found after at least `max_sessions` - 1 later creations, whatever else happens |
| SessionTable.WithoutDeletesTheLastStay | servers/netops/http_server.py:90-123 | and no longer than that: without deletes the live sessions are exactly the last `max_sessions` created |
| HttpEndpoint.SessionRegistry.CreateSession | servers/netops/http_server.py:96-107 | a new session object in the table, the oldest one gone if it was full, the others the same objects |
| HttpEndpoint.SessionRegistry.GetSession | servers/netops/http_server.py:109-113 | the live session with this id, none for a missing or empty id |
| HttpEndpoint.SessionRegistry.DropSession | servers/netops/http_server.py:115-119 | the session is gone, and the answer says whether it was there |
| HttpEndpoint.Mcp | servers/netops/http_server.py:165-217 | the POST endpoint on the registry, session and store objects does what the endpoint function says |
| HttpEndpoint.EndSession | servers/netops/http_server.py:219-223 | the DELETE endpoint does what the endpoint function says |
| HttpAdapter.HttpIsStdio | servers/netops/http_server.py:165-217 | at every position of a conversation that initializes once, the HTTP body is the reply stdio writes, 200 where there is one and 202 exactly where none is owed |
| HttpInterleaved.InterleavedIsStdio | servers/netops/http_server.py:165-223 | among any requests of other clients, their sessions and deletes, over one store: as long as a session is neither deleted nor evicted, every message delivered to it is answered as a stdio session that got exactly its messages answers, 202 exactly where none is owed |
| HttpInterleaved.SessionIsStdio | servers/netops/http_server.py:165-223 | and after every request of such a run the session is live and in the state of that stdio session |
| HttpAdapter.StepMirrors | servers/netops/http_server.py:198-217 | one message over HTTP keeps its session in step with a stdio session |
| HttpAdapter.StartMirrors | servers/netops/http_server.py:193-217 | an initialize over HTTP replies as on stdio and leaves the new session in step with it |
| HttpAdapter.OthersLeaveItAlone | servers/netops/http_server.py:165-223 | a request for another session leaves this one's handshake as it was, and removes it exactly when it is the oldest of a full table and another session starts |
| HttpAdapter.StatusTells | servers/netops/http_server.py:165-217 | 400 exactly for a body or version the server cannot take, 404 exactly for a session that is not live, 200 exactly where an answer is owed, 202 exactly where none is; a refusal changes nothing |
| HttpAdapter.RefusalsSay | servers/netops/http_server.py:167-213 | a refusal is -32700 for a body that is no JSON and -32600 otherwise, with the id of the message wherever there is one |
| HttpAdapter.DeletedIsUnknown | servers/netops/http_server.py:219-223 | 204 exactly for a live session, and after a delete its id is a 404 |
| HttpAdapter.HandleKeepsOk | servers/netops/http_server.py:165-223 | one request keeps the table and store sound, and only an initialized session reaches the store |
| HttpAdapter.HttpRunsKeepOk | servers/netops/http_server.py:165-223 | so does any run of requests, and nothing recorded is lost |
| HttpAdapter.SecondInitializeDiffers | servers/netops/http_server.py:193-197 | a second initialize is answered the same on both transports, keeps the session on stdio and starts an uninitialized one over HTTP |
| HttpAdapter.NonObjectDiffers | servers/netops/http_server.py:174-177 | JSON that is no object is -32700 on stdio and -32600 over HTTP, with id null on both |
| Validation.CheckIsFirstViolation | servers/netops/validation.py:48-101 | the checker that stops at the first failure reports the first of all violations in traversal order |
| Validation.NoViolationMeansConforms | servers/netops/validation.py:48-101 | there is no violation exactly when the value has the meaning of the schema |
| Validation.ValidatorIsExact | servers/netops/validation.py:104-116 | arguments are accepted, unchanged, exactly when they conform; otherwise -32602 with the first violation as `data.field` |
| Validation.RequireOneOfIsExclusive | servers/netops/validation.py:119-134 | the name returned is supplied and the other is not; otherwise -32602 |
| Validation.TypesSplitTheValues | servers/netops/validation.py:33-41 | every value but null has exactly one of the five basic types, an integer is a number, and a bool is neither |
| SchemaMeanings.KeywordsMean | servers/netops/validation.py:48-78 | what the keywords of one schema ask of a value, over plain strings and numbers: type, enum, lengths, pattern and bounds |
| SchemaMeanings.SchemaMeans | servers/netops/validation.py:48-101 | a value conforms exactly when it satisfies its keywords, its items conform to the item schema, its required members are there, a closed schema describes all its members, and each described member conforms |
| SchemaMeanings.ArgumentsMean | servers/netops/validation.py:104-116 | arguments are accepted as they are exactly when they are a dict, or null for an empty one, whose members fit; otherwise -32602 |
| SchemaMeanings.LengthIsJudged | servers/netops/validation.py:58-65 | a text under minLength lo and maxLength hi is accepted if and only if it has lo to hi characters |
| SchemaMeanings.RangeIsJudged | servers/netops/validation.py:70-76 | an integer under minimum lo and maximum hi is accepted if and only if it is from lo to hi |
| SchemaMeanings.EnumIsJudged | servers/netops/validation.py:54-56 | a text under an enum of texts is accepted if and only if it is listed |
| SchemaMeanings.PatternIsJudged | servers/netops/validation.py:66-68 | a text under a pattern is accepted if and only if the pattern matches it |
| SchemaMeanings.ToolsTakeExactly | servers/netops/core.py:68-225 | exactly which arguments each of the seven tools takes, and which handler they then reach; anything else is -32602 and leaves the store as it was |
| ToolCalls.ToolsNeverFailInternally | servers/netops/core.py:495-515 | any tool name with any arguments ends in a result or in -32602, with a sound seed and a save that does not fail |
| ToolCalls.UnknownToolIsToldWhichThereAre | servers/netops/core.py:501-507 | an unknown tool is refused with -32602 and the names of all tools there are and no other, in ascending order; the store is untouched |
| ToolCalls.SortedSorts | servers/netops/core.py:506 | the sorted list is ascending and holds each name as often as before |
| ToolCalls.SchemaIsOk | servers/netops/core.py:68-225 | the seven advertised schemas are what the validator relies on |
| ToolCalls.HandleIsOneOperation | servers/netops/core.py:468-476 | only `open_ticket` and `schedule_visit` change the store, each by one store operation |
| ToolCalls.CallKeepsStore | servers/netops/core.py:495-515 | after any call, also one whose save fails, the store invariant holds and nothing is lost |
| ToolCalls.LookupIsHandled | servers/netops/core.py:280-288 | `lookup_account` on valid arguments ends in a result or -32602 |
| ToolCalls.StatusIsHandled | servers/netops/core.py:291-331 | `check_service_status` on valid arguments ends in a result |
| ToolCalls.OutagesAreHandled | servers/netops/core.py:334-343 | `list_outages` on valid arguments ends in a result |
| ToolCalls.DiagnosticIsHandled | servers/netops/core.py:346-394 | `run_diagnostic` on valid arguments ends in a result when no plan has speed zero |
| ToolCalls.OpenIsHandled | servers/netops/core.py:397-412 | `open_ticket` on valid arguments ends in a result when the save succeeds |
| ToolCalls.GetIsHandled | servers/netops/core.py:415-424 | `get_ticket` on valid arguments ends in a result |
| ToolCalls.ScheduleIsHandled | servers/netops/core.py:427-463 | `schedule_visit` on valid arguments ends in a result or -32602 when the save succeeds and the clock reads a date |
| ToolCalls.OpenedTicketStaysReadable | servers/netops/core.py:397-424 | the id `open_ticket` returned finds that ticket with `get_ticket` after any further run of the store, with at most more history |
| ToolReadings.LookupShows | servers/netops/core.py:280-288 | with exactly one of id and phone, the account that has it is shown, and a domain failure names what was asked for when there is none; both or neither is -32602 |
| ToolReadings.AccountIsShown | servers/netops/core.py:235-250 | an account is shown with each of its members, and a suspension reason exactly if it has one |
| ToolReadings.MetricsAre | servers/netops/core.py:264-277 | each metric is its own reading of the account's hash, in its own range, and throughput is that percentage of the plan |
| ToolReadings.LinkStateIs | servers/netops/core.py:296-322 | for which account status, outage and packet loss each link state and reason is given, exactly |
| ToolReadings.StatusShows | servers/netops/core.py:291-331 | an account of the seed is reported with its members, link state and metrics, and with the first outage that hits it exactly when that is the reason; any other id is a domain failure |
| ToolReadings.OutagesShow | servers/netops/core.py:334-343 | `list_outages` gives the outages of the region asked for, only the active ones unless told otherwise, all of them, in the order of the seed, and their number |
| ToolReadings.ReadingsAre | servers/netops/core.py:364-387 | each test reads its own metrics; only the speed test of a plan of zero raises |
| ToolReadings.CauseIs | servers/netops/core.py:352-363 | the probable cause of a line in service: the first outage that hits it, else the loss, else the noise, else none |
| ToolReadings.DiagnosticShows | servers/netops/core.py:346-394 | an account of the seed is diagnosed with its test's readings and its cause; any other id is a domain failure |
| ToolReadings.OpenIsDecidedByTheAccount | servers/netops/core.py:397-412 | for an account of the seed the next ticket is opened as asked, with one history entry, and nothing else changes; any other id is a domain failure and changes nothing |
| ToolReadings.GetShows | servers/netops/core.py:415-424 | a ticket is shown member by member and entry by entry as it is stored, with its visit as stored exactly if it has one; an unknown id is a domain failure |
| ToolStories.LoadSeed | servers/netops/store.py:84-88 | both tables index the accounts of the seed, the last one winning |
| ToolStories.LookupFindsWhatWasAsked | servers/netops/core.py:280-288 | `lookup_account` shows an account of the seed with the id asked for in any spelling, or with the same phone digits |
| ToolStories.MatchingIsExact | servers/netops/store.py:134-140 | `find_outages` keeps exactly the outages of the region and state asked for |
| ToolStories.ReportedOutageIsListed | servers/netops/store.py:142-145 | an outage a service check reports is active, of the account's region, and among those `list_outages` lists |
| ToolStories.StatusAndDiagnosticAgree | servers/netops/core.py:291-363 | `check_service_status` and `run_diagnostic` name the same administrative cause |
| ToolStories.StatusAndDiagnosticAgreeOnTheLine | servers/netops/core.py:291-363 | and the same outage or the same packet loss |
| ToolStories.OpenAnswersTheTicket | servers/netops/core.py:397-412 | what `open_ticket` answers is the ticket the store now holds, with the arguments given |
| ToolStories.TicketShowsItsVisit | servers/netops/core.py:415-424 | `get_ticket` shows a visit exactly when the ticket it shows is scheduled |
| ToolStories.ListedIffCallable | servers/netops/core.py:491-508 | `tools/list` advertises exactly the names `tools/call` knows |
| ToolStories.CallsMeetTheListedSchema | servers/netops/core.py:495-515 | a call is judged by the very schema that is advertised for its name |
| ToolStories.OutcomeReachesTheModel | host/agent.py:57-97 | a text result reaches the model as its text, marked as an error exactly as the result is |
| TicketStore.TicketIdReads | servers/netops/store.py:158 | a ticket id is TCK- and the counter, zero padded to five digits and longer past 99999 |
| TicketStore.TicketIdIsInjective | servers/netops/store.py:158 | ticket ids are injective for every counter value, also past 99999 |
| TicketStore.RunsKeepOk | servers/netops/store.py:149-208 | after any run: ids are exactly those the counter reached, every visit belongs to a ticket and copies its account, a visit exists iff the status is `scheduled`, and the last history entry agrees with status and `updated_at` |
| TicketStore.HistoryOnlyGrows | servers/netops/store.py:149-208 | no ticket loses history, no visit goes away, and the next id is one no earlier ticket had |
| TicketStore.ApplyExtends | servers/netops/store.py:149-208 | one operation keeps the invariant and takes nothing back |
| StoreFile.LoadInvertsSave | servers/netops/store.py:90-123 | loading the file a save wrote restores exactly the saved state, and that file is never corrupt |
| StoreFile.StateIsInjective | servers/netops/store.py:103-123 | two states with the same file contents are the same state |
| CrashSafety.Durability | servers/netops/store.py:103-123 | with a crash allowed between any two steps, the file is always the snapshot of the last completed save, never torn, and holds every acknowledged ticket and visit |
| CrashSafety.RestartRestores | servers/netops/store.py:90-101 | a restart loads exactly that snapshot |
| CrashSafety.AckedIdsAreNotReissued | servers/netops/store.py:156-175 | an id that was acknowledged is not given out again, whatever crashes happen |
| NetopsStores.NetopsStore.SaveState | servers/netops/store.py:103-123 | a save replaces the file as a whole, or leaves the disk as it was, at whichever point it fails |
| NetopsStores.NetopsStore.CreateTicket | servers/netops/store.py:149-175 | the new ticket is in memory, in the file exactly when the save succeeded, under an id that is new |
| NetopsStores.NetopsStore.ScheduleVisit | servers/netops/store.py:180-208 | the visit and the ticket's new status in memory, in the file exactly when the save succeeded; an unknown ticket changes nothing |
| NetopsStores.NetopsStore.ReloadAfterSave | servers/netops/store.py:90-101 | a store started on the disk after a save has the saved state |
| McpLoggers.ClassifyAgrees | host/logging/mcp_logger.py:79-91 | on every message `parse_message` accepts, `classify` names the same kind |
| McpLoggers.McpLogger.RecordMessage | host/logging/mcp_logger.py:184-219 | duration and method are those of the request a scan of the whole history finds; buffer, file and timers stay what the history says; it raises exactly for an id that cannot be a key or a response in an unknown direction, and then records nothing |
| McpLoggers.McpLogger.Correlate | host/logging/mcp_logger.py:221-253 | the dictionary of timers answers as a backward scan of history does, and goes on doing so |
| McpLoggers.McpLogger.Append | host/logging/mcp_logger.py:176 | the buffer is the last `buffer_size` events recorded |
| McpLoggers.McpLogger.Write | host/logging/mcp_logger.py:255-261 | the file is the lines of the events recorded before close |
| McpLoggers.McpLogger.Tail | host/logging/mcp_logger.py:265-269 | `tail(k)` is the last k buffered events |
| McpLoggers.McpLogger.Close | host/logging/mcp_logger.py:282-293 | nothing is written after close, and closing twice is closing once |
| McpLoggers.TailOfBuffer | host/logging/mcp_logger.py:265-269 | the tail of the buffer is the tail of everything recorded, as far as the buffer reaches |
| McpLoggers.FileReadsBack | host/logging/mcp_logger.py:255-261 | reading the log line by line gives back every event recorded before close, in order |
| McpLoggers.ResponsesAreExactIff | host/logging/mcp_logger.py:221-253 | every response gets the latest request no other response has taken if and only if no response that directly follows another one with its id comes while a request with its id is in flight |
| McpLoggers.AttachedIsLatestIff | host/logging/mcp_logger.py:221-253 | in a log this logger wrote, every response carries the duration and the method of that request under the same condition, and only then |
| McpLoggers.AnswerCarriesItsRequest | host/logging/mcp_logger.py:221-253 | an answer that comes from the same server in the other direction with an equal id, with no such request and no such answer in between, carries the time since its request and that request's own method |
| McpLoggers.TimedIffAnswer | host/logging/mcp_logger.py:221-253 | and nothing else carries a duration or a request's method: no message of another server, no answer in the request's own direction, no second answer, no message of another kind |
| McpLoggers.EventShowsTheMessage | host/logging/mcp_logger.py:184-211 | an event holds the message as it came, its server, direction, method and id, and the kind `parse_message` finds |
| McpLoggers.LineShowsTheEvent | host/logging/mcp_logger.py:135-150 | a line of the file holds each field of its event under its own name, and a duration exactly if there is one |
| McpLoggers.ScanIsExactIff | host/logging/mcp_logger.py:221-253 | the timer is the right one at every point, whether or not a response comes there, if and only if no response ever comes while two requests with its id are in flight |
| McpLoggers.UniqueIdsAreEnough | host/logging/mcp_logger.py:221-253 | ids that are used once, as the client's are, meet both conditions |
| McpLoggers.ReusedIdIsForgotten | host/logging/mcp_logger.py:238-251 | an id used again in flight: the second response gets nothing although a request is left |
| Agents.Agent.RunTurn | host/agent.py:110-156 | what a turn adds to the history, and that the model is called once per round and at most `max_iterations` times; the first answer that is no served round decides how it ends: it raises exactly if the model did or a call does not return, and returns that answer's texts otherwise; a turn capped by served rounds returns the last texts, or that it was stopped exactly if those are blank |
| Agents.ReadsIsUnique | host/agent.py:158-165 | what an answer's texts are: the non-empty ones, all, in order, one line feed between two, without the blanks around the whole; there is one such string |
| Agents.OneTextIsTheAnswer | host/agent.py:158-165 | a single text without outer blanks is returned as it is, whatever tool calls and empty texts stand around it |
| Conversation.ToolUsesArePicked | host/agent.py:133-137 | the calls of an answer are its tool-use blocks, all of them, in order |
| Agents.ContentReachesTheModel | host/agent.py:57-69 | a result's text blocks reach the model as they are and any other block as its JSON, in order, one line feed between two |
| Agents.FailuresAreReported | host/agent.py:80-91 | an unknown tool, a rejection and a lost transport each become an error result with the exception's message, and a rejection's code, in it |
| Agents.Agent.Pass | host/agent.py:118-150 | one pass of the loop: it goes on exactly when tools were asked for and all returned |
| Agents.Agent.ExecuteAll | host/agent.py:140-147 | one result for each call, in order, or an exception |
| Agents.CallReturnsIff | host/agent.py:71-97 | a tool call comes back with a result if and only if its input is a dict or nothing, no exception escapes, and a result is a dict whose text blocks carry text |
| Agents.TurnIsOrderlyIff | host/agent.py:110-156 | one turn leaves every tool-calling turn followed at once by its results exactly when it ends well, capped turns and turns whose model call raises included |
| Agents.EndsWellIff | host/agent.py:118-150 | a turn fails to end well if and only if, within the cap, the first answer that is not a round of served calls calls tools all the same, with another stop reason or with a call that does not return |
| Agents.PremisesSuffice | host/agent.py:131-150 | a turn ends well if every answer that calls tools says `tool_use` and tool execution returns |
| Agents.ConversationIsOrderlyIff | host/agent.py:110-156 | after any number of turns every call is answered at once, in order, exactly when every single turn ended well |
| Agents.ConversationIsWired | host/llm/openai_compatible.py:67-127 | on the wire such a conversation has, behind each tool-calling reply, exactly one tool message per call, in order |
| OpenAi.ToOpenAiMessages | host/llm/openai_compatible.py:67-127 | the nested loops compute the message-by-message translation, the system prompt first |
| OpenAi.ConvertResults | host/llm/openai_compatible.py:86-102 | results as they come, leftover text at the end |
| OpenAi.ConvertCalls | host/llm/openai_compatible.py:105-121 | one call for each tool_use block, in order |
| OpenAi.PromptComesFirst | host/llm/openai_compatible.py:75-77 | the system prompt is the first message if there is one, and no other message is a system message |
| OpenAi.UserTurnOnTheWire | host/llm/openai_compatible.py:83-102 | a user's text is one user message as it is; a turn of blocks is one tool message for each result, in order, and then one user message with all its texts if there is any |
| OpenAi.AssistantTurnOnTheWire | host/llm/openai_compatible.py:104-125 | an assistant turn is one reply with its non-empty texts, or null, and one call for each tool use, in order, whose arguments decode to the input |
| OpenAi.WireIsPaired | host/llm/openai_compatible.py:82-125 | an orderly history becomes replies each followed by exactly its tool messages |
| OpenAiReply.FromOpenAiResponse | host/llm/openai_compatible.py:130-165 | the loop over the calls computes the decoded response, or raises |
| OpenAiReply.CompletionMeans | host/llm/openai_compatible.py:130-165 | an accepted completion gives its text first if it is not blank, then one use for each call in order, and stops for tool use exactly if it finished for tool calls |
| OpenAiReply.CallIsRead | host/llm/openai_compatible.py:143-160 | a call keeps its id and name; its input is the dict its arguments decode to, {} for another value, and the raw text under its own key when they are no JSON |
| OpenAiReply.UseIsNormal | host/llm/openai_compatible.py:144-160 | every decoded call has a usable id and a dict for its input |
| OpenAiReply.TranslationFixpoint | host/llm/openai_compatible.py:104-165 | every accepted completion, encoded again and decoded with the same finish reason, comes back block for block |
| ToolRegistry.RegisteredIff | host/mcp/registry.py:100-113 | a definition is registered exactly when it has a name that is not empty and whose qualified form, a final line feed aside, is 1 to 128 letters, digits, underscores and hyphens |
| ToolRegistry.QualifiedIsInjective | host/mcp/registry.py:37-39 | between server names without `__` inside or `_` at the end, a qualified name determines server and tool |
| ToolRegistry.ClashIff | host/mcp/registry.py:37-39 | two server names can produce one qualified name if and only if one of them followed by the separator starts with the other followed by it |
| ToolRegistry.OverlappingNamesMisroute | host/mcp/registry.py:113 | a server `a__b` takes over the name of tool `b__c` of server `a` |
| ToolRegistry.ConnectAllKeeps | host/mcp/registry.py:69-113 | whatever the servers do, each key is its tool's own qualified name and its server a live client |
| ToolRegistry.CallsReachTheOwner | host/mcp/registry.py:69-113 | with plain server names, however connecting ends: a qualified name is known exactly when its server was got to before anything uncaught and lists the tool before anything that is no dict, and it leads to that server under the tool's own name |
| ToolRegistry.OneBadServerStopsTheRestIff | host/mcp/registry.py:69-75 | connecting stops early exactly when some server raises what is not caught; otherwise every server is connected or among the failures |
| ToolRegistry.ServerRegistry.ConnectServers | host/mcp/registry.py:69-75 | the loop over the servers, with its exceptions, keeps the invariant |
| ToolRegistry.ServerRegistry.ConnectServer | host/mcp/registry.py:95-113 | the loop over the definitions registers the usable ones up to the first that is no dict |
| ToolRegistry.ServerRegistry.Call | host/mcp/registry.py:156-159 | a call is refused exactly for an unknown name, and otherwise the client lookup cannot fail |
| ToolRegistry.ServerRegistry.CloseAll | host/mcp/registry.py:119-124 | every client is closed, in order, and nothing is left; a `close()` that raises ends it there, with the later clients untouched and the tables as they were |
| Dashboard.VisibleTranscript | host/ui/dashboard.py:238-257 | the loop keeps a suffix that is the newest line, or all that fits, and not one line less |
| Dashboard.ShownIsLongest | host/ui/dashboard.py:238-257 | no longer suffix fits |
| Dashboard.ShownIsUnique | host/ui/dashboard.py:238-257 | there is only one such suffix |
| Dashboard.EntryRowsAre | host/ui/dashboard.py:221-236 | an entry takes one row if it is output, and otherwise as many spans as its text needs and no more, at least one, and a blank row |
| Dashboard.GrowingNeverHides | host/ui/dashboard.py:70-90 | a terminal that grows in either dimension, or a log that is collapsed, never hides a visible line |
| Dashboard.WiderSpanFewerRows | host/ui/dashboard.py:233-234 | the ceiling division is antitone in the width |

## Left out

- Python's own limits on JSON: a RecursionError on deeply nested input and a ValueError on integers of more than 4300 digits; nesting and integers are unbounded here.
- JSON numbers: floats are exact decimals, so NaN, the infinities, rounding, and the digits Python prints for a float (1.5 for 1.500) are not modelled; `json.loads` takes exponents.
- Text: strings are sequences of characters; lone surrogates and encoding failures are a save that may fail.
- Unicode and the platform: regular expressions, `upper`, `lower`, phone digits, ISO dates, SHA-256, `round`, the clock and uuid4 are parameters, with the assumptions each lemma states.
- Message texts of errors are abbreviated; titles, descriptions, `hint`, `detail` and `message` texts of the tools are not modelled; error messages are told by their codes and fields.
- Retries over HTTP may run a call twice on the server; nothing is promised there and nothing is proved.
- Two processes that share one state file.
- NetopsSessions.ScheduleVisitOn: one call at a time; the `rescheduled` flag, which the handler reads outside the store's lock, can be stale under concurrent calls.
- HttpEndpoint.Mcp: one request at a time, while the source serves them concurrently; a cap of zero sessions, which raises, is excluded.
- McpClients.McpClient.FailAllPending: completes in an arbitrary order where the code goes by insertion order, which nobody can observe.
- StdioTransports.StdioTransport.Close: waiting, terminating and killing the process are one step that ends with it gone; what other threads do between the flag, the close of stdin and the end of the process is in `ClientProtocol`.
- Agents.Agent.RunTurn: `dict(input)` of a list of pairs is taken to raise; progress events are not modelled.
- OpenAiReply.FromOpenAiResponse: HTTP, rate limits and retries around it are not modelled.
- ToolRegistry.ServerRegistry.CloseAll: a client is its name here, which closes raise is a parameter, and closing is recorded, not run.
- Rich rendering, themes, the command line, configuration and the Anthropic client, which are user interface or thin wrappers.
