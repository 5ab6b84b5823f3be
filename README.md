# webhook-proxy, modelled in Dafny

webhook-proxy is a rendezvous between an asynchronous inference backend and a
waiting client. The backend POSTs a signed webhook payload keyed by a
`request_id`. The client first obtains a short-lived stream token for that
id (POST /token) and then holds a server-sent-events connection open
(GET /listen/{request_id}) until the payload arrives, the request times out,
or the server shuts down. A background sweeper evicts payloads nobody
collected and tokens that expired. A bearer token guards /metrics.

The model covers the logic of that core, file by file:

- `wire.dfy` (module `Wire`): byte strings, the HTTP statuses the handlers
  answer with, Go's `strings.TrimPrefix`, and the decimal formatting of an
  `int64` (`strconv.FormatInt(n, 10)`) with a parser that proves it round-trips.
- `store.dfy` (module `Store`): the rendezvous store. `StoreState` is its value
  with one function per operation. `InMemStore` is the class whose methods
  update the two maps in place and are proved to follow those functions. A
  wake-up channel is a numbered handle, and a ghost log records every signal
  `Put` sends.
- `server.dfy` (module `Server`): the state the handlers share. `World` is its
  value: the store, the stream-token map and the counters. `Proxy` is the
  object that holds it, together with the request timeout and the metrics token.
- `token.dfy` (module `Tokens`): `handleCreateToken`.
- `webhook.dfy` (module `Webhook`): `handleIncomingWebhook`.
- `client_listener.dfy` (module `Session`): the stream-token check, the exact
  frames, and the listening session. The session is a function over a finite
  sequence of events (`Listen`, `ClientStream`). The methods
  (`ClientListenLoop`, `SendClientResponse`, ...) perform it on the shared
  objects and a response writer, and are proved equal to it.
- `cleanup.dfy` (module `Cleanup`): one tick of the sweeper.
- `prometheus.dfy` (module `MetricsAuth`): the choice of the metrics token at
  start-up and the check on every scrape.

Inputs the program gets from its surroundings are parameters:

- `now`: the wall clock, in whole seconds.
- `requestId` or `decode`: the JSON decoder's verdict on a body.
- `generated`: the result of the random token generator.
- `env`, `cli`, `insecure`: the environment and the command-line flags.
- `events`: the order in which a session sees disconnects, deposits, ticks,
  the deadline and shutdown.
- `budget`: how many writes a connection accepts before it breaks.

## Model

| member | source | states |
|---|---|---|
| Store.StoreState.Put | store.go:36-44 | the record is stored stamped with now, whatever createdAt the caller gave; every other key's record and every listener are kept; exactly the listener registered for id is signalled, and nothing when there is none |
| Store.StoreState.Await | store.go:54-58 | a fresh channel, never used before, replaces any listener for id; the records are untouched |
| Store.StoreState.Delete | store.go:60-63 | both the record and the listener for id are gone; other keys keep theirs |
| Store.PutThenGet | store.go:36-37 | Get after Put returns the content and signature with createdAt = now |
| Store.DeleteIdempotent | store.go:60-63 | deleting twice equals deleting once, and a following Get finds nothing |
| Store.LastSubscriberWins | store.go:40-43 | after two Awaits on one id, a Put signals only the second channel and never the first |
| Store.InMemStore.constructor | store.go:29-34 | a new store is empty |
| Store.InMemStore.Put | store.go:36-44 | the in-place update equals StoreState.Put on the old state |
| Store.InMemStore.Get | store.go:46-52 | returns the stored record or nothing, and changes nothing |
| Store.InMemStore.Await | store.go:54-58 | the in-place update equals StoreState.Await; returns the new channel |
| Store.InMemStore.Delete | store.go:60-63 | the in-place update equals StoreState.Delete |
| Store.InMemStore.GetOlderThan | store.go:65-77 | returns exactly the ids with createdAt < now - maxAge (an age equal to maxAge is kept), each once, and changes nothing |
| Server.Proxy.constructor | main.go:46-51 | the shared state starts with an empty store, no tokens and zero counters |
| Wire.TrimPrefix | client_listener.go:57 | removes one leading copy of the prefix when present, and otherwise returns the input |
| Wire.TrimPrefixIs | client_listener.go:57 | trimming yields t exactly when the input is prefix + t, or t itself when t does not start with the prefix |
| Wire.FormatNat | token.go:52 | decimal text is non-empty, all digits, with no leading zero |
| Wire.FormatIntRoundTrip | token.go:52 | parsing the decimal text of any integer gives it back |
| Tokens.CreateToken | token.go:24-58 | bad request on an undecodable body or empty id; internal error when the generator fails; conflict when a token exists; otherwise exactly one entry now + 900 is added, the gauge rises by one, and the answer carries the stored token and its expiry as decimal text; no refusal changes anything |
| Tokens.SecondIssueConflicts | token.go:35-46 | a second request for the same id is refused with conflict when the generator succeeds (a generator failure is answered 500 first), and in every case the first token stays |
| Tokens.HandleCreateToken | token.go:24-58 | the handler changes the shared state and answers as CreateToken says |
| Webhook.Ingest | webhook.go:11-48 | an empty signature is refused before the body is read; a failed read is an internal error; an undecodable body or an empty request_id is refused; an accepted request stores the whole raw body and the signature under request_id, stamped with now, and counts one webhook; only acceptance changes anything |
| Webhook.IngestSignalsListener | webhook.go:47 | an accepted webhook signals the listener waiting for its id, and nothing when none waits |
| Webhook.HandleIncomingWebhook | webhook.go:11-48 | the handler changes the shared state and answers as Ingest says |
| Session.AuthClientStream | client_listener.go:39-70 | the four checks run in order (header present, token exists, token equals the header less one "Bearer ", not expired), and the first that fails names the rejection; each result holds if and only if its conditions do |
| Session.AuthAcceptsExactly | client_listener.go:57-67 | for a stored token t that does not itself start with "Bearer ", the accepted headers are exactly "Bearer " + t, and t alone when t is not empty, while expiresAt >= now |
| Session.ResponseIsTwoDataFrames | client_listener.go:125 | the bytes of the response write are "data: " + payload + "\n\n" followed by "data: signature=" + signature + "\n\n" |
| Session.MultiLineBodySplits | client_listener.go:125 | the payload is written raw: for the body "a\n\nb" the response write begins with the complete event "data: a\n\n" |
| Session.SendResponse | client_listener.go:117-142 | the session delivers iff the record is there and both writes succeed; only then the record, the listener, the token and one unit of the gauge go; a missing record or a failed write changes no shared state; a missing record writes the "failed to retrieve response" body when it can; a failed write leaves the response frame written only when exactly one write was left, and "eot" never |
| Session.RecordPresentAtStart | client_listener.go:84-89 | a record already present is delivered at once, as the response frame and "eot", with cleanup and no channel registered, whatever events would follow |
| Session.KeepAliveTicks | client_listener.go:99-104 | k ticks write k keep-alive frames and keep waiting; each pass registers a fresh channel for id, and nothing else changes |
| Session.QuietEndings | client_listener.go:93-103 | a disconnect, or a tick on a broken connection, ends the session with nothing written |
| Session.DeadlineAndShutdown | client_listener.go:105-111 | timeout and shutdown write one "server gone" frame, when the connection still accepts it, and leave the record, the token and the listener; only timeout counts a timed-out client |
| Session.DepositWakesSession | client_listener.go:96-98 | a deposit while waiting signals exactly the channel this pass registered, and the session delivers and cleans up |
| Session.CleanupOnlyOnDelivery | client_listener.go:91-142 | over any run of events, other ids' records are untouched; the token and the gauge change only on a complete delivery, which removes the token, the record and the listener |
| Session.IssuedTokenAccepted | client_listener.go:57-63 | a token issued at t0 is accepted with "Bearer " + token up to and including t0 + 900, and rejected as expired after that |
| Session.IngestThenListen | client_listener.go:12-35 | an accepted webhook followed by an authorized session: the session writes "data: " + body + "\n\n" + "data: signature=" + signature + "\n\n", then "data: eot\n\n", and the record and the token are gone |
| Session.TimeoutKeepsToken | client_listener.go:105-108 | a session whose deadline passes first writes one "server gone" frame and leaves the token for the sweeper |
| Session.Open | client_listener.go:79-89 | definition, no contract: counts the connection and, when the record is already there, responds at once |
| Session.Step | client_listener.go:91-112 | definition, no contract: one pass of the select, a fresh Await and then the reaction to one event |
| Session.Run | client_listener.go:91-113 | definition, no contract: passes until the session ends or the events run out |
| Session.Listen | client_listener.go:73-114 | definition, no contract: Open, then Run |
| Session.ClientStream | client_listener.go:12-35 | definition, no contract: the token check, then Listen; a rejection writes "unauthorized" |
| Session.ResponseWriter.Write | client_listener.go:100 | a write appends its bytes while the connection accepts one, and fails with nothing written once it is broken |
| Session.SendClientResponse | client_listener.go:117-142 | the method changes the store, the tokens, the gauge and the writer as SendResponse says |
| Session.CloseClientConnection | client_listener.go:144-152 | one "server gone" frame, whose failure is ignored |
| Session.ListenPass | client_listener.go:92-112 | one pass of the select (a fresh Await, then the reaction to one event) equals Step |
| Session.ClientListenLoop | client_listener.go:73-114 | the loop, with its initial Get, equals Listen on the old state for the same events and connection |
| Session.HandleClientStream | client_listener.go:12-35 | a rejected token writes "unauthorized" and changes no shared state; otherwise the loop runs, equal to ClientStream |
| Cleanup.SweepPayloads | main.go:81-86 | definition, no contract: the swept ids lose their record and their listener, and the timed-out-webhooks counter rises by their number |
| Cleanup.SweepTokens | main.go:88-99 | definition, no contract: the expired tokens go, and the gauge falls by their number |
| Cleanup.Sweep | main.go:81-99 | after a tick, the records left are exactly those with createdAt >= now - timeout, unchanged; the listeners left are exactly those of ids not swept, unchanged, so a listener without a record stays; nextHandle and the signal log are unchanged; the tokens left are exactly those with expiresAt >= now, unchanged; the timed-out-webhooks counter rises by the number swept; the gauge falls by the number of tokens removed; every other counter keeps its value |
| Cleanup.LiveTokensCount | main.go:89-99 | the tokens kept plus the tokens expired are all the tokens |
| Cleanup.GaugeDriftsAfterSweep | main.go:89-99 | a session authorized in its token's expiry second E, a tick at E + 1 and then that session's delivery cleanup leave the active-token gauge one below the token count, whatever the timeout |
| Cleanup.AuthorizedTokenSurvivesSweep | main.go:92 | a token the stream check accepts at now is not removed by a tick at the same now |
| Cleanup.GaugeKept | main.go:89-99 | issuing a token, delivering to a session that holds its token, and a tick each keep the active-token gauge equal to the number of tokens |
| Cleanup.DeleteOldPayloads | main.go:81-86 | deletes every id GetOlderThan returns and counts them, as SweepPayloads says |
| Cleanup.DropExpired | main.go:89-98 | the walk over the token map keeps exactly the unexpired tokens and counts exactly the expired ones |
| Cleanup.DeleteExpiredTokens | main.go:89-99 | the token pass and the gauge decrement, as SweepTokens says |
| Cleanup.CleanupTick | main.go:78-99 | one tick changes the shared state as Sweep says, and the count of removed tokens is the drop in the token map's size |
| MetricsAuth.ResolveMetricsToken | prometheus.go:47-74 | the flag beats the environment, either beats the insecure switch, and otherwise the generated token is used; the only panic is a generator failure when a token is needed |
| MetricsAuth.SetupPrometheusAuth | prometheus.go:47-74 | the metrics token set at start-up is the one ResolveMetricsToken chooses, and it panics exactly when that says so |
| MetricsAuth.PrometheusAuthMiddleware | prometheus.go:76-90 | an empty token lets every scrape through; otherwise a scrape passes iff its header is exactly "Bearer " + token, and any other header gets 401 "Unauthorized" |
| MetricsAuth.OpenOnlyWhenInsecure | prometheus.go:47-90 | with a generator that never yields an empty token, /metrics is open to everyone exactly when neither the flag nor the environment gives a token and the insecure switch is on |
| MetricsAuth.BareTokenRefused | prometheus.go:83-85 | with a token set, a header holding the bare token without "Bearer " is refused |

## Left out

- Concurrency: goroutines, `sync.Map` atomicity and the race between the
  cases of `select`. Each session pass and each handler is one step on the
  shared state. A webhook that arrives while a session waits is the
  session's `Deposit` event. That event stands for the webhook's `store.Put`
  only. The webhook's validation and its `webhooksReceived` increment
  (webhook.go:13-45) belong to Webhook.Ingest and are not part of the event.
- Store.StoreState.Put: the send on the listener's unbuffered channel
  (store.go:42) blocks until someone receives. A listener left behind by a
  timeout, a disconnect or a shutdown therefore blocks the webhook handler
  for good. The model records the signal in a ghost log and does not model
  the blocking.
- A Put that lands between a session's initial Get and its first Await
  signals nobody. The session then waits until its deadline. Deposits are
  modelled only while the session waits on a registered channel, so this
  interleaving is not represented.
- Real time: `time.Now`, the 5-second ticker and the timeout timer. Each
  operation takes one `now`. The token pass of a tick uses that one `now`
  where the source reads the clock once per token (main.go:92).
- Durations are whole seconds. `int64(duration.Seconds())` in GetOlderThan
  needs no truncation because the timeout is a whole number of seconds.
- Session.ClientListenLoop: the source loops until a terminal event. The
  model consumes a finite sequence of events and reports `Waiting` when it
  runs out.
- HTTP plumbing is not modelled:
  - response headers;
  - the `http.Flusher` assertion and its 500 (client_listener.go:23-28);
  - `Flush` calls;
  - status codes written after streaming has begun;
  - the mux, server start-up and shutdown, signal handling and `main`
    (main.go:1-69, 103-135).
- Tokens.CreateToken, Webhook.Ingest: `encoding/json` is abstracted.
  - The decoder is an input (`requestId`, `decode`).
  - The response is the pair (token, expires_at as decimal text), not its
    JSON encoding.
  - The encoder's failure path (token.go:53-56) is left out. By then the
    token is already stored.
  - The error bodies of these two handlers are not modelled, only their
    statuses.
- `generateSecureToken` is not part of this model; its result is an input.
  MetricsAuth.OpenOnlyWhenInsecure assumes it never yields an empty token.
- MetricsAuth.SetupPrometheusAuth: on a generator failure the process
  panics. The model reports the panic and leaves the token empty.
- Prometheus metrics are integer ghost counters. Their float arithmetic and
  registration are left out.
- Cleanup.GaugeKept: the delivery case assumes the session still holds its
  token. A session can be authorized within `timeout` seconds of its
  token's expiry; the stream check accepts a token in its expiry second
  (client_listener.go:63). A tick after that second removes the token while
  the session waits (main.go:92-93). The delivery then still lowers the
  gauge (client_listener.go:139), and the gauge no longer equals the token
  count. Any timeout allows this, the default of 120 seconds included.
  Cleanup.GaugeDriftsAfterSweep states this behaviour.
- A webhook body holding a line break does not reach an event-stream client
  intact. The body is written raw into the `data:` line
  (client_listener.go:125), and a reader splits events and fields at line
  breaks. The model proves which bytes are written (Session.ResponseFrame,
  Session.MultiLineBodySplits). It does not model how a reader parses them,
  and it does not correct the framing.
- Logging.
- The demo client script (client/client.py) is not part of this model.
