/** The client's listening session: the token check that guards it, the
    frames it writes (text/event-stream, section 9.2 "Server-sent events" of
    the WHATWG HTML Living Standard), and the wait loop that reacts to one
    event at a time until it reaches its single terminal reason.

    Session is the value of one session at one instant (the shared World, the
    frames written so far, how many more writes the connection accepts, and
    the phase); SendResponse, Open, Step and Run are the session's steps as
    functions, and the methods below perform them on the shared objects. */
module Session {
  import opened Wire
  import opened Store
  import opened Server
  import Tokens
  import Webhook

  // ---- authClientStream ----

  datatype AuthResult = Authorized | MissingHeader | NoToken | InvalidToken | ExpiredToken

  /** The ordered checks on GET /listen/{id}: a header is present, a token
      exists for id, it equals the header without one leading "Bearer ", and
      it has not expired. The first check that fails names the rejection. */
  function AuthClientStream(tokens: map<Bytes, StreamToken>, id: Bytes, header: Bytes, now: int): (r: AuthResult)
    ensures r == MissingHeader <==> header == []
    ensures r == NoToken <==> header != [] && id !in tokens
    ensures r == InvalidToken <==> header != [] && id in tokens && tokens[id].token != TrimPrefix(header, Bearer())
    ensures r == ExpiredToken <==>
              header != [] && id in tokens && tokens[id].token == TrimPrefix(header, Bearer()) && tokens[id].expiresAt < now
    ensures r == Authorized <==>
              header != [] && id in tokens && tokens[id].token == TrimPrefix(header, Bearer()) && now <= tokens[id].expiresAt
  {
    if header == [] then MissingHeader
    else if id !in tokens then NoToken
    else if tokens[id].token != TrimPrefix(header, Bearer()) then InvalidToken
    else if tokens[id].expiresAt < now then ExpiredToken
    else Authorized
  }

  /** For a stored token t that does not itself start with "Bearer ", exactly
      two headers are accepted while t is unexpired: "Bearer " + t, and t
      alone (when t is not empty). */
  lemma AuthAcceptsExactly(tokens: map<Bytes, StreamToken>, id: Bytes, header: Bytes, now: int)
    requires id in tokens && !HasPrefix(tokens[id].token, Bearer())
    ensures var t := tokens[id].token;
            AuthClientStream(tokens, id, header, now) == Authorized
            <==> (header == Bearer() + t || (header == t && t != [])) && now <= tokens[id].expiresAt
  {
    var t := tokens[id].token;
    TrimPrefixIs(header, Bearer(), t);
    assert |Bearer()| == 7;
    if header == Bearer() + t {
      assert |header| >= 7;
    }
  }

  // ---- frames ----

  function DataFrame(payload: Bytes): Bytes
  {
    Lit("data: ") + payload + Lit("\n\n")
  }

  /** The first write of sendClientResponse: "data: %s\n\ndata: signature=%s\n\n". */
  function ResponseFrame(r: Record): Bytes
  {
    Lit("data: ") + r.content + Lit("\n\ndata: signature=") + r.signature + Lit("\n\n")
  }

  function EotFrame(): Bytes { Lit("data: eot\n\n") }

  function KeepAliveFrame(): Bytes { Lit("data: keep-alive\n\n") }

  function ServerGoneFrame(): Bytes { Lit("data: server gone\n\n") }

  lemma LitAppend(a: string, b: string)
    ensures Lit(a + b) == Lit(a) + Lit(b)
  {
  }

  /** The bytes of the response write are two data frames as DataFrame
      builds them: the payload, then "signature=" and the signature. The
      payload is written raw, so this is what an event-stream reader sees
      only when the payload holds no line break (see MultiLineBodySplits). */
  lemma ResponseIsTwoDataFrames(r: Record)
    ensures ResponseFrame(r) == DataFrame(r.content) + DataFrame(Lit("signature=") + r.signature)
  {
    LitAppend("\n\n", "data: ");
    LitAppend("\n\n" + "data: ", "signature=");
    assert "\n\ndata: signature=" == "\n\n" + "data: " + "signature=";
  }

  // ---- the session as a value ----

  datatype Reason =
    | Delivered
    | RecordMissing
    | WriteFailed
    | ClientDisconnected
    | TimedOut
    | ServerShutdown
    | Rejected(why: AuthResult)

  datatype Phase = Waiting | Ended(reason: Reason)

  /** What the wait loop reacts to, one per pass. Deposit stands for the
      store.Put of a webhook for this session's id at time at, made while the
      session waits; it signals the channel the session has just registered.
      The webhook's validation and its received count belong to
      Webhook.Ingest and are not part of the event. */
  datatype Event =
    | ClientGone
    | Deposit(record: Record, at: int)
    | KeepAliveTick
    | Deadline
    | Shutdown

  /** frames: every write that succeeded, in order; budget: how many more
      writes the connection accepts before every write fails. */
  datatype Session = Session(world: World, frames: seq<Bytes>, budget: nat, phase: Phase)

  /** A write on a connection that still accepts one. */
  function Emit(s: Session, data: Bytes): (r: Session)
    requires s.budget > 0
    ensures r.frames == s.frames + [data] && r.budget == s.budget - 1
    ensures r.world == s.world && r.phase == s.phase
  {
    s.(frames := s.frames + [data], budget := s.budget - 1)
  }

  /** A write whose failure the writer ignores. */
  function TryEmit(s: Session, data: Bytes): Session
  {
    if s.budget > 0 then Emit(s, data) else s
  }

  function WithStore(s: Session, store: StoreState): Session
  {
    s.(world := s.world.(store := store))
  }

  /** The cleanup after a complete delivery: the store entry, the token and one unit of the active-token gauge go. */
  function Release(w: World, id: Bytes): World
  {
    w.(store := w.store.Delete(id),
       tokens := w.tokens - {id},
       metrics := w.metrics.(activeTokens := w.metrics.activeTokens - 1))
  }

  /** sendClientResponse: reads the record, writes it and the end-of-transmission
      frame, and only after both writes succeed cleans up. */
  function SendResponse(id: Bytes, s: Session): (r: Session)
    requires s.phase == Waiting
    ensures r.phase.Ended? && r.phase.reason in {Delivered, RecordMissing, WriteFailed}
    ensures r.phase == Ended(Delivered) <==> id in s.world.store.records && s.budget >= 2
    ensures r.phase == Ended(Delivered) ==>
              && r.world == Release(s.world, id)
              && r.frames == s.frames + [ResponseFrame(s.world.store.records[id]), EotFrame()]
    ensures r.phase != Ended(Delivered) ==> r.world == s.world
    ensures r.phase == Ended(RecordMissing) ==>
              id !in s.world.store.records
              && r.frames == s.frames + (if s.budget > 0 then [ErrorBody("failed to retrieve response")] else [])
    ensures r.phase == Ended(WriteFailed) ==>
              id in s.world.store.records
              && r.frames == s.frames + (if s.budget == 1 then [ResponseFrame(s.world.store.records[id])] else [])
  {
    match s.world.store.Get(id)
    case None =>
      TryEmit(s, ErrorBody("failed to retrieve response")).(phase := Ended(RecordMissing))
    case Some(record) =>
      if s.budget == 0 then s.(phase := Ended(WriteFailed))
      else
        var s1 := Emit(s, ResponseFrame(record));
        if s1.budget == 0 then s1.(phase := Ended(WriteFailed))
        else
          var s2 := Emit(s1, EotFrame());
          s2.(world := Release(s2.world, id), phase := Ended(Delivered))
  }

  /** closeClientConnection: one "server gone" frame, whose failure is only logged. */
  function CloseConnection(s: Session): Session
  {
    TryEmit(s, ServerGoneFrame())
  }

  /** The deferred decrement of the open-connections gauge, and the terminal reason. */
  function Leave(s: Session, reason: Reason): Session
  {
    s.(world := s.world.(metrics := s.world.metrics.(openClientConnections := s.world.metrics.openClientConnections - 1)),
       phase := Ended(reason))
  }

  /** The start of clientListenLoop: count the connection, and if the record is
      already there, respond at once without waiting. */
  function Open(w: World, id: Bytes, budget: nat): Session
  {
    var s := Session(
      w.(metrics := w.metrics.(openClientConnections := w.metrics.openClientConnections + 1,
                               totalClientConnections := w.metrics.totalClientConnections + 1)),
      [], budget, Waiting);
    if id in w.store.records then
      var r := SendResponse(id, s);
      Leave(r, r.phase.reason)
    else s
  }

  /** One pass of the wait loop: a fresh Await for id (replacing the previous
      channel), then the reaction to one event. */
  function Step(id: Bytes, s: Session, e: Event): Session
    requires s.phase == Waiting
  {
    var a := WithStore(s, s.world.store.Await(id));
    match e
    case ClientGone =>
      Leave(a, ClientDisconnected)
    case Deposit(record, at) =>
      var r := SendResponse(id, WithStore(a, a.world.store.Put(id, record, at)));
      Leave(r, r.phase.reason)
    case KeepAliveTick =>
      if a.budget == 0 then Leave(a, WriteFailed) else Emit(a, KeepAliveFrame())
    case Deadline =>
      var c := CloseConnection(a);
      Leave(c.(world := c.world.(metrics := c.world.metrics.(timedOutClients := c.world.metrics.timedOutClients + 1))), TimedOut)
    case Shutdown =>
      Leave(CloseConnection(a), ServerShutdown)
  }

  /** The loop over a finite run of events; Waiting when they run out first. */
  function Run(id: Bytes, s: Session, events: seq<Event>): Session
    decreases |events|
  {
    if s.phase.Ended? || events == [] then s
    else Run(id, Step(id, s, events[0]), events[1..])
  }

  /** clientListenLoop on a connection that accepts budget writes. */
  function Listen(w: World, id: Bytes, budget: nat, events: seq<Event>): Session
  {
    Run(id, Open(w, id, budget), events)
  }

  /** handleClientStream: the token check, then the loop. */
  function ClientStream(w: World, id: Bytes, header: Bytes, now: int, budget: nat, events: seq<Event>): Session
  {
    var auth := AuthClientStream(w.tokens, id, header, now);
    if auth != Authorized then
      TryEmit(Session(w, [], budget, Waiting), ErrorBody("unauthorized")).(phase := Ended(Rejected(auth)))
    else
      Listen(w, id, budget, events)
  }

  // ---- what a session promises ----

  /** A record that is already there is delivered at once: the two frames,
      then the cleanup, and no channel is ever registered, whatever events
      would have followed. */
  lemma RecordPresentAtStart(w: World, id: Bytes, budget: nat, events: seq<Event>)
    requires id in w.store.records && budget >= 2
    ensures var r := Listen(w, id, budget, events);
            && r.phase == Ended(Delivered)
            && r.frames == [ResponseFrame(w.store.records[id]), EotFrame()]
            && r.world.store == w.store.Delete(id)
            && r.world.tokens == w.tokens - {id}
            && r.world.metrics == w.metrics.(activeTokens := w.metrics.activeTokens - 1,
                                             totalClientConnections := w.metrics.totalClientConnections + 1)
  {
  }

  /** k keep-alive ticks on a connection that accepts k writes: k keep-alive
      frames, still waiting, k fresh channels registered for id (the last one
      current), and nothing else changed. */
  lemma {:induction false} KeepAliveTicks(id: Bytes, s: Session, k: nat)
    requires s.phase == Waiting && k <= s.budget
    decreases k
    ensures var r := Run(id, s, seq(k, _ => KeepAliveTick));
            && r.phase == Waiting
            && r.frames == s.frames + seq(k, _ => KeepAliveFrame())
            && r.budget == s.budget - k
            && r.world.tokens == s.world.tokens && r.world.metrics == s.world.metrics
            && r.world.store.records == s.world.store.records
            && r.world.store.signals == s.world.store.signals
            && r.world.store.nextHandle == s.world.store.nextHandle + k
            && (k > 0 ==> r.world.store.listeners == s.world.store.listeners[id := s.world.store.nextHandle + k - 1])
            && (k == 0 ==> r.world.store.listeners == s.world.store.listeners)
  {
    if k > 0 {
      var ticks := seq(k, _ => KeepAliveTick);
      var s1 := Step(id, s, KeepAliveTick);
      assert ticks[1..] == seq(k - 1, _ => KeepAliveTick);
      KeepAliveTicks(id, s1, k - 1);
      assert seq(k, _ => KeepAliveFrame()) == [KeepAliveFrame()] + seq(k - 1, _ => KeepAliveFrame());
    }
  }

  /** A keep-alive tick on a broken connection ends the session with nothing
      written, and a client disconnect ends it with nothing written; neither
      touches the record, the token or the metrics other than the open-connections gauge. */
  lemma QuietEndings(id: Bytes, s: Session)
    requires s.phase == Waiting
    ensures var r := Step(id, s, ClientGone);
            r.phase == Ended(ClientDisconnected) && r.frames == s.frames
    ensures s.budget == 0 ==> var r := Step(id, s, KeepAliveTick);
            r.phase == Ended(WriteFailed) && r.frames == s.frames
  {
  }

  /** Timeout and shutdown write exactly one "server gone" frame (when the
      connection still accepts it) and leave the record, the token and the
      just-registered listener in place; only timeout counts a timed-out client. */
  lemma DeadlineAndShutdown(id: Bytes, s: Session)
    requires s.phase == Waiting
    ensures var t := Step(id, s, Deadline);
            && t.phase == Ended(TimedOut)
            && t.frames == s.frames + (if s.budget > 0 then [ServerGoneFrame()] else [])
            && t.world.store.records == s.world.store.records
            && t.world.store.listeners == s.world.store.listeners[id := s.world.store.nextHandle]
            && t.world.tokens == s.world.tokens
            && t.world.metrics.timedOutClients == s.world.metrics.timedOutClients + 1
    ensures var d := Step(id, s, Shutdown);
            && d.phase == Ended(ServerShutdown)
            && d.frames == s.frames + (if s.budget > 0 then [ServerGoneFrame()] else [])
            && d.world.store.records == s.world.store.records
            && d.world.store.listeners == s.world.store.listeners[id := s.world.store.nextHandle]
            && d.world.tokens == s.world.tokens
            && d.world.metrics.timedOutClients == s.world.metrics.timedOutClients
  {
  }

  /** A deposit while waiting signals exactly the channel this pass
      registered, and the session delivers the payload, stamped with the
      deposit time, then cleans up. */
  lemma DepositWakesSession(id: Bytes, s: Session, record: Record, at: int)
    requires s.phase == Waiting && s.budget >= 2
    ensures var r := Step(id, s, Deposit(record, at));
            && r.world.store.signals == s.world.store.signals + [s.world.store.nextHandle]
            && r.phase == Ended(Delivered)
            && r.frames == s.frames + [ResponseFrame(Record(record.content, record.signature, at)), EotFrame()]
            && r.world.tokens == s.world.tokens - {id}
            && id !in r.world.store.records && id !in r.world.store.listeners
  {
  }

  /** Over any run of events, a session touches only its own id; the token
      and the active-token gauge change only on a complete delivery, which
      removes the token, the record and the listener for id. */
  lemma {:induction false} CleanupOnlyOnDelivery(id: Bytes, s: Session, events: seq<Event>)
    requires s.phase == Waiting
    decreases |events|
    ensures var r := Run(id, s, events);
            && (forall other :: other != id ==> r.world.store.Get(other) == s.world.store.Get(other))
            && (r.phase != Ended(Delivered) ==>
                  r.world.tokens == s.world.tokens && r.world.metrics.activeTokens == s.world.metrics.activeTokens)
            && (r.phase == Ended(Delivered) ==>
                  && r.world.tokens == s.world.tokens - {id}
                  && r.world.metrics.activeTokens == s.world.metrics.activeTokens - 1
                  && id !in r.world.store.records && id !in r.world.store.listeners)
  {
    if events != [] {
      var s1 := Step(id, s, events[0]);
      if s1.phase == Waiting {
        CleanupOnlyOnDelivery(id, s1, events[1..]);
      }
    }
  }

  /** A token issued at time t0 is accepted with the header "Bearer " + token
      up to and including t0 + 900, and rejected as expired after that. */
  lemma IssuedTokenAccepted(w: World, id: Bytes, token: Bytes, t0: int, now: int)
    requires id != [] && id !in w.tokens
    ensures var issued := Tokens.CreateToken(w, Some(id), Some(token), t0).world;
            AuthClientStream(issued.tokens, id, Bearer() + token, now)
            == if now <= t0 + Tokens.StreamTokenExpiration then Authorized else ExpiredToken
  {
    var h := Bearer() + token;
    assert h[..|Bearer()|] == Bearer();
    assert TrimPrefix(h, Bearer()) == token;
  }

  /** An accepted webhook followed by an authorized session for its id: the
      session writes "data: " + body + "\n\n", then "data: signature=" +
      signature + "\n\n", then "eot", and the record and the token are gone
      afterwards. */
  lemma IngestThenListen(
    w: World, signature: Bytes, body: Bytes, decode: Bytes -> Option<Bytes>, t0: int,
    header: Bytes, now: int, budget: nat, events: seq<Event>)
    requires signature != [] && decode(body).Some? && decode(body).value != []
    requires AuthClientStream(w.tokens, decode(body).value, header, now) == Authorized
    requires budget >= 2
    ensures var id := decode(body).value;
            var w1 := Webhook.Ingest(w, signature, Some(body), decode, t0).world;
            var r := ClientStream(w1, id, header, now, budget, events);
            && r.phase == Ended(Delivered)
            && r.frames == [DataFrame(body) + DataFrame(Lit("signature=") + signature), EotFrame()]
            && r.world.store.Get(id) == None
            && id !in r.world.tokens
  {
    var id := decode(body).value;
    var w1 := Webhook.Ingest(w, signature, Some(body), decode, t0).world;
    assert w1.tokens == w.tokens;
    RecordPresentAtStart(w1, id, budget, events);
    ResponseIsTwoDataFrames(Record(body, signature, t0));
  }

  /** The body is written raw (client_listener.go:125): a webhook body with a
      blank line in it ends the first event early, so an event-stream reader
      receives a first event holding only the text before the blank line. */
  lemma MultiLineBodySplits(signature: Bytes, at: int)
    ensures var frame := ResponseFrame(Record(Lit("a\n\nb"), signature, at));
            var first := DataFrame(Lit("a"));
            |first| <= |frame| && frame[..|first|] == first
  {
    var frame := ResponseFrame(Record(Lit("a\n\nb"), signature, at));
    var first := DataFrame(Lit("a"));
    assert Lit("a\n\nb") == Lit("a") + Lit("\n\n") + Lit("b");
    assert frame == first + Lit("b") + Lit("\n\ndata: signature=") + signature + Lit("\n\n");
  }

  /** A waiting session whose deadline passes before any payload arrives
      writes one "server gone" frame and leaves the token for the sweeper. */
  lemma TimeoutKeepsToken(w: World, id: Bytes, header: Bytes, now: int, budget: nat)
    requires AuthClientStream(w.tokens, id, header, now) == Authorized
    requires id !in w.store.records && budget >= 1
    ensures var r := ClientStream(w, id, header, now, budget, [Deadline]);
            && r.phase == Ended(TimedOut)
            && r.frames == [ServerGoneFrame()]
            && r.world.tokens == w.tokens
            && r.world.metrics.timedOutClients == w.metrics.timedOutClients + 1
  {
  }

  // ---- the response writer and the methods ----

  /** The connection's response body: writes succeed while it still accepts
      one, and once it is broken every later write fails. */
  class ResponseWriter {
    var frames: seq<Bytes>
    var budget: nat

    constructor (budget: nat)
      ensures frames == [] && this.budget == budget
    {
      frames := [];
      this.budget := budget;
    }

    method Write(data: Bytes) returns (ok: bool)
      modifies this
      ensures ok == (old(budget) > 0)
      ensures ok ==> frames == old(frames) + [data] && budget == old(budget) - 1
      ensures !ok ==> frames == old(frames) && budget == old(budget)
    {
      ok := budget > 0;
      if ok {
        frames := frames + [data];
        budget := budget - 1;
      }
    }
  }

  /** The session value the objects hold. */
  ghost function Current(p: Proxy, w: ResponseWriter, phase: Phase): Session
    reads p, p.store, w
  {
    Session(p.Snapshot(), w.frames, w.budget, phase)
  }

  method SendClientResponse(p: Proxy, id: Bytes, w: ResponseWriter) returns (reason: Reason)
    requires p.Valid()
    modifies p`tokens, p`metrics, p.store, w
    ensures p.Valid()
    ensures Current(p, w, Ended(reason)) == SendResponse(id, old(Current(p, w, Waiting)))
  {
    var record := p.store.Get(id);
    if record.None? {
      var _ := w.Write(ErrorBody("failed to retrieve response"));
      return RecordMissing;
    }
    var ok := w.Write(ResponseFrame(record.value));
    if !ok {
      return WriteFailed;
    }
    ok := w.Write(EotFrame());
    if !ok {
      return WriteFailed;
    }
    p.store.Delete(id);
    p.tokens := p.tokens - {id};
    p.metrics := p.metrics.(activeTokens := p.metrics.activeTokens - 1);
    reason := Delivered;
  }

  method CloseClientConnection(w: ResponseWriter)
    modifies w
    ensures w.frames == old(w.frames) + (if old(w.budget) > 0 then [ServerGoneFrame()] else [])
    ensures w.budget == if old(w.budget) > 0 then old(w.budget) - 1 else 0
  {
    var _ := w.Write(ServerGoneFrame());
  }

  lemma RunStep(id: Bytes, s: Session, events: seq<Event>, i: nat)
    requires s.phase == Waiting && i < |events|
    ensures Run(id, s, events[i..]) == Run(id, Step(id, s, events[i]), events[i + 1..])
  {
    assert events[i..][0] == events[i];
    assert events[i..][1..] == events[i + 1..];
  }

  /** One pass of the wait loop: the Await the select statement makes, then
      the reaction to e. */
  method ListenPass(p: Proxy, id: Bytes, w: ResponseWriter, e: Event) returns (phase: Phase)
    requires p.Valid()
    modifies p`tokens, p`metrics, p.store, w
    ensures p.Valid()
    ensures Current(p, w, phase) == Step(id, old(Current(p, w, Waiting)), e)
  {
    var _ := p.store.Await(id);
    match e {
      case ClientGone =>
        p.metrics := p.metrics.(openClientConnections := p.metrics.openClientConnections - 1);
        phase := Ended(ClientDisconnected);
      case Deposit(record, at) =>
        p.store.Put(id, record, at);
        var reason := SendClientResponse(p, id, w);
        p.metrics := p.metrics.(openClientConnections := p.metrics.openClientConnections - 1);
        phase := Ended(reason);
      case KeepAliveTick =>
        var ok := w.Write(KeepAliveFrame());
        if ok {
          phase := Waiting;
        } else {
          p.metrics := p.metrics.(openClientConnections := p.metrics.openClientConnections - 1);
          phase := Ended(WriteFailed);
        }
      case Deadline =>
        CloseClientConnection(w);
        p.metrics := p.metrics.(timedOutClients := p.metrics.timedOutClients + 1);
        p.metrics := p.metrics.(openClientConnections := p.metrics.openClientConnections - 1);
        phase := Ended(TimedOut);
      case Shutdown =>
        CloseClientConnection(w);
        p.metrics := p.metrics.(openClientConnections := p.metrics.openClientConnections - 1);
        phase := Ended(ServerShutdown);
    }
  }

  method ClientListenLoop(p: Proxy, id: Bytes, w: ResponseWriter, events: seq<Event>) returns (phase: Phase)
    requires p.Valid() && w.frames == []
    modifies p`tokens, p`metrics, p.store, w
    ensures p.Valid()
    ensures Current(p, w, phase) == Listen(old(p.Snapshot()), id, old(w.budget), events)
  {
    ghost var start := Listen(p.Snapshot(), id, w.budget, events);
    p.metrics := p.metrics.(openClientConnections := p.metrics.openClientConnections + 1,
                            totalClientConnections := p.metrics.totalClientConnections + 1);
    var present := p.store.Get(id);
    if present.Some? {
      var reason := SendClientResponse(p, id, w);
      p.metrics := p.metrics.(openClientConnections := p.metrics.openClientConnections - 1);
      return Ended(reason);
    }
    ghost var cur := Current(p, w, Waiting);
    var i := 0;
    while i < |events|
      invariant i <= |events|
      invariant p.Valid()
      invariant cur == Current(p, w, Waiting)
      invariant Run(id, cur, events[i..]) == start
    {
      RunStep(id, cur, events, i);
      phase := ListenPass(p, id, w, events[i]);
      if phase.Ended? {
        return;
      }
      cur := Step(id, cur, events[i]);
      i := i + 1;
    }
    phase := Waiting;
  }

  method HandleClientStream(p: Proxy, id: Bytes, header: Bytes, now: int, w: ResponseWriter, events: seq<Event>)
    returns (phase: Phase)
    requires p.Valid() && w.frames == []
    modifies p`tokens, p`metrics, p.store, w
    ensures p.Valid()
    ensures Current(p, w, phase) == ClientStream(old(p.Snapshot()), id, header, now, old(w.budget), events)
  {
    var auth := AuthClientStream(p.tokens, id, header, now);
    if auth != Authorized {
      var _ := w.Write(ErrorBody("unauthorized"));
      return Ended(Rejected(auth));
    }
    phase := ClientListenLoop(p, id, w, events);
  }
}
