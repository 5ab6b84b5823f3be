/** Stream-token issuance (handleCreateToken): validate the request id, obtain
    a random token, refuse an id that already has one, otherwise store the
    token with a 15-minute expiry and answer with it. */
module Tokens {
  import opened Wire
  import opened Store
  import opened Server

  /** streamTokenExpiration, 15 minutes, in seconds. */
  const StreamTokenExpiration := 900

  /** The answer to POST /token: the token and its expiry as decimal text, or an error status. */
  datatype TokenResponse = Issued(token: Bytes, expiresAt: Bytes) | Refused(status: Status)

  datatype TokenOutcome = TokenOutcome(world: World, response: TokenResponse)

  /** One POST /token request at time now. requestId is the JSON decoder's
      verdict on the body (None: the body does not decode; Some([]): the field
      is empty or missing); generated is what the random generator returned
      (None: it failed). */
  function CreateToken(w: World, requestId: Option<Bytes>, generated: Option<Bytes>, now: int): (r: TokenOutcome)
    ensures (requestId.None? || requestId.value == []) ==> r == TokenOutcome(w, Refused(BadRequest))
    ensures requestId.Some? && requestId.value != [] && generated.None? ==> r == TokenOutcome(w, Refused(InternalServerError))
    ensures requestId.Some? && requestId.value != [] && generated.Some? && requestId.value in w.tokens
            ==> r == TokenOutcome(w, Refused(Conflict))
    ensures r.response.Issued? <==> requestId.Some? && requestId.value != [] && generated.Some? && requestId.value !in w.tokens
    ensures r.response.Issued? ==>
              && r.world.tokens == w.tokens[requestId.value := StreamToken(generated.value, now + StreamTokenExpiration)]
              && r.world.store == w.store
              && r.world.metrics == w.metrics.(activeTokens := w.metrics.activeTokens + 1)
              && r.response.token == generated.value
              && ParseInt(r.response.expiresAt) == Some(now + StreamTokenExpiration)
  {
    if requestId.None? || requestId.value == [] then
      TokenOutcome(w, Refused(BadRequest))
    else if generated.None? then
      TokenOutcome(w, Refused(InternalServerError))
    else if requestId.value in w.tokens then
      TokenOutcome(w, Refused(Conflict))
    else
      var t := StreamToken(generated.value, now + StreamTokenExpiration);
      FormatIntRoundTrip(t.expiresAt);
      TokenOutcome(
        w.(tokens := w.tokens[requestId.value := t],
           metrics := w.metrics.(activeTokens := w.metrics.activeTokens + 1)),
        Issued(t.token, FormatInt(t.expiresAt)))
  }

  /** Issuing twice for the same id: when the generator succeeds the second
      request is refused with a conflict (a generator failure is answered
      with an internal error first), and in every case the first token stays
      as it was. */
  lemma SecondIssueConflicts(w: World, id: Bytes, first: Bytes, second: Option<Bytes>, t1: int, t2: int)
    requires id != [] && id !in w.tokens
    ensures var r1 := CreateToken(w, Some(id), Some(first), t1);
            var r2 := CreateToken(r1.world, Some(id), second, t2);
            && r1.response.Issued?
            && (second.Some? ==> r2.response == Refused(Conflict))
            && r2.world.tokens[id] == StreamToken(first, t1 + StreamTokenExpiration)
  {
  }

  /** The handler over the shared state; it changes only the token map and the
      active-token gauge. */
  method HandleCreateToken(p: Proxy, requestId: Option<Bytes>, generated: Option<Bytes>, now: int)
    returns (response: TokenResponse)
    modifies p`tokens, p`metrics
    ensures var r := CreateToken(old(p.Snapshot()), requestId, generated, now);
            p.Snapshot() == r.world && response == r.response
  {
    if requestId.None? || requestId.value == [] {
      return Refused(BadRequest);
    }
    if generated.None? {
      return Refused(InternalServerError);
    }
    var id := requestId.value;
    if id in p.tokens {
      return Refused(Conflict);
    }
    var expiresAt := now + StreamTokenExpiration;
    p.tokens := p.tokens[id := StreamToken(generated.value, expiresAt)];
    p.metrics := p.metrics.(activeTokens := p.metrics.activeTokens + 1);
    response := Issued(generated.value, FormatInt(expiresAt));
  }
}
