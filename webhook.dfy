/** Webhook ingest (handleIncomingWebhook): an ordered chain of early
    rejections, then one store Put of the raw body and its signature. */
module Webhook {
  import opened Wire
  import opened Store
  import opened Server

  datatype IngestOutcome = IngestOutcome(world: World, status: Status)

  /** One POST /webhook request at time now. signature is the
      X-BASETEN-SIGNATURE header ([] when absent); body is what reading the
      request body gave (None: the read failed); decode is the JSON decoder,
      giving the request_id field (None: not JSON; Some([]): empty or missing). */
  function Ingest(w: World, signature: Bytes, body: Option<Bytes>, decode: Bytes -> Option<Bytes>, now: int)
    : (r: IngestOutcome)
    ensures signature == [] ==> r == IngestOutcome(w, BadRequest)
    ensures signature != [] && body.None? ==> r == IngestOutcome(w, InternalServerError)
    ensures signature != [] && body.Some? && (decode(body.value).None? || decode(body.value).value == [])
            ==> r == IngestOutcome(w, BadRequest)
    ensures r.status == OK <==> signature != [] && body.Some? && decode(body.value).Some? && decode(body.value).value != []
    ensures r.status == OK ==>
              var id := decode(body.value).value;
              && r.world.store.Get(id) == Some(Record(body.value, signature, now))
              && (forall other :: other != id ==> r.world.store.Get(other) == w.store.Get(other))
              && r.world.store.listeners == w.store.listeners
              && r.world.tokens == w.tokens
              && r.world.metrics == w.metrics.(webhooksReceived := w.metrics.webhooksReceived + 1)
  {
    if signature == [] then
      IngestOutcome(w, BadRequest)
    else if body.None? then
      IngestOutcome(w, InternalServerError)
    else if decode(body.value).None? || decode(body.value).value == [] then
      IngestOutcome(w, BadRequest)
    else
      var id := decode(body.value).value;
      IngestOutcome(
        w.(store := w.store.Put(id, Record(body.value, signature, 0), now),
           metrics := w.metrics.(webhooksReceived := w.metrics.webhooksReceived + 1)),
        OK)
  }

  /** An accepted webhook signals the listener waiting for its id, if one is
      registered, and nothing otherwise. */
  lemma IngestSignalsListener(w: World, signature: Bytes, body: Bytes, decode: Bytes -> Option<Bytes>, now: int)
    requires signature != [] && decode(body).Some? && decode(body).value != []
    ensures var id := decode(body).value;
            var r := Ingest(w, signature, Some(body), decode, now);
            && (id in w.store.listeners ==> r.world.store.signals == w.store.signals + [w.store.listeners[id]])
            && (id !in w.store.listeners ==> r.world.store.signals == w.store.signals)
  {
  }

  method HandleIncomingWebhook(p: Proxy, signature: Bytes, body: Option<Bytes>, decode: Bytes -> Option<Bytes>, now: int)
    returns (status: Status)
    requires p.Valid()
    modifies p`metrics, p.store
    ensures p.Valid()
    ensures var r := Ingest(old(p.Snapshot()), signature, body, decode, now);
            p.Snapshot() == r.world && status == r.status
  {
    if signature == [] {
      return BadRequest;
    }
    if body.None? {
      return InternalServerError;
    }
    var b := body.value;
    var decoded := decode(b);
    if decoded.None? {
      return BadRequest;
    }
    if decoded.value == [] {
      return BadRequest;
    }
    p.metrics := p.metrics.(webhooksReceived := p.metrics.webhooksReceived + 1);
    p.store.Put(decoded.value, Record(b, signature, 0), now);
    status := OK;
  }
}
