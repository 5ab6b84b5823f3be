/** One tick of the background sweeper (the body of cleanup's loop): delete
    every payload older than the request timeout, then every expired stream
    token, counting both. */
module Cleanup {
  import opened Wire
  import opened Store
  import opened Server
  import Session
  import Tokens

  /** The ids whose token expired strictly before now. */
  function ExpiredTokens(tokens: map<Bytes, StreamToken>, now: int): (ids: set<Bytes>)
    ensures ids <= tokens.Keys
  {
    set id | id in tokens && tokens[id].expiresAt < now
  }

  /** The tokens that survive a sweep at now. */
  function LiveTokens(tokens: map<Bytes, StreamToken>, now: int): map<Bytes, StreamToken>
  {
    map id | id in tokens && now <= tokens[id].expiresAt :: tokens[id]
  }

  lemma {:induction false} LiveTokensCount(tokens: map<Bytes, StreamToken>, now: int)
    ensures |LiveTokens(tokens, now)| == |tokens| - |ExpiredTokens(tokens, now)|
  {
    var live := LiveTokens(tokens, now);
    var expired := ExpiredTokens(tokens, now);
    assert live.Keys == tokens.Keys - expired;
    assert tokens.Keys == live.Keys + expired;
    assert live.Keys !! expired;
  }

  /** The first pass of a tick: every payload stored strictly before
      now - timeout goes, with its listener, and is counted as timed out. */
  function SweepPayloads(w: World, timeout: int, now: int): World
  {
    var swept := w.store.OlderThan(now, timeout);
    w.(store := StoreState(w.store.records - swept, w.store.listeners - swept, w.store.nextHandle, w.store.signals),
       metrics := w.metrics.(timedOutWebhooks := w.metrics.timedOutWebhooks + |swept|))
  }

  /** The second pass: every token that expired strictly before now goes, and
      the active-token gauge drops by their number. */
  function SweepTokens(w: World, now: int): World
  {
    w.(tokens := LiveTokens(w.tokens, now),
       metrics := w.metrics.(activeTokens := w.metrics.activeTokens - |ExpiredTokens(w.tokens, now)|))
  }

  /** The state after one tick at time now with the configured timeout. */
  function Sweep(w: World, timeout: int, now: int): (r: World)
    ensures forall id :: id in r.store.records <==> id in w.store.records && now - timeout <= w.store.records[id].createdAt
    ensures forall id :: id in r.store.records ==> r.store.records[id] == w.store.records[id]
    ensures forall id :: id in r.store.listeners <==> id in w.store.listeners && id !in w.store.OlderThan(now, timeout)
    ensures forall id :: id in r.store.listeners ==> r.store.listeners[id] == w.store.listeners[id]
    ensures forall id :: id in w.store.listeners && id !in w.store.records
              ==> id in r.store.listeners && r.store.listeners[id] == w.store.listeners[id]
    ensures r.store.nextHandle == w.store.nextHandle && r.store.signals == w.store.signals
    ensures forall id :: id in r.tokens <==> id in w.tokens && now <= w.tokens[id].expiresAt
    ensures forall id :: id in r.tokens ==> r.tokens[id] == w.tokens[id]
    ensures r.metrics.timedOutWebhooks == w.metrics.timedOutWebhooks + |w.store.OlderThan(now, timeout)|
    ensures r.metrics.activeTokens == w.metrics.activeTokens - (|w.tokens| - |r.tokens|)
    ensures && r.metrics.webhooksReceived == w.metrics.webhooksReceived
            && r.metrics.openClientConnections == w.metrics.openClientConnections
            && r.metrics.totalClientConnections == w.metrics.totalClientConnections
            && r.metrics.timedOutClients == w.metrics.timedOutClients
  {
    LiveTokensCount(w.tokens, now);
    SweepTokens(SweepPayloads(w, timeout, now), now)
  }

  /** A token the stream check accepts at now is not removed by a tick at the
      same now: both use the strict test expiresAt < now. */
  lemma AuthorizedTokenSurvivesSweep(w: World, id: Bytes, header: Bytes, timeout: int, now: int)
    requires Session.AuthClientStream(w.tokens, id, header, now) == Session.Authorized
    ensures id in Sweep(w, timeout, now).tokens && Sweep(w, timeout, now).tokens[id] == w.tokens[id]
  {
  }

  /** The active-token gauge equals the number of stored tokens. */
  ghost predicate GaugeMatches(w: World)
  {
    w.metrics.activeTokens == |w.tokens|
  }

  /** Issuing a token, a complete delivery of a session that still holds
      its token, and a sweep each keep the gauge equal to the token count. */
  lemma GaugeKept(w: World, id: Bytes, requestId: Option<Bytes>, generated: Option<Bytes>, timeout: int, now: int)
    requires GaugeMatches(w)
    ensures GaugeMatches(Tokens.CreateToken(w, requestId, generated, now).world)
    ensures id in w.tokens ==> GaugeMatches(Session.Release(w, id))
    ensures GaugeMatches(Sweep(w, timeout, now))
  {
    if id in w.tokens {
      assert (w.tokens - {id}).Keys == w.tokens.Keys - {id};
    }
  }

  /** The gauge drifts when a tick removes the token of a session that is
      still waiting: a session authorized in its token's last second E, a tick
      at E + 1, and then the delivery's cleanup, which lowers the gauge for a
      token that is no longer there. Any timeout allows this. */
  lemma GaugeDriftsAfterSweep(w: World, id: Bytes, header: Bytes, timeout: int)
    requires GaugeMatches(w) && id in w.tokens
    requires Session.AuthClientStream(w.tokens, id, header, w.tokens[id].expiresAt) == Session.Authorized
    ensures var swept := Sweep(w, timeout, w.tokens[id].expiresAt + 1);
            && GaugeMatches(swept)
            && id !in swept.tokens
            && Session.Release(swept, id).metrics.activeTokens == |Session.Release(swept, id).tokens| - 1
  {
    var swept := Sweep(w, timeout, w.tokens[id].expiresAt + 1);
    GaugeKept(w, id, None, None, timeout, w.tokens[id].expiresAt + 1);
    assert swept.tokens - {id} == swept.tokens;
  }

  function Ids(s: seq<Bytes>): set<Bytes>
  {
    set id | id in s
  }

  /** The ids of a sequence without repeats are as many as its elements. */
  lemma {:induction false} DistinctCount(ids: seq<Bytes>)
    requires forall i, j :: 0 <= i < j < |ids| ==> ids[i] != ids[j]
    ensures |Ids(ids)| == |ids|
  {
    if ids != [] {
      var rest := ids[1..];
      DistinctCount(rest);
      assert Ids(ids) == Ids(rest) + {ids[0]};
      assert ids[0] !in rest;
    }
  }

  /** Deletes, one by one, every id GetOlderThan returns. */
  method DeleteOldPayloads(p: Proxy, now: int) returns (swept: seq<Bytes>)
    requires p.Valid()
    modifies p`metrics, p.store
    ensures p.Valid()
    ensures p.Snapshot() == SweepPayloads(old(p.Snapshot()), p.requestTimeout, now)
  {
    ghost var w0 := p.Snapshot();
    swept := p.store.GetOlderThan(p.requestTimeout, now);
    assert Ids(swept) == w0.store.OlderThan(now, p.requestTimeout);
    DistinctCount(swept);
    p.metrics := p.metrics.(timedOutWebhooks := p.metrics.timedOutWebhooks + |swept|);
    var i := 0;
    while i < |swept|
      invariant i <= |swept|
      invariant p.Valid()
      invariant p.store.records == w0.store.records - Ids(swept[..i])
      invariant p.store.listeners == w0.store.listeners - Ids(swept[..i])
      invariant p.store.nextHandle == w0.store.nextHandle && p.store.signals == w0.store.signals
      invariant p.metrics == w0.metrics.(timedOutWebhooks := w0.metrics.timedOutWebhooks + |swept|)
    {
      assert swept[..i + 1] == swept[..i] + [swept[i]];
      assert Ids(swept[..i + 1]) == Ids(swept[..i]) + {swept[i]};
      p.store.Delete(swept[i]);
      i := i + 1;
    }
    assert swept[..i] == swept;
  }

  /** The tokens left while the walk still has unvisited ids to look at. */
  function KeptTokens(t0: map<Bytes, StreamToken>, unvisited: set<Bytes>, now: int): map<Bytes, StreamToken>
  {
    map id | id in t0 && (id in unvisited || now <= t0[id].expiresAt) :: t0[id]
  }

  /** One step of the walk: visiting id drops it from the kept tokens and adds
      one to the count exactly when it has expired. */
  lemma TokenPassStep(t0: map<Bytes, StreamToken>, unvisited: set<Bytes>, id: Bytes, now: int)
    requires id in unvisited && unvisited <= t0.Keys
    ensures id in KeptTokens(t0, unvisited, now) && KeptTokens(t0, unvisited, now)[id] == t0[id]
    ensures t0[id].expiresAt < now ==>
              && KeptTokens(t0, unvisited - {id}, now) == KeptTokens(t0, unvisited, now) - {id}
              && |ExpiredTokens(t0, now) - (unvisited - {id})| == |ExpiredTokens(t0, now) - unvisited| + 1
    ensures now <= t0[id].expiresAt ==>
              && KeptTokens(t0, unvisited - {id}, now) == KeptTokens(t0, unvisited, now)
              && |ExpiredTokens(t0, now) - (unvisited - {id})| == |ExpiredTokens(t0, now) - unvisited|
  {
    var done := ExpiredTokens(t0, now) - unvisited;
    if t0[id].expiresAt < now {
      assert ExpiredTokens(t0, now) - (unvisited - {id}) == done + {id};
      assert id !in done;
    } else {
      assert ExpiredTokens(t0, now) - (unvisited - {id}) == done;
    }
  }

  /** The walk over the token map: each token that expired strictly before
      now is dropped and counted. */
  method DropExpired(tokens: map<Bytes, StreamToken>, now: int) returns (kept: map<Bytes, StreamToken>, expired: nat)
    ensures kept == LiveTokens(tokens, now)
    ensures expired == |ExpiredTokens(tokens, now)|
  {
    kept := tokens;
    expired := 0;
    var unvisited := tokens.Keys;
    assert kept == KeptTokens(tokens, unvisited, now);
    while unvisited != {}
      invariant unvisited <= tokens.Keys
      invariant kept == KeptTokens(tokens, unvisited, now)
      invariant expired == |ExpiredTokens(tokens, now) - unvisited|
      decreases |unvisited|
    {
      var id :| id in unvisited;
      TokenPassStep(tokens, unvisited, id, now);
      if kept[id].expiresAt < now {
        kept := kept - {id};
        expired := expired + 1;
      }
      unvisited := unvisited - {id};
    }
    assert kept == LiveTokens(tokens, now);
    assert ExpiredTokens(tokens, now) - unvisited == ExpiredTokens(tokens, now);
  }

  /** Deletes every expired stream token and lowers the gauge by their number. */
  method DeleteExpiredTokens(p: Proxy, now: int) returns (expired: nat)
    modifies p`tokens, p`metrics
    ensures p.Snapshot() == SweepTokens(old(p.Snapshot()), now)
    ensures expired == |ExpiredTokens(old(p.tokens), now)|
  {
    var kept;
    kept, expired := DropExpired(p.tokens, now);
    p.tokens := kept;
    p.metrics := p.metrics.(activeTokens := p.metrics.activeTokens - expired);
  }

  method CleanupTick(p: Proxy, now: int) returns (swept: seq<Bytes>, expired: nat)
    requires p.Valid()
    modifies p`tokens, p`metrics, p.store
    ensures p.Valid()
    ensures p.Snapshot() == Sweep(old(p.Snapshot()), p.requestTimeout, now)
    ensures expired == |old(p.tokens)| - |p.tokens|
  {
    swept := DeleteOldPayloads(p, now);
    expired := DeleteExpiredTokens(p, now);
    LiveTokensCount(old(p.tokens), now);
  }
}
