/** The process-wide state the handlers share: the store, the stream-token map,
    the metrics, the configured request timeout and the metrics token. World
    is its value at one instant; Proxy is the object the handlers update. */
module Server {
  import opened Wire
  import opened Store

  /** The access token a client must present to listen for one request id. */
  datatype StreamToken = StreamToken(token: Bytes, expiresAt: int)

  /** The Prometheus counters and gauges the core changes, as whole numbers. */
  datatype Counters = Counters(
    webhooksReceived: int,
    openClientConnections: int,
    totalClientConnections: int,
    timedOutClients: int,
    timedOutWebhooks: int,
    activeTokens: int)

  const NoCounts := Counters(0, 0, 0, 0, 0, 0)

  datatype World = World(store: StoreState, tokens: map<Bytes, StreamToken>, metrics: Counters)

  class Proxy {
    const store: InMemStore
    var tokens: map<Bytes, StreamToken>
    ghost var metrics: Counters
    /** The -timeout flag, in seconds. */
    const requestTimeout: int
    var metricsToken: Bytes

    ghost predicate Valid()
      reads this, store
    {
      store.Valid()
    }

    ghost function Snapshot(): World
      reads this, store
    {
      World(store.State(), tokens, metrics)
    }

    constructor (requestTimeout: int)
      ensures Valid() && fresh(store)
      ensures Snapshot() == World(EmptyStore, map[], NoCounts)
      ensures this.requestTimeout == requestTimeout && metricsToken == []
    {
      store := new InMemStore();
      tokens := map[];
      metrics := NoCounts;
      this.requestTimeout := requestTimeout;
      metricsToken := [];
    }
  }
}
