/** Access control of the /metrics endpoint: choosing the bearer token at
    start-up (setupPrometheusAuth) and checking it on every scrape
    (prometheusAuthMiddleware). */
module MetricsAuth {
  import opened Wire
  import opened Server

  /** What start-up settles on: a token ([] means no token is required), or a
      panic because a token was needed and the random generator failed. */
  datatype Setup = Configured(token: Bytes) | Panicked

  /** env is PROXY_METRICS_TOKEN ([] when unset), cli the -metrics-token flag,
      insecure the -allow-insecure-metrics flag, generated what the 16-byte random
      generator returned (None: it failed). The flag beats the environment,
      either beats the insecure switch, and only when all three leave the
      token empty is one generated. */
  function ResolveMetricsToken(env: Bytes, cli: Bytes, insecure: bool, generated: Option<Bytes>): (r: Setup)
    ensures cli != [] ==> r == Configured(cli)
    ensures cli == [] && env != [] ==> r == Configured(env)
    ensures cli == [] && env == [] && insecure ==> r == Configured([])
    ensures cli == [] && env == [] && !insecure ==> r == (if generated.Some? then Configured(generated.value) else Panicked)
    ensures r == Panicked <==> cli == [] && env == [] && !insecure && generated.None?
  {
    if cli != [] then Configured(cli)
    else if env != [] then Configured(env)
    else if insecure then Configured([])
    else if generated.None? then Panicked
    else Configured(generated.value)
  }

  /** What the middleware does with one scrape. */
  datatype Gate = PassThrough | Refused(status: Status, body: Bytes)

  /** An empty token lets every scrape through; otherwise the Authorization
      header must be exactly "Bearer " followed by the token. */
  function PrometheusAuthMiddleware(metricsToken: Bytes, header: Bytes): (g: Gate)
    ensures g.Refused? ==> g == Refused(Unauthorized, ErrorBody("Unauthorized"))
    ensures metricsToken == [] ==> g == PassThrough
    ensures metricsToken != [] ==> (g == PassThrough <==> header == Bearer() + metricsToken)
  {
    if metricsToken == [] then PassThrough
    else if header != Bearer() + metricsToken then Refused(Unauthorized, ErrorBody("Unauthorized"))
    else PassThrough
  }

  /** Start-up over the shared state: on success the chosen token is stored;
      on a panic the process stops, and the token is left as the empty
      environment value it was assigned first. */
  method SetupPrometheusAuth(p: Proxy, env: Bytes, cli: Bytes, insecure: bool, generated: Option<Bytes>)
    returns (panicked: bool)
    modifies p`metricsToken
    ensures var r := ResolveMetricsToken(env, cli, insecure, generated);
            && (panicked <==> r == Panicked)
            && (r.Configured? ==> p.metricsToken == r.token)
            && (r == Panicked ==> p.metricsToken == [])
  {
    p.metricsToken := env;
    if cli != [] {
      p.metricsToken := cli;
      return false;
    }
    if p.metricsToken != [] {
      return false;
    }
    if insecure {
      return false;
    }
    if generated.None? {
      return true;
    }
    p.metricsToken := generated.value;
    panicked := false;
  }

  /** Assuming the generator never yields an empty token (its code is not
      part of this model), the endpoint is open to a scrape without credentials
      exactly when neither the flag nor the environment gives a token and
      the insecure switch is on. */
  lemma OpenOnlyWhenInsecure(env: Bytes, cli: Bytes, insecure: bool, generated: Option<Bytes>)
    requires generated.Some? ==> generated.value != []
    requires ResolveMetricsToken(env, cli, insecure, generated).Configured?
    ensures var t := ResolveMetricsToken(env, cli, insecure, generated).token;
            (forall h :: PrometheusAuthMiddleware(t, h) == PassThrough) <==> cli == [] && env == [] && insecure
  {
    var t := ResolveMetricsToken(env, cli, insecure, generated).token;
    if t != [] {
      assert PrometheusAuthMiddleware(t, []) != PassThrough;
    }
  }

  /** With a token set, the bare token is refused: unlike the stream check,
      the metrics check does not accept a header without the scheme word. */
  lemma BareTokenRefused(metricsToken: Bytes)
    requires metricsToken != []
    ensures PrometheusAuthMiddleware(metricsToken, metricsToken) == Refused(Unauthorized, ErrorBody("Unauthorized"))
  {
    assert |Bearer()| == 7;
    assert |Bearer() + metricsToken| != |metricsToken|;
  }
}
