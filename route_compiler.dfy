/**
 * The route compiler (`NginxService._loadConfig`): reads listeners, stream
 * routes, http routes and domains, groups the routes by listen port and then
 * by domain name, and fills the nginx configuration object.
 *
 * The first half specifies the result as functions of the store; the second
 * half is the imperative compile, proved to produce exactly that result.
 */
module RouteCompiler {
  import opened Options
  import opened Decimal
  import opened OrderedMap
  import opened Entities
  import opened NginxConfig

  const JS_IMPORT := Directive("js_import", "/opt/app/nginx/dist/njs.js")
  const SNI_SOURCE := "$ssl_preread_server_name"
  const UPSTREAM_PREFIX := "ffus_"
  const DEFAULT_KEY := "default"
  const BAD_GATEWAY := ErrorPage("500 502 503 504", "/bad_gateway.html")

  // ---------------------------------------------------------------------------
  // Names and blocks

  /** `ffus_` + (`alias_` when the alias is not empty) + the domain id. */
  function UpstreamName(aliasName: string, domainId: nat): string {
    UPSTREAM_PREFIX + (if aliasName != "" then aliasName + "_" else "") + NatToString(domainId)
  }

  function RouteUpstreamName(r: StreamRoute): string {
    UpstreamName(r.aliasName, r.domainId)
  }

  /** The per-port map output variable `$ffstream<port>`. */
  function StreamVarName(port: nat): string {
    "$ffstream" + NatToString(port)
  }

  /** The upstream a route creates: its name and one `server address:port` target. */
  function UpstreamOf(r: StreamRoute): Upstream {
    Upstream(RouteUpstreamName(r),
      [Directive("server", r.destinationAddress + ":" + NatToString(r.destinationPort))])
  }

  function UpstreamNames(ups: seq<Upstream>): seq<string>
    decreases |ups|
  {
    if ups == [] then [] else UpstreamNames(ups[..|ups| - 1]) + [ups[|ups| - 1].name]
  }

  /** The stream server of a port: SNI preread, the admission callback, proxying to the port's map variable. */
  function StreamServer(port: nat): Server {
    Server(port, false, None,
      [Directive("js_access", "njs.accessAddressStream"),
       Directive("proxy_pass", StreamVarName(port)),
       Directive("ssl_preread", "on")],
      [])
  }

  function NamedHttpServer(port: nat, name: string): Server {
    Server(port, false, Some(name), [], [])
  }

  /** The catch-all server of an http port, with the bad-gateway error page. */
  function DefaultHttpServer(port: nat): Server {
    Server(port, true, None, [], [BAD_GATEWAY])
  }

  // ---------------------------------------------------------------------------
  // Reading the store: the visits the grouping loops make, in loop order

  /** The visits for one listener's stream routes; a route whose domain is not found is skipped. */
  function StreamRouteVisits(domains: seq<Domain>, port: nat, rs: seq<StreamRoute>): seq<Visit<StreamRoute>>
    decreases |rs|
  {
    if rs == [] then []
    else
      var prev := StreamRouteVisits(domains, port, rs[..|rs| - 1]);
      match FindDomain(domains, rs[|rs| - 1].domainId)
      case Some(d) => prev + [Visit(port, d.domainname, rs[|rs| - 1])]
      case None => prev
  }

  function HttpRouteVisits(domains: seq<Domain>, port: nat, rs: seq<HttpRoute>): seq<Visit<HttpRoute>>
    decreases |rs|
  {
    if rs == [] then []
    else
      var prev := HttpRouteVisits(domains, port, rs[..|rs| - 1]);
      match FindDomain(domains, rs[|rs| - 1].domainId)
      case Some(d) => prev + [Visit(port, d.domainname, rs[|rs| - 1])]
      case None => prev
  }

  function ListenStreamVisits(store: Store, l: Listen): seq<Visit<StreamRoute>> {
    if l.listenType == StreamListen
    then StreamRouteVisits(store.domains, l.listenPort, StreamsOfListen(store.streams, l.id))
    else []
  }

  function ListenHttpVisits(store: Store, l: Listen): seq<Visit<HttpRoute>> {
    if l.listenType == HttpListen
    then HttpRouteVisits(store.domains, l.listenPort, HttpsOfListen(store.https, l.id))
    else []
  }

  function StreamVisits(store: Store, ls: seq<Listen>): seq<Visit<StreamRoute>>
    decreases |ls|
  {
    if ls == [] then [] else StreamVisits(store, ls[..|ls| - 1]) + ListenStreamVisits(store, ls[|ls| - 1])
  }

  function HttpVisits(store: Store, ls: seq<Listen>): seq<Visit<HttpRoute>>
    decreases |ls|
  {
    if ls == [] then [] else HttpVisits(store, ls[..|ls| - 1]) + ListenHttpVisits(store, ls[|ls| - 1])
  }

  /** `streamMap`: port -> domain name -> stream route. */
  function StreamGroups(store: Store): Groups<StreamRoute> {
    GroupVisits(StreamVisits(store, store.listens))
  }

  /** `httpMap`: port -> domain name -> http route. */
  function HttpGroups(store: Store): Groups<HttpRoute> {
    GroupVisits(HttpVisits(store, store.listens))
  }

  // ---------------------------------------------------------------------------
  // Filling the configuration

  /** The route bound to the `i`-th domain of a port. */
  function RouteAt(inner: OMap<string, StreamRoute>, i: nat): StreamRoute
    requires inner.Valid() && i < |inner.keys|
  {
    inner.m[inner.keys[i]]
  }

  /** The upstream list after one route: its upstream is added unless its name is already listed (`tupstreams`). */
  function AddRouteUpstream(ups: seq<Upstream>, r: StreamRoute): seq<Upstream> {
    if RouteUpstreamName(r) in UpstreamNames(ups) then ups else ups + [UpstreamOf(r)]
  }

  /** The upstream list after the first `k` domains of a port, starting from `ups`. */
  function PortUpstreams(ups: seq<Upstream>, inner: OMap<string, StreamRoute>, k: nat): seq<Upstream>
    requires inner.Valid() && k <= |inner.keys|
  {
    if k == 0 then ups else AddRouteUpstream(PortUpstreams(ups, inner, k - 1), RouteAt(inner, k - 1))
  }

  /** The named map entries after the first `k` domains of a port: one per non-default route. */
  function PortEntries(inner: OMap<string, StreamRoute>, k: nat): seq<Directive>
    requires inner.Valid() && k <= |inner.keys|
  {
    if k == 0 then []
    else
      var r := RouteAt(inner, k - 1);
      if r.isDefault then PortEntries(inner, k - 1)
      else PortEntries(inner, k - 1) + [Directive(inner.keys[k - 1], RouteUpstreamName(r))]
  }

  /** The default upstream after the first `k` domains of a port: the one of the last default route. */
  function PortDefault(inner: OMap<string, StreamRoute>, k: nat): Option<string>
    requires inner.Valid() && k <= |inner.keys|
  {
    if k == 0 then None
    else
      var r := RouteAt(inner, k - 1);
      if r.isDefault then Some(RouteUpstreamName(r)) else PortDefault(inner, k - 1)
  }

  function DefaultEntries(d: Option<string>): seq<Directive> {
    if d.Some? then [Directive(DEFAULT_KEY, d.value)] else []
  }

  /** The SNI map of a port: the named entries, then the default entry if there is one. */
  function PortMap(port: nat, inner: OMap<string, StreamRoute>): SniMap
    requires inner.Valid()
  {
    var n := |inner.keys|;
    SniMap(SNI_SOURCE, StreamVarName(port), PortEntries(inner, n) + DefaultEntries(PortDefault(inner, n)))
  }

  /** The upstreams after the first `j` ports. */
  function StreamUpstreams(groups: Groups<StreamRoute>, j: nat): seq<Upstream>
    requires NestedValid(groups) && j <= |groups.keys|
  {
    if j == 0 then []
    else
      var inner := groups.m[groups.keys[j - 1]];
      PortUpstreams(StreamUpstreams(groups, j - 1), inner, |inner.keys|)
  }

  /** The maps after the first `j` ports: one per port. */
  function StreamMaps(groups: Groups<StreamRoute>, j: nat): seq<SniMap>
    requires NestedValid(groups) && j <= |groups.keys|
  {
    if j == 0 then [] else StreamMaps(groups, j - 1) + [PortMap(groups.keys[j - 1], groups.m[groups.keys[j - 1]])]
  }

  /** The servers after the first `j` ports: one per port. */
  function StreamServers(groups: Groups<StreamRoute>, j: nat): seq<Server>
    requires j <= |groups.keys|
  {
    if j == 0 then [] else StreamServers(groups, j - 1) + [StreamServer(groups.keys[j - 1])]
  }

  /** The stream context after the first `j` ports. */
  function StreamFill(groups: Groups<StreamRoute>, j: nat): StreamContext
    requires NestedValid(groups) && j <= |groups.keys|
  {
    StreamContext([JS_IMPORT], StreamUpstreams(groups, j), StreamMaps(groups, j), StreamServers(groups, j))
  }

  function NamedHttpServers(port: nat, names: seq<string>): seq<Server>
    decreases |names|
  {
    if names == [] then []
    else NamedHttpServers(port, names[..|names| - 1]) + [NamedHttpServer(port, names[|names| - 1])]
  }

  /** The http servers after the first `j` ports: per port, one named server per domain, then the default server. */
  function HttpFill(groups: Groups<HttpRoute>, j: nat): seq<Server>
    requires NestedValid(groups) && j <= |groups.keys|
  {
    if j == 0 then []
    else
      var port := groups.keys[j - 1];
      HttpFill(groups, j - 1) + NamedHttpServers(port, groups.m[port].keys) + [DefaultHttpServer(port)]
  }

  function StreamContextOf(store: Store): StreamContext {
    GroupVisitsValid(StreamVisits(store, store.listens));
    StreamFill(StreamGroups(store), |StreamGroups(store).keys|)
  }

  function HttpContextOf(store: Store): HttpContext {
    GroupVisitsValid(HttpVisits(store, store.listens));
    HttpContext(HttpFill(HttpGroups(store), |HttpGroups(store).keys|))
  }

  /** The configuration one compile pass produces from a store snapshot. */
  function Compile(store: Store): Config {
    Config(StreamContextOf(store), HttpContextOf(store))
  }

  // ---------------------------------------------------------------------------
  // The imperative compile

  lemma GroupVisitsSnoc<R>(vs: seq<Visit<R>>, v: Visit<R>)
    ensures GroupVisits(vs + [v]) == PutVisit(GroupVisits(vs), v)
  {
  }

  /** One iteration of the outer read loop: only a listener of the matching kind adds visits. */
  lemma StreamVisitsStep(store: Store, ls: seq<Listen>, i: nat)
    requires i < |ls|
    ensures StreamVisits(store, ls[..i + 1])
      == if ls[i].listenType == StreamListen then StreamVisits(store, ls[..i]) + ListenStreamVisits(store, ls[i])
         else StreamVisits(store, ls[..i])
    ensures HttpVisits(store, ls[..i + 1])
      == if ls[i].listenType == HttpListen then HttpVisits(store, ls[..i]) + ListenHttpVisits(store, ls[i])
         else HttpVisits(store, ls[..i])
  {
    assert ls[..i + 1][..i] == ls[..i];
  }

  /** The inner read loop as a fold on the groups: a route whose domain is found is put under `port`. */
  function PutStreamRoutes(g: Groups<StreamRoute>, domains: seq<Domain>, port: nat, rs: seq<StreamRoute>): Groups<StreamRoute>
    decreases |rs|
  {
    if rs == [] then g
    else
      var prev := PutStreamRoutes(g, domains, port, rs[..|rs| - 1]);
      match FindDomain(domains, rs[|rs| - 1].domainId)
      case Some(d) => PutVisit(prev, Visit(port, d.domainname, rs[|rs| - 1]))
      case None => prev
  }

  function PutHttpRoutes(g: Groups<HttpRoute>, domains: seq<Domain>, port: nat, rs: seq<HttpRoute>): Groups<HttpRoute>
    decreases |rs|
  {
    if rs == [] then g
    else
      var prev := PutHttpRoutes(g, domains, port, rs[..|rs| - 1]);
      match FindDomain(domains, rs[|rs| - 1].domainId)
      case Some(d) => PutVisit(prev, Visit(port, d.domainname, rs[|rs| - 1]))
      case None => prev
  }

  /** The fold puts exactly the visits `StreamRouteVisits` lists. */
  lemma {:induction false} PutStreamRoutesVisits(before: seq<Visit<StreamRoute>>, domains: seq<Domain>, port: nat, rs: seq<StreamRoute>)
    ensures PutStreamRoutes(GroupVisits(before), domains, port, rs) == GroupVisits(before + StreamRouteVisits(domains, port, rs))
    decreases |rs|
  {
    if rs == [] {
      assert before + [] == before;
    } else {
      var init := rs[..|rs| - 1];
      PutStreamRoutesVisits(before, domains, port, init);
      var prev := before + StreamRouteVisits(domains, port, init);
      match FindDomain(domains, rs[|rs| - 1].domainId)
      case Some(d) =>
        var v := Visit(port, d.domainname, rs[|rs| - 1]);
        assert before + StreamRouteVisits(domains, port, rs) == prev + [v];
        GroupVisitsSnoc(prev, v);
      case None =>
    }
  }

  lemma {:induction false} PutHttpRoutesVisits(before: seq<Visit<HttpRoute>>, domains: seq<Domain>, port: nat, rs: seq<HttpRoute>)
    ensures PutHttpRoutes(GroupVisits(before), domains, port, rs) == GroupVisits(before + HttpRouteVisits(domains, port, rs))
    decreases |rs|
  {
    if rs == [] {
      assert before + [] == before;
    } else {
      var init := rs[..|rs| - 1];
      PutHttpRoutesVisits(before, domains, port, init);
      var prev := before + HttpRouteVisits(domains, port, init);
      match FindDomain(domains, rs[|rs| - 1].domainId)
      case Some(d) =>
        var v := Visit(port, d.domainname, rs[|rs| - 1]);
        assert before + HttpRouteVisits(domains, port, rs) == prev + [v];
        GroupVisitsSnoc(prev, v);
      case None =>
    }
  }

  /** The read phase: one pass over the listeners filling `streamMap` and `httpMap`. */
  method ReadRoutes(store: Store) returns (streamMap: Groups<StreamRoute>, httpMap: Groups<HttpRoute>)
    ensures streamMap == StreamGroups(store)
    ensures httpMap == HttpGroups(store)
  {
    streamMap := Empty();
    httpMap := Empty();
    var listens := store.listens;
    for i := 0 to |listens|
      invariant streamMap == GroupVisits(StreamVisits(store, listens[..i]))
      invariant httpMap == GroupVisits(HttpVisits(store, listens[..i]))
    {
      var alisten := listens[i];
      StreamVisitsStep(store, listens, i);
      if alisten.listenType == StreamListen {
        PutStreamRoutesVisits(StreamVisits(store, listens[..i]), store.domains, alisten.listenPort, StreamsOfListen(store.streams, alisten.id));
        streamMap := ReadStreamRoutes(store, alisten, streamMap);
      } else if alisten.listenType == HttpListen {
        PutHttpRoutesVisits(HttpVisits(store, listens[..i]), store.domains, alisten.listenPort, HttpsOfListen(store.https, alisten.id));
        httpMap := ReadHttpRoutes(store, alisten, httpMap);
      }
    }
    assert listens[..|listens|] == listens;
  }

  /** The stream routes of one stream listener, each with a resolvable domain put under the listener's port. */
  method ReadStreamRoutes(store: Store, alisten: Listen, streamMap: Groups<StreamRoute>)
    returns (result: Groups<StreamRoute>)
    ensures result == PutStreamRoutes(streamMap, store.domains, alisten.listenPort, StreamsOfListen(store.streams, alisten.id))
  {
    result := streamMap;
    var tstreams := StreamsOfListen(store.streams, alisten.id);
    for k := 0 to |tstreams|
      invariant result == PutStreamRoutes(streamMap, store.domains, alisten.listenPort, tstreams[..k])
    {
      var astream := tstreams[k];
      assert tstreams[..k + 1][..k] == tstreams[..k];
      var adomain := FindDomain(store.domains, astream.domainId);
      if adomain.Some? {
        var mapDomainStreams := Inner(result, alisten.listenPort);
        mapDomainStreams := Put(mapDomainStreams, adomain.value.domainname, astream);
        result := Put(result, alisten.listenPort, mapDomainStreams);
      }
    }
    assert tstreams[..|tstreams|] == tstreams;
  }

  /** The http routes of one http listener, each with a resolvable domain put under the listener's port. */
  method ReadHttpRoutes(store: Store, alisten: Listen, httpMap: Groups<HttpRoute>)
    returns (result: Groups<HttpRoute>)
    ensures result == PutHttpRoutes(httpMap, store.domains, alisten.listenPort, HttpsOfListen(store.https, alisten.id))
  {
    result := httpMap;
    var https := HttpsOfListen(store.https, alisten.id);
    for k := 0 to |https|
      invariant result == PutHttpRoutes(httpMap, store.domains, alisten.listenPort, https[..k])
    {
      var http := https[k];
      assert https[..k + 1][..k] == https[..k];
      var adomain := FindDomain(store.domains, http.domainId);
      if adomain.Some? {
        var mapDomainHttp := Inner(result, alisten.listenPort);
        mapDomainHttp := Put(mapDomainHttp, adomain.value.domainname, http);
        result := Put(result, alisten.listenPort, mapDomainHttp);
      }
    }
    assert https[..|https|] == https;
  }

  lemma UpstreamNamesSnoc(ups: seq<Upstream>, u: Upstream)
    ensures UpstreamNames(ups + [u]) == UpstreamNames(ups) + [u.name]
  {
  }

  /** The stream half of the fill phase: upstreams, one map and one server per port. */
  method FillStreamContext(conf: NginxConf, streamMap: Groups<StreamRoute>)
    requires NestedValid(streamMap)
    requires conf.stream == StreamFill(streamMap, 0)
    modifies conf
    ensures conf.stream == StreamFill(streamMap, |streamMap.keys|)
    ensures conf.http == old(conf.http)
  {
    var tupstreams: seq<string> := [];
    for j := 0 to |streamMap.keys|
      invariant conf.stream == StreamFill(streamMap, j)
      invariant tupstreams == UpstreamNames(conf.stream.upstreams)
      invariant conf.http == old(conf.http)
    {
      tupstreams := FillStreamPort(conf, streamMap, j, tupstreams);
    }
  }

  /** One port of the stream fill (the body of `streamMap.forEach`). */
  method FillStreamPort(conf: NginxConf, streamMap: Groups<StreamRoute>, j: nat, tupstreams: seq<string>)
    returns (tupstreams': seq<string>)
    requires NestedValid(streamMap) && j < |streamMap.keys|
    requires conf.stream == StreamFill(streamMap, j)
    requires tupstreams == UpstreamNames(conf.stream.upstreams)
    modifies conf
    ensures conf.stream == StreamFill(streamMap, j + 1)
    ensures tupstreams' == UpstreamNames(conf.stream.upstreams)
    ensures conf.http == old(conf.http)
  {
    var listenPort := streamMap.keys[j];
    var domainStreams := streamMap.m[listenPort];
    tupstreams' := tupstreams;
    var varName := StreamVarName(listenPort);
    var aMap := SniMap(SNI_SOURCE, varName, []);
    var defaultMapDomain: Option<string> := None;
    ghost var before := conf.stream;
    for k := 0 to |domainStreams.keys|
      invariant conf.stream == before.(upstreams := PortUpstreams(before.upstreams, domainStreams, k))
      invariant tupstreams' == UpstreamNames(conf.stream.upstreams)
      invariant aMap == SniMap(SNI_SOURCE, varName, PortEntries(domainStreams, k))
      invariant defaultMapDomain == PortDefault(domainStreams, k)
      invariant conf.http == old(conf.http)
    {
      var domainName := domainStreams.keys[k];
      var tstream := domainStreams.m[domainName];
      var upstreamName := RouteUpstreamName(tstream);
      if upstreamName !in tupstreams' {
        UpstreamNamesSnoc(conf.stream.upstreams, UpstreamOf(tstream));
        tupstreams' := tupstreams' + [upstreamName];
        conf.AddUpstream(UpstreamOf(tstream));
      }
      if tstream.isDefault {
        defaultMapDomain := Some(upstreamName);
      } else {
        aMap := aMap.(entries := aMap.entries + [Directive(domainName, upstreamName)]);
      }
    }
    if defaultMapDomain.Some? {
      aMap := aMap.(entries := aMap.entries + [Directive(DEFAULT_KEY, defaultMapDomain.value)]);
    }
    assert aMap == PortMap(listenPort, domainStreams);
    conf.AddMap(aMap);
    conf.AddStreamServer(StreamServer(listenPort));
  }

  lemma NamedHttpServersStep(port: nat, names: seq<string>, k: nat)
    requires k < |names|
    ensures NamedHttpServers(port, names[..k + 1]) == NamedHttpServers(port, names[..k]) + [NamedHttpServer(port, names[k])]
  {
    assert names[..k + 1][..k] == names[..k];
  }

  /** The http half of the fill phase: per port, the named servers and then the default server. */
  method FillHttpContext(conf: NginxConf, httpMap: Groups<HttpRoute>)
    requires NestedValid(httpMap)
    requires conf.http == EmptyHttp
    modifies conf
    ensures conf.http == HttpContext(HttpFill(httpMap, |httpMap.keys|))
    ensures conf.stream == old(conf.stream)
  {
    for j := 0 to |httpMap.keys|
      invariant conf.http == HttpContext(HttpFill(httpMap, j))
      invariant conf.stream == old(conf.stream)
    {
      FillHttpPort(conf, httpMap, j);
    }
  }

  /** One port of the http fill (the body of `httpMap.forEach`). */
  method FillHttpPort(conf: NginxConf, httpMap: Groups<HttpRoute>, j: nat)
    requires NestedValid(httpMap) && j < |httpMap.keys|
    requires conf.http == HttpContext(HttpFill(httpMap, j))
    modifies conf
    ensures conf.http == HttpContext(HttpFill(httpMap, j + 1))
    ensures conf.stream == old(conf.stream)
  {
    var listenPort := httpMap.keys[j];
    var domainHttps := httpMap.m[listenPort];
    for k := 0 to |domainHttps.keys|
      invariant conf.http == HttpContext(HttpFill(httpMap, j) + NamedHttpServers(listenPort, domainHttps.keys[..k]))
      invariant conf.stream == old(conf.stream)
    {
      var domainName := domainHttps.keys[k];
      NamedHttpServersStep(listenPort, domainHttps.keys, k);
      conf.AddHttpServer(NamedHttpServer(listenPort, domainName));
    }
    assert domainHttps.keys[..|domainHttps.keys|] == domainHttps.keys;
    conf.AddHttpServer(DefaultHttpServer(listenPort));
  }

  /**
   * `_loadConfig`: reset both contexts, add the njs import, read and group the
   * routes, then fill. The new configuration is a function of the store alone:
   * nothing of the previous one survives. When the server has no configuration
   * object (`conf?.`), every call on it is a no-op.
   */
  method LoadConfig(conf: NginxConf?, store: Store)
    modifies conf
    ensures conf != null ==> conf.Snapshot() == Compile(store)
  {
    if conf != null {
      conf.ResetStream();
      conf.ResetHttp();
      conf.AddStreamVariable(JS_IMPORT);
    }
    var streamMap, httpMap := ReadRoutes(store);
    GroupVisitsValid(StreamVisits(store, store.listens));
    GroupVisitsValid(HttpVisits(store, store.listens));
    if conf != null {
      FillStreamContext(conf, streamMap);
      FillHttpContext(conf, httpMap);
    }
  }
}
