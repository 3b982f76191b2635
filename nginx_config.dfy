/**
 * The in-memory nginx configuration the compiler fills: a stream context
 * (variables, upstreams, SNI maps, servers) and an http context (servers),
 * each list in insertion order. The text serialisation is not modelled.
 */
module NginxConfig {
  import opened Options

  /** A `name value;` line, as `addVariable(name, value)` adds it. */
  datatype Directive = Directive(name: string, value: string)

  /** An `upstream name { ... }` block. */
  datatype Upstream = Upstream(name: string, variables: seq<Directive>)

  /** A `map source variable { key value; ... }` block. */
  datatype SniMap = SniMap(source: string, variable: string, entries: seq<Directive>)

  /** An `error_page code uri;` binding. */
  datatype ErrorPage = ErrorPage(code: string, uri: string)

  /** A `server { ... }` block: `listen port [default_server]`, optional `server_name`, directives, error pages. */
  datatype Server = Server(
    listenPort: nat,
    defaultServer: bool,
    serverName: Option<string>,
    variables: seq<Directive>,
    errorPages: seq<ErrorPage>)

  datatype StreamContext = StreamContext(
    variables: seq<Directive>,
    upstreams: seq<Upstream>,
    maps: seq<SniMap>,
    servers: seq<Server>)

  datatype HttpContext = HttpContext(servers: seq<Server>)

  datatype Config = Config(stream: StreamContext, http: HttpContext)

  const EmptyStream := StreamContext([], [], [], [])
  const EmptyHttp := HttpContext([])

  /** The configuration object owned by the nginx server, filled in place by the compiler. */
  class NginxConf {
    var stream: StreamContext
    var http: HttpContext

    constructor ()
      ensures stream == EmptyStream && http == EmptyHttp
    {
      stream := EmptyStream;
      http := EmptyHttp;
    }

    function Snapshot(): Config
      reads this
    {
      Config(stream, http)
    }

    method ResetStream()
      modifies this
      ensures stream == EmptyStream && http == old(http)
    {
      stream := EmptyStream;
    }

    method ResetHttp()
      modifies this
      ensures http == EmptyHttp && stream == old(stream)
    {
      http := EmptyHttp;
    }

    method AddStreamVariable(d: Directive)
      modifies this
      ensures stream == old(stream).(variables := old(stream).variables + [d])
      ensures http == old(http)
    {
      stream := stream.(variables := stream.variables + [d]);
    }

    method AddUpstream(u: Upstream)
      modifies this
      ensures stream == old(stream).(upstreams := old(stream).upstreams + [u])
      ensures http == old(http)
    {
      stream := stream.(upstreams := stream.upstreams + [u]);
    }

    method AddMap(m: SniMap)
      modifies this
      ensures stream == old(stream).(maps := old(stream).maps + [m])
      ensures http == old(http)
    {
      stream := stream.(maps := stream.maps + [m]);
    }

    method AddStreamServer(s: Server)
      modifies this
      ensures stream == old(stream).(servers := old(stream).servers + [s])
      ensures http == old(http)
    {
      stream := stream.(servers := stream.servers + [s]);
    }

    method AddHttpServer(s: Server)
      modifies this
      ensures http == HttpContext(old(http).servers + [s])
      ensures stream == old(stream)
    {
      http := HttpContext(http.servers + [s]);
    }
  }
}
