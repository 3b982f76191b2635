/**
 * The nginx service's lifecycle operations (`NginxService.start`, `stop`,
 * `reload`) over the nginx server object. The nginx process itself is not
 * modelled: each command the service sends is recorded together with the
 * configuration the server object held when it went out, and the process's
 * answer to "is it running?" (`isRun()`) is passed in as a parameter.
 */
module Supervisor {
  import opened Options
  import opened NginxConfig
  import opened Entities
  import opened RouteCompiler

  /** The commands the service sends to the nginx process. */
  datatype Command = StartProcess | StopProcess | ReloadProcess

  /** The `NginxServer` singleton: its configuration object (possibly absent) and the commands sent so far. */
  class NginxServer {
    var conf: NginxConf?
    var sent: seq<(Command, Option<Config>)>

    constructor (conf: NginxConf?)
      ensures this.conf == conf && sent == []
    {
      this.conf := conf;
      sent := [];
    }

    /** The configuration the object holds now, or `None` when there is no object. */
    function ConfSnapshot(): (r: Option<Config>)
      reads this, conf
      ensures r.Some? <==> conf != null
      ensures conf != null ==> r.value == Config(conf.stream, conf.http)
    {
      if conf != null then Some(conf.Snapshot()) else None
    }

    /** Send `cmd` to the process; the configuration it goes out against is recorded with it. */
    method Send(cmd: Command)
      modifies this
      ensures conf == old(conf)
      ensures sent == old(sent) + [(cmd, ConfSnapshot())]
    {
      sent := sent + [(cmd, ConfSnapshot())];
    }
  }

  /** `start`: recompile the configuration from the store, then start the process against it. */
  method Start(server: NginxServer, store: Store)
    modifies server, server.conf
    ensures server.conf == old(server.conf)
    ensures server.conf != null ==> server.conf.Snapshot() == Compile(store)
    ensures server.sent == old(server.sent)
      + [(StartProcess, if server.conf != null then Some(Compile(store)) else None)]
  {
    LoadConfig(server.conf, store);
    server.Send(StartProcess);
  }

  /**
   * `stop`: stop the process, but only when `isRun` (the process's answer at
   * the moment of the call) says it runs; the configuration is left alone.
   */
  method Stop(server: NginxServer, isRun: bool)
    modifies server
    ensures server.conf == old(server.conf)
    ensures server.ConfSnapshot() == old(server.ConfSnapshot())
    ensures isRun ==> server.sent == old(server.sent) + [(StopProcess, old(server.ConfSnapshot()))]
    ensures !isRun ==> server.sent == old(server.sent)
  {
    if isRun {
      server.Send(StopProcess);
    }
  }

  /** `reload`: recompile the configuration from the store, then reload the process against it, whether or not it runs. */
  method Reload(server: NginxServer, store: Store)
    modifies server, server.conf
    ensures server.conf == old(server.conf)
    ensures server.conf != null ==> server.conf.Snapshot() == Compile(store)
    ensures server.sent == old(server.sent)
      + [(ReloadProcess, if server.conf != null then Some(Compile(store)) else None)]
  {
    LoadConfig(server.conf, store);
    server.Send(ReloadProcess);
  }
}
