/**
 * The ready-gated services: a base that turns its proxy's `wait()` into a
 * readiness signal, the private registration service opened on a socket, and
 * the registration server whose `start` builds the registration stream and
 * publishes it to the dispatch registry.
 */
module Services {
  import opened Maybe
  import opened Bus

  /** The diagnostic logger; what it prints is not part of the model. */
  class Logger {
    constructor ()
    {
    }
  }

  /** A stream descriptor (`StreamInfo<string>`) as the dispatch registry receives it. */
  datatype StreamInfo = StreamInfo(
    component: string,
    streamName: string,
    streamType: string,
    action: string,
    stream: DataStream)

  /** The descriptor `start` publishes for the stream it built. */
  function RegisterSocketInfo(s: DataStream): (r: StreamInfo)
    ensures r.stream == s
    ensures r.component == "RegisterServerService" && r.streamName == "register-socket"
    ensures r.streamType == "string" && r.action == "mounted"
  {
    StreamInfo("RegisterServerService", "register-socket", "string", "mounted", s)
  }

  /** The dispatch registry: an append-only list of published descriptors. */
  class Dispatch {
    var published: seq<StreamInfo>

    constructor ()
      ensures published == []
    {
      published := [];
    }

    /** `dispatch.register(info)`. */
    method Register(info: StreamInfo)
      modifies this
      ensures published == old(published) + [info]
    {
      published := published + [info];
    }
  }

  /** A readiness signal built from the promise of the `call`-th call on `proxy`, a `wait()`. */
  datatype Ready = FromWait(proxy: Proxy, call: nat)

  /** The module-level instances a service falls back to: `dispatch` and `_logger`. */
  datatype Defaults = Defaults(dispatch: Dispatch, logger: Logger)

  /**
   * `BaseService`: keeps the registry, the proxy and the logger, and derives
   * its readiness signal from a single `wait()` on the proxy.
   */
  class BaseService {
    const dispatch: Dispatch
    const proxy: Proxy
    const readyStream: Ready
    const logger: Logger

    /** A registry or logger that is not supplied defaults to the module-level one. */
    constructor (proxy: Proxy, disp: Option<Dispatch>, logger: Option<Logger>, defaults: Defaults)
      modifies proxy
      ensures this.proxy == proxy
      ensures dispatch == (if disp.Some? then disp.value else defaults.dispatch)
      ensures this.logger == (if logger.Some? then logger.value else defaults.logger)
      ensures proxy.calls == old(proxy.calls) + [Call.Wait]
      ensures readyStream == FromWait(proxy, |old(proxy.calls)|)
    {
      dispatch := if disp.Some? then disp.value else defaults.dispatch;
      this.proxy := proxy;
      var promise := proxy.Wait();
      readyStream := FromWait(proxy, promise);
      this.logger := if logger.Some? then logger.value else defaults.logger;
    }
  }

  /** `RegisterService`: the private registration object reached through a socket. */
  class RegisterService {
    const base: BaseService

    /** Opens an anonymous proxy on the socket and wraps it with the module-level registry and logger. */
    constructor (sockname: string, defaults: Defaults)
      ensures fresh(base) && fresh(base.proxy)
      ensures base.proxy.origin == Dbus(SocketDbusRequest(None, sockname))
      ensures base.proxy.calls == [Call.Wait] && base.readyStream == FromWait(base.proxy, 0)
      ensures base.dispatch == defaults.dispatch && base.logger == defaults.logger
    {
      var pxy := SocketDbus(None, sockname);
      base := new BaseService(pxy, None, None, defaults);
    }

    /** `socketDbus`: `cockpit.dbus(name, {superuser: 'require', bus: 'none', address: socket})`. */
    static method SocketDbus(name: Option<string>, socket: string) returns (p: Proxy)
      ensures fresh(p)
      ensures p.origin == Dbus(SocketDbusRequest(name, socket)) && p.calls == []
    {
      p := new Proxy.Open(SocketDbusRequest(name, socket));
    }
  }

  /**
   * The stream `start` returns. It waits on `ready`, calls `Start` on
   * `server`, opens the private service and registers with `args`. Like an
   * rxjs Observable it is cold: building it calls nothing, and each
   * subscription runs the chain afresh (`Pipeline.Subscription`).
   */
  class DataStream {
    const ready: Ready
    const server: Proxy
    const args: RegisterArgs
    const defaults: Defaults

    constructor (ready: Ready, server: Proxy, args: RegisterArgs, defaults: Defaults)
      ensures this.ready == ready && this.server == server
      ensures this.args == args && this.defaults == defaults
    {
      this.ready := ready;
      this.server := server;
      this.args := args;
      this.defaults := defaults;
    }
  }

  /** `RegisterServerService`: the long-lived server object that starts registrations. */
  class RegisterServerService {
    const base: BaseService
    const defaults: Defaults
    var dataStream: DataStream?
    var info: Option<StreamInfo>

    constructor (proxy: Proxy, defaults: Defaults)
      modifies proxy
      ensures fresh(base) && base.proxy == proxy && this.defaults == defaults
      ensures base.dispatch == defaults.dispatch && base.logger == defaults.logger
      ensures proxy.calls == old(proxy.calls) + [Call.Wait]
      ensures base.readyStream == FromWait(proxy, |old(proxy.calls)|)
      ensures dataStream == null && info == None
    {
      base := new BaseService(proxy, None, None, defaults);
      this.defaults := defaults;
      dataStream := null;
      info := None;
    }

    /**
     * `start`: builds the registration stream from the readiness signal, the
     * server proxy and `args`, stores it and its descriptor, publishes the
     * descriptor once and returns the stored stream. No bus call is made.
     */
    method Start(args: RegisterArgs) returns (s: DataStream)
      modifies this, base.dispatch
      ensures fresh(s)
      ensures s.ready == base.readyStream && s.server == base.proxy
      ensures s.args == args && s.defaults == defaults
      ensures dataStream == s && info == Some(RegisterSocketInfo(s))
      ensures base.dispatch.published == old(base.dispatch.published) + [RegisterSocketInfo(s)]
      ensures unchanged(base.proxy)
    {
      s := new DataStream(base.readyStream, base.proxy, args, defaults);
      dataStream := s;
      var descriptor := RegisterSocketInfo(s);
      info := Some(descriptor);
      base.dispatch.Register(descriptor);
    }
  }
}
