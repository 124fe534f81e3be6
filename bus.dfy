/**
 * The D-Bus side as the services see it: the options record of
 * `cockpit.dbus(name, opts)`, the remote calls the services make, and a fake
 * proxy that records every call made on it.
 */
module Bus {
  import opened Maybe

  /** The `bus` option: a well-known bus, or `'none'` for a private address. */
  datatype BusName = Session | User | System | NoBus

  /** The `superuser` option. */
  datatype Superuser = Require | Try

  /** The `track` option, whose only value is `'try'`. */
  datatype Track = TrackTry

  /** `DBusOptions`: every field may be absent. */
  datatype DBusOptions = DBusOptions(
    bus: Option<BusName>,
    host: Option<string>,
    superuser: Option<Superuser>,
    track: Option<Track>,
    address: Option<string>)

  /** The arguments of one `cockpit.dbus(name, opts)` call; a `null` name is `None`. */
  datatype ProxyRequest = ProxyRequest(name: Option<string>, opts: DBusOptions)

  /** The options pick one of the well-known buses. */
  predicate SelectsWellKnownBus(o: DBusOptions)
  {
    o.bus.Some? && o.bus.value != NoBus
  }

  /**
   * `RegisterService.socketDbus`'s request: the name is passed through and the
   * options are `{superuser: 'require', bus: 'none', address: socket}`, so the
   * connection goes to the socket address and never to a well-known bus.
   */
  function SocketDbusRequest(name: Option<string>, socket: string): (r: ProxyRequest)
    ensures r.name == name
    ensures r.opts.address == Some(socket) && !SelectsWellKnownBus(r.opts)
    ensures r.opts.bus == Some(NoBus) && r.opts.superuser == Some(Require)
    ensures r.opts.host == None && r.opts.track == None
  {
    ProxyRequest(name, DBusOptions(Some(NoBus), None, Some(Require), None, Some(socket)))
  }

  /** A value inside the `opts` and `connect` records of `Register`. */
  datatype Value = Bool(b: bool) | Str(s: string) | Num(n: int)

  /** `RegisterArgs`; `opts` and `connect` are records with optional fields. */
  datatype RegisterArgs = RegisterArgs(
    org: string,
    user: string,
    pw: string,
    opts: map<string, Value>,
    connect: map<string, Value>)

  /** A call made on a proxy: `wait()`, `Start(lang)` or `Register(...)`. */
  datatype Call =
    | Wait
    | Start(lang: string)
    | Register(org: string, user: string, pw: string, opts: map<string, Value>, connect: map<string, Value>)

  /** The `Register` call built from destructured arguments. */
  function RegisterCall(args: RegisterArgs): (c: Call)
    ensures c.Register?
    ensures (c.org, c.user, c.pw) == (args.org, args.user, args.pw)
    ensures c.opts == args.opts && c.connect == args.connect
  {
    Register(args.org, args.user, args.pw, args.opts, args.connect)
  }

  /** How a proxy was obtained. */
  datatype Origin =
    | Dbus(request: ProxyRequest)           // cockpit.dbus(name, opts)
    | Bound(iface: string, path: string)    // client.proxy(iface, path)

  /** A fake remote-object proxy that records the calls made on it, in order. */
  class Proxy {
    const origin: Origin
    var calls: seq<Call>

    /** `cockpit.dbus(name, opts)`. */
    constructor Open(request: ProxyRequest)
      ensures origin == Dbus(request) && calls == []
    {
      origin := Dbus(request);
      calls := [];
    }

    /** `client.proxy(iface, path)`. */
    constructor Bind(iface: string, path: string)
      ensures origin == Bound(iface, path) && calls == []
    {
      origin := Bound(iface, path);
      calls := [];
    }

    /** `wait()`: returns the position of this call, which names its promise. */
    method Wait() returns (index: nat)
      modifies this
      ensures calls == old(calls) + [Call.Wait]
      ensures index == |old(calls)| && calls[index] == Call.Wait
    {
      index := |calls|;
      calls := calls + [Call.Wait];
    }

    /** A remote method call (`Start` or `Register`). */
    method Invoke(c: Call)
      modifies this
      ensures calls == old(calls) + [c]
    {
      calls := calls + [c];
    }
  }
}
