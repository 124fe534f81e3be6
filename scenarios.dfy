/**
 * Clients of the model: a registration driven through the objects, as the
 * host page would drive it, with the transport's events delivered by hand.
 */
module Scenarios {
  import opened Maybe
  import opened Bus
  import opened Services
  import opened Pipeline

  /**
   * Mounting the register page: the server service is built over the bound
   * `RegisterServer` proxy and `start` is called once. It publishes one
   * descriptor and calls nothing beyond the constructor's `wait()`.
   */
  method Mount(args: RegisterArgs) returns (stream: DataStream, dispatch: Dispatch)
    ensures fresh(stream) && fresh(stream.server) && fresh(dispatch)
    ensures stream.args == args && stream.defaults.dispatch == dispatch
    ensures stream.server.calls == [Call.Wait]
    ensures dispatch.published == [StreamInfo("RegisterServerService", "register-socket", "string", "mounted", stream)]
  {
    dispatch := new Dispatch();
    var logger := new Logger();
    var server := new Proxy.Bind("com.redhat.RHSM1.RegisterServer", "/com/redhat/RHSM1/RegisterServer");
    var service := new RegisterServerService(server, Defaults(dispatch, logger));
    stream := service.Start(args);
  }

  /**
   * A successful registration: the subscription makes each call in turn, on
   * the proxy the call belongs to, and completes with the registration
   * result.
   */
  method SuccessfulRun()
  {
    var args := RegisterArgs("", "", "", map[], map["host" := Str("sub.example.com"), "port" := Num(443)]);
    var stream, _ := Mount(args);
    var server := stream.server;
    var run := new Subscription(stream);
    run.OnServerReady("en-US");
    assert server.calls == [Call.Wait, Start("en-US")];
    run.OnStartResolved("unix:abstract=test-socket");
    var priv := run.regServ.base.proxy;
    assert priv.origin == Dbus(SocketDbusRequest(None, "unix:abstract=test-socket"));
    run.OnPrivateReady();
    assert priv.calls == [Call.Wait, Call.Wait, Register("", "", "", args.opts, args.connect)];
    run.OnRegisterResolved("consumer-id-123");
    assert run.stage == Done("consumer-id-123");
  }

  /**
   * Two subscriptions to one stream run the chain twice: each calls `Start`
   * on the same server proxy, whose readiness signal came from its single
   * `wait()`, and nothing more is published.
   */
  method TwoSubscriptions()
  {
    var stream, dispatch := Mount(RegisterArgs("", "", "", map[], map[]));
    var first := new Subscription(stream);
    var second := new Subscription(stream);
    first.OnServerReady("en-US");
    second.OnServerReady("en-US");
    assert stream.server.calls == [Call.Wait, Start("en-US"), Start("en-US")];
    assert |dispatch.published| == 1;
  }

  /** A second report that the private proxy is ready issues no second `Register`. */
  method RepeatedPrivateReady()
  {
    var args := RegisterArgs("org", "user", "pw", map[], map[]);
    var stream, _ := Mount(args);
    var run := new Subscription(stream);
    run.OnServerReady("en-US");
    run.OnStartResolved("unix:abstract=test-socket");
    var priv := run.regServ.base.proxy;
    run.OnPrivateReady();
    run.OnPrivateReady();
    assert priv.calls == [Call.Wait, Call.Wait, RegisterCall(args)];
    assert run.stage == Registering;
  }

  /** `Register` is rejected: the stream fails with that error and emits nothing, even if a result arrives later. */
  method RejectedRun()
  {
    var stream, _ := Mount(RegisterArgs("", "", "", map[], map[]));
    var run := new Subscription(stream);
    run.OnServerReady("en-US");
    run.OnStartResolved("unix:abstract=test-socket");
    run.OnPrivateReady();
    run.OnRejected("org not found");
    run.OnRegisterResolved("consumer-id-123");
    assert run.stage == Failed("org not found");
    ReplayProgress(run.events, stream.args);
    assert Count(run.log, ValueEmitted) == 0;
  }
}
