# RHSM1 endpoints and the registration stream

This project models the behaviour of the subscription-manager Cockpit plugin's
service layer, from `cockpit/src/types/cockpit.types.ts`. It has two parts.

**Endpoint names.** Each logical role of the `com.redhat.RHSM1` D-Bus service
(`Attach`, `Config`, `Entitlement`, `Products`, `Register`, `RegisterServer`,
`Unregister`) has an interface name `com.redhat.RHSM1.<role>` and an object path
`/com/redhat/RHSM1/<role>`.
- The two name tables are built by a `reduce` that writes `acc[n] = …` onto an
  Immutable.js `Map`. That assignment creates a plain JavaScript property and no
  map entry, while the lookup `_getSig` reads entries with `get`.
- The model keeps the two apart (`Endpoints.ImmutableMap.entries` and
  `props`). So every lookup misses, and `getRHSMIfc` / `getRHSMObj` answer with
  their fallback expression.
- The contracts state the resulting string whatever the lookup returns, as
  long as the table holds only canonical names. This covers the real, empty
  table.
- `Endpoints.RHSMTables` is the module initialisation: both tables, and the
  twelve `*_IFC` / `*_OBJ` constants.

**Services and the registration stream.**
- `Services.BaseService` keeps a registry, a proxy and a logger. It derives its
  readiness signal from one `wait()` on the proxy.
- `Services.RegisterService` opens an anonymous private proxy on a socket
  address, with the fixed options `{superuser: 'require', bus: 'none',
  address}`.
- `Services.RegisterServerService.Start` builds the registration stream,
  stores it and its descriptor, publishes the descriptor once to the dispatch
  registry and returns the stream.

The stream is cold, as an rxjs `Observable` is: building it calls nothing.
Each subscription runs the chain afresh:
1. wait for the server proxy;
2. `Start(lang)`;
3. open a `RegisterService` on the returned socket;
4. wait on its proxy;
5. `Register(org, user, pw, opts, connect)`;
6. emit the result.

The transport is an event source. `Pipeline.Next` is the chain's reaction to
one event, and `Pipeline.Replay` folds a sequence of events into a stage and a
history of actions. `Pipeline.Subscription` runs the chain against recording
fake proxies (`Bus.Proxy`), and its event methods are proved against `Next`
and `Replay`.

The private proxy is waited on twice:
- once by the `BaseService` constructor that `RegisterService` calls;
- once more by the chain's own `regServ.proxy.wait()`.

The model records both calls.

## Model

| member | source | states |
|---|---|---|
| Endpoints.ImmutableMap.Empty | cockpit/src/types/cockpit.types.ts:247 | `IMap<string, string>()` starts with no entries and no properties. |
| Endpoints.GetSig | cockpit/src/types/cockpit.types.ts:255 | The lookup is defined exactly when the table has an entry for the role, and it then returns that entry. An empty table yields `undefined` for every role. |
| Endpoints.Reduce | cockpit/src/types/cockpit.types.ts:244-253 | The table builder assigns every listed role its signature as a property. Properties it does not write stay as they were. It adds no map entry and returns the accumulator it was given. |
| Endpoints.WrittenStep | cockpit/src/types/cockpit.types.ts:244-247 | One more `acc[n] = …` keeps the invariant: the keys written so far are the listed roles, each holds its signature, and older properties are kept. |
| Endpoints.GetRHSMIfc | cockpit/src/types/cockpit.types.ts:255-260 | If the table holds only canonical interface names, the result is `com.redhat.RHSM1.` followed by the role, whether the lookup hits or falls back. |
| Endpoints.GetRHSMObj | cockpit/src/types/cockpit.types.ts:262-265 | If the table holds only canonical object paths, the result is `/com/redhat/RHSM1/` followed by the role, whether the lookup hits or falls back. |
| Endpoints.InterfaceLiteral | cockpit/src/types/cockpit.types.ts:225 | The service name, a dot and the role spell `com.redhat.RHSM1.<role>`. |
| Endpoints.ObjectPathLiteral | cockpit/src/types/cockpit.types.ts:224 | A slash, the segments joined by slashes, a slash and the role spell `/com/redhat/RHSM1/<role>`. |
| Endpoints.JoinedSegments | cockpit/src/types/cockpit.types.ts:224-225 | The segments joined by dots are the service-name literal, and joined by slashes they are `com/redhat/RHSM1`. |
| Endpoints.ObjectPathMirrorsInterface | cockpit/src/types/cockpit.types.ts:244-253 | A role's object path starts with `/` and equals `/` plus its interface name with every dot replaced by a slash. |
| Endpoints.Mirror | cockpit/src/types/cockpit.types.ts:246 | For any dot-free segments and name, the slash-built path is `/` plus the dot-built name with dots turned into slashes. |
| Endpoints.JoinMirror | cockpit/src/types/cockpit.types.ts:251 | Joining dot-free segments with dots and then turning dots into slashes is the same as joining them with slashes. |
| Endpoints.DotsToSlashesAppend | cockpit/src/types/cockpit.types.ts:251 | Turning dots into slashes distributes over concatenation. |
| Endpoints.RoleNameInjective | cockpit/src/types/cockpit.types.ts:226-232 | Distinct roles have distinct names, so keying the tables by role loses nothing. |
| Endpoints.EveryRoleListed | cockpit/src/types/cockpit.types.ts:233-241 | The role list contains every role of the union. |
| Endpoints.FullTableAgrees | cockpit/src/types/cockpit.types.ts:233-253 | A table written for every listed role maps each key to that key's signature. |
| Endpoints.RHSMTables.constructor | cockpit/src/types/cockpit.types.ts:244-279 | Both tables end up with every role as a property and no entry. Each of the twelve constants is `com.redhat.RHSM1.<role>` or `/com/redhat/RHSM1/<role>` for its role. |
| Bus.SocketDbusRequest | cockpit/src/types/cockpit.types.ts:182-185 | The name passes through unchanged. The options are exactly superuser `require`, bus `none` and address the socket, with no host and no track, so no well-known bus is selected. |
| Bus.RegisterCall | cockpit/src/types/cockpit.types.ts:151-153 | `Register` receives `org`, `user`, `pw`, `opts` and `connect` exactly as they are in the arguments. |
| Bus.Proxy.Wait | cockpit/src/types/cockpit.types.ts:114 | `wait()` is recorded once at the end of the proxy's call list, and its position names the returned promise. |
| Services.RegisterSocketInfo | cockpit/src/types/cockpit.types.ts:160-166 | The descriptor carries the given stream and the fixed fields: component `RegisterServerService`, stream name `register-socket`, type `string`, action `mounted`. |
| Services.DataStream.constructor | cockpit/src/types/cockpit.types.ts:139-157 | The stream keeps the readiness signal, the server proxy, the registration arguments and the defaults it is built over. Building it calls nothing. |
| Services.Dispatch.Register | cockpit/src/types/cockpit.types.ts:168 | Registering appends exactly the given descriptor to the registry. |
| Services.BaseService.constructor | cockpit/src/types/cockpit.types.ts:111-116 | Exactly one `wait()` is appended to the proxy's calls, and the readiness signal is that call's promise. A registry or logger that is not supplied falls back to the module-level one. |
| Services.RegisterService.constructor | cockpit/src/types/cockpit.types.ts:177-180 | The new service's proxy is a fresh anonymous (`null`-named) proxy on the socket with the fixed options. It has been waited on once, and it uses the module-level registry and logger. |
| Services.RegisterService.SocketDbus | cockpit/src/types/cockpit.types.ts:182-185 | Returns a fresh proxy opened with exactly the socket request for the given name, with no calls made on it. |
| Services.RegisterServerService.constructor | cockpit/src/types/cockpit.types.ts:133-136 | The base keeps the given proxy and module-level defaults, and the proxy is waited on once. No stream or descriptor is stored yet. |
| Services.RegisterServerService.Start | cockpit/src/types/cockpit.types.ts:138-170 | Returns a fresh stream over the readiness signal, the server proxy and the caller's arguments, and stores it as `dataStream`. Stores the fixed descriptor of that stream as `info` and appends it once to the registry. The server proxy gets no call. |
| Pipeline.Next | cockpit/src/types/cockpit.types.ts:139-157 | A finished chain ignores every event, and a rejection fails a running chain without issuing anything. Otherwise the chain stays put or moves exactly one stage forward. Every action it takes answers the event with exactly that event's data. |
| Pipeline.Replay | cockpit/src/types/cockpit.types.ts:139-157 | A fresh subscription waits for the server with an empty history. Its history holds at least one entry per event delivered. |
| Pipeline.ReplayRank | cockpit/src/types/cockpit.types.ts:139-157 | A chain that has not failed has moved at most one stage per event delivered. |
| Pipeline.ReplayStep | cockpit/src/types/cockpit.types.ts:139-157 | Replaying one more event applies `Next` once to the replayed trace. |
| Pipeline.ReplayJustified | cockpit/src/types/cockpit.types.ts:139-157 | In every history, `Start` follows only a server-ready event, with that moment's language. The private proxy is opened only after `Start` resolves, on exactly its socket and with no name. `Register` follows only private readiness, with the caller's arguments. A value is emitted only as `Register`'s result. |
| Pipeline.LatestEventAfter | cockpit/src/types/cockpit.types.ts:139-157 | The actions appended after an observed event all see that event as the latest one. |
| Pipeline.ReplayProgress | cockpit/src/types/cockpit.types.ts:139-157 | In every history, `Start`, opening the private proxy, `Register` and emitting each happen at most once, and each only if the one before it happened. A running or finished chain has done exactly the steps up to its stage. A failed chain has emitted nothing. |
| Pipeline.ProgressStep | cockpit/src/types/cockpit.types.ts:139-157 | A step that adds the effect of its new stage, or nothing, keeps the progress invariant. |
| Pipeline.StepCount | cockpit/src/types/cockpit.types.ts:139-157 | One step adds one occurrence of exactly the effect of the stage it advances to, and nothing when it does not advance. |
| Pipeline.CountAppend | cockpit/src/types/cockpit.types.ts:139-157 | Counting an effect distributes over concatenation of histories. |
| Pipeline.ReplayOrdered | cockpit/src/types/cockpit.types.ts:139-157 | In every history, the private proxy is opened after a `Start`, `Register` is issued after the proxy was opened, and a value is emitted after `Register`. |
| Pipeline.StepBacked | cockpit/src/types/cockpit.types.ts:139-157 | Under the progress invariant, everything one step does depends only on actions already in the history. |
| Pipeline.OrderedAppend | cockpit/src/types/cockpit.types.ts:139-157 | Appending actions whose prerequisites are already present keeps a history ordered. |
| Pipeline.CountWitness | cockpit/src/types/cockpit.types.ts:139-157 | A positive count of an effect has a position in the history that holds it. |
| Pipeline.QuietStep | cockpit/src/types/cockpit.types.ts:139-157 | An event delivered to a finished chain, or a rejection, does nothing and adds no effect. |
| Pipeline.TerminalAbsorbs | cockpit/src/types/cockpit.types.ts:139-157 | Once a chain has finished, no later events change its stage or add any effect. |
| Pipeline.FailureIsFinal | cockpit/src/types/cockpit.types.ts:139-157 | A rejection fails a running chain for good. Nothing is issued after it, so there is no retry, and no value is ever emitted. If the server's readiness or `Start` failed, no private proxy is ever opened. |
| Pipeline.AfterServerReady | cockpit/src/types/cockpit.types.ts:139-142 | After the server becomes ready, the history is exactly that event followed by `Start(lang)`. |
| Pipeline.AfterStartResolved | cockpit/src/types/cockpit.types.ts:143-151 | After `Start` resolves, the private proxy has been opened on exactly the returned socket and waited on twice. |
| Pipeline.AfterPrivateReady | cockpit/src/types/cockpit.types.ts:152-155 | After the private proxy is ready, `Register` has been issued with the caller's arguments. |
| Pipeline.SuccessfulRegistration | cockpit/src/types/cockpit.types.ts:139-157 | The four events of a successful run produce exactly these calls in this order, then complete with the registration result emitted once. |
| Pipeline.StepTo | cockpit/src/types/cockpit.types.ts:139-157 | From a known replayed trace and a known reaction, the next replayed trace is that reaction applied. |
| Pipeline.Advance | cockpit/src/types/cockpit.types.ts:139-157 | One event yields the next replayed trace. Afterwards a private proxy exists exactly if one existed before or `Start` just resolved while starting. |
| Pipeline.OpenedAfterStep | cockpit/src/types/cockpit.types.ts:143-151 | Under the progress invariant, a step leaves the private proxy unopened exactly when it was unopened and the step is not `Start` resolving while starting. |
| Pipeline.NextOpens | cockpit/src/types/cockpit.types.ts:143-151 | A step reaches the private-proxy stage exactly when `Start` resolves while the chain is starting. |
| Pipeline.Subscription.constructor | cockpit/src/types/cockpit.types.ts:139 | A fresh subscription waits for the server, with an empty history and no private service. |
| Pipeline.Subscription.OnServerReady | cockpit/src/types/cockpit.types.ts:139-142 | The run's stage and history follow `Next`. `Start(lang)` is added to the server proxy's calls only when the run was waiting for the server. |
| Pipeline.Subscription.OnStartResolved | cockpit/src/types/cockpit.types.ts:143-151 | The run's stage and history follow `Next`. When it was starting, a fresh `RegisterService` exists on exactly the returned socket, with the module-level registry, and its proxy has been waited on twice. Otherwise nothing is created. |
| Pipeline.OpenPrivate | cockpit/src/types/cockpit.types.ts:143-153 | A fresh `RegisterService` on exactly the given socket, with the module-level registry and logger. Its proxy has been waited on twice: once by its constructor, once by the chain. |
| Pipeline.Subscription.OnPrivateReady | cockpit/src/types/cockpit.types.ts:152-155 | The run's stage and history follow `Next`. When it was waiting on the private proxy, exactly `Register` with the caller's arguments is added to that proxy's calls. In any other stage the private proxy's calls stay as they were, so `Register` is never issued twice. The server proxy is untouched. |
| Pipeline.Subscription.OnRegisterResolved | cockpit/src/types/cockpit.types.ts:154-157 | The run's stage and history follow `Next`, so the result is emitted exactly when `Register` was pending. |
| Pipeline.Subscription.OnRejected | cockpit/src/types/cockpit.types.ts:139-157 | The run's stage follows `Next` and nothing is issued. |
| Scenarios.Mount | cockpit/src/types/cockpit.types.ts:133-169 | Building the server service and calling `start` once makes only the constructor's `wait()` and publishes exactly one fixed descriptor of the returned stream. |

## Left out

- `ConfigService` adds nothing to `BaseService`. `RegisterWithActivationKeys` and `Stop` are declared but never called.
- The interface and type declarations (`DBusProxy`, the `RegisterOptions*` records, `Cockpit`) have no behaviour. `DBusOptions` appears only as the options record of `Bus.ProxyRequest`.
- The `SubManSvc` / `SubManIfcs` / `SubManObjs` constants are not used by the modelled code.
- `cockpit/src/libs/cockpit.helpers.ts` is not part of this model. Its `socketDbus` repeats `RegisterService.socketDbus`.
- `cockpit/src/libs/service-to-stream.ts` is not part of this model. It only builds module-level singletons on the live bus.
- The build configuration and the integration tests are not part of this model.
- rxjs (`Observable`, `mergeMap`, `fromPromise`) and the `cockpit.dbus` transport are replaced by events delivered to `Pipeline.Subscription` and by recording proxies.
- Scheduling, the settling of promises and concurrency between subscriptions are not modelled. Neither is the asynchronous hand-off between the two `wait()` calls on the private proxy.
- `navigator.language` is a parameter: the `lang` of the server-ready event, read at the moment the server becomes ready.
- Logging (`this.logger.info`, `console.log`) is diagnostic only. `Services.Logger` has no state.
- Timeouts, cancellation, unsubscription and disposal of the private proxy do not exist in the code and are not modelled.
- Pipeline.Next: an event that does not fit the current stage, other than a rejection, is ignored. In the code such an event cannot arrive, since each step waits on one promise.
- Endpoints.ImmutableMap: keyed by role instead of by string. Every key the code writes or reads is a role name, and names are distinct (`Endpoints.RoleNameInjective`). Each table gets its own object. In the program, Immutable.js's `Map()` returns its one shared empty map, so `RHSMIfcs` and `RHSMObjs` are the same object, and its properties end up holding the object paths. `Endpoints.RHSMTables.constructor`'s `fresh` tables and the interface names it states for the interface table's properties hold only under this one-object-per-table simplification. The lookups and the twelve constants are unaffected, because `get` never reads those properties.
- Endpoints.GetRHSMIfc and Endpoints.GetRHSMObj: the result is stated only for tables whose entries are canonical. A table with arbitrary entries would return them as they are. The tables the code builds have no entries.
- Services.RegisterServerService.Start and Bus.RegisterCall: the stream keeps a value copy of the arguments taken when `start` is called. In the program, `args` is captured by reference and destructured only when `Start` resolves, and `opts` and `connect` reach `Register` as the same objects. A caller that changes `args` after `start` therefore changes what `Register` receives, and the model does not capture that aliasing.
- Services.BaseService: the fields are constants, since the code never reassigns them after construction. `RegisterServerService`'s own `this.proxy = proxy` is the same proxy the base already holds.
