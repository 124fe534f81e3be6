/**
 * The registration chain of `RegisterServerService.start`: wait for the
 * server proxy, call `Start(lang)`, open a private proxy on the returned
 * socket, wait for it, call `Register(...)`, emit the result. The transport
 * is a source of events; `Next` is the chain's reaction to one event, and
 * `Subscription` runs it against the fake proxies.
 */
module Pipeline {
  import opened Maybe
  import opened Bus
  import opened Services

  /** What the transport can report to a running chain. */
  datatype Event =
    | ServerReady(lang: string)         // the server's readiness promise resolved; `lang` is the browser language then
    | StartResolved(socket: string)     // `Start` resolved with a socket address
    | PrivateReady                      // the private proxy's `wait()` resolved
    | RegisterResolved(value: string)   // `Register` resolved
    | Rejected(error: string)           // the promise the chain is waiting on was rejected

  /** Where a chain is. */
  datatype Stage =
    | AwaitingServerReady
    | Starting
    | AwaitingPrivateReady
    | Registering
    | Done(value: string)
    | Failed(error: string)
  {
    predicate Terminal()
    {
      Done? || Failed?
    }

    /** The position along the chain; a failure has none of its own. */
    function Rank(): nat
    {
      match this
      case AwaitingServerReady => 0
      case Starting => 1
      case AwaitingPrivateReady => 2
      case Registering => 3
      case Done(_) => 4
      case Failed(_) => 5
    }
  }

  /** One line of a chain's history: an event it observed or something it did. */
  datatype Entry =
    | Observed(event: Event)
    | OnServer(call: Call)            // a call on the server proxy
    | Opened(request: ProxyRequest)   // a private proxy opened by `cockpit.dbus`
    | OnPrivate(call: Call)           // a call on the private proxy
    | Emitted(value: string)          // a value emitted on the stream

  /** The stage after one event and what the chain did in response. */
  datatype Step = Step(next: Stage, out: seq<Entry>)

  /** `en` is a correct response to `e`: each action with exactly the data the event carries. */
  predicate Answers(en: Entry, e: Event, args: RegisterArgs)
  {
    match en
    case Observed(_) => false
    case OnServer(c) => e.ServerReady? && c == Start(e.lang)
    case Opened(req) => e.StartResolved? && req == SocketDbusRequest(None, e.socket)
    case OnPrivate(c) => (e.StartResolved? && c == Call.Wait) || (e == PrivateReady && c == RegisterCall(args))
    case Emitted(v) => e == RegisterResolved(v)
  }

  /**
   * The chain's reaction to one event. A finished chain ignores everything; a
   * rejection fails a running chain and issues nothing; otherwise the chain
   * moves at most one step forward, and everything it does answers the event.
   */
  function Next(s: Stage, e: Event, args: RegisterArgs): (r: Step)
    ensures s.Terminal() ==> r == Step(s, [])
    ensures !s.Terminal() && e.Rejected? ==> r == Step(Failed(e.error), [])
    ensures r.next == s || r.next.Failed? || r.out != []
    ensures r.out != [] ==> !r.next.Failed? && r.next.Rank() == s.Rank() + 1
    ensures forall k :: 0 <= k < |r.out| ==> Answers(r.out[k], e, args)
  {
    if s.Terminal() then Step(s, [])
    else if e.Rejected? then Step(Failed(e.error), [])
    else
      match s
      case AwaitingServerReady =>
        if e.ServerReady? then Step(Starting, [OnServer(Start(e.lang))]) else Step(s, [])
      case Starting =>
        if e.StartResolved? then
          Step(AwaitingPrivateReady, [Opened(SocketDbusRequest(None, e.socket)), OnPrivate(Call.Wait), OnPrivate(Call.Wait)])
        else Step(s, [])
      case AwaitingPrivateReady =>
        if e == PrivateReady then Step(Registering, [OnPrivate(RegisterCall(args))]) else Step(s, [])
      case Registering =>
        if e.RegisterResolved? then Step(Done(e.value), [Emitted(e.value)]) else Step(s, [])
  }

  /** A chain's stage and history. */
  datatype Trace = Trace(stage: Stage, log: seq<Entry>)

  /** The chain after a sequence of events, starting from a fresh subscription. */
  function Replay(events: seq<Event>, args: RegisterArgs): (r: Trace)
    ensures events == [] ==> r == Trace(AwaitingServerReady, [])
    ensures |events| <= |r.log|
  {
    if events == [] then Trace(AwaitingServerReady, [])
    else
      var t := Replay(events[..|events| - 1], args);
      var e := events[|events| - 1];
      var st := Next(t.stage, e, args);
      Trace(st.next, t.log + [Observed(e)] + st.out)
  }

  lemma ReplayStep(events: seq<Event>, e: Event, args: RegisterArgs)
    ensures Replay(events + [e], args)
         == Trace(Next(Replay(events, args).stage, e, args).next,
                  Replay(events, args).log + [Observed(e)] + Next(Replay(events, args).stage, e, args).out)
  {
    assert (events + [e])[..|events + [e]| - 1] == events;
  }

  /** A chain that has not failed has moved at most one stage per event. */
  lemma {:induction false} ReplayRank(events: seq<Event>, args: RegisterArgs)
    ensures !Replay(events, args).stage.Failed? ==> Replay(events, args).stage.Rank() <= |events|
  {
    if events != [] {
      ReplayRank(events[..|events| - 1], args);
    }
  }

  // ---------------------------------------------------------------------
  // Causality: every action answers the event observed just before it.
  // ---------------------------------------------------------------------

  /** The most recent event in a history. */
  function LatestEvent(log: seq<Entry>): Option<Event>
  {
    if log == [] then None
    else if log[|log| - 1].Observed? then Some(log[|log| - 1].event)
    else LatestEvent(log[..|log| - 1])
  }

  /** Every action in the history answers the latest event observed before it. */
  ghost predicate Justified(log: seq<Entry>, args: RegisterArgs)
  {
    forall i | 0 <= i < |log| && !log[i].Observed? ::
      LatestEvent(log[..i]).Some? && Answers(log[i], LatestEvent(log[..i]).value, args)
  }

  lemma {:induction false} LatestEventAfter(pre: seq<Entry>, e: Event, out: seq<Entry>, j: nat)
    requires j <= |out|
    requires forall k :: 0 <= k < |out| ==> !out[k].Observed?
    ensures LatestEvent(pre + [Observed(e)] + out[..j]) == Some(e)
  {
    var h := pre + [Observed(e)] + out[..j];
    if j > 0 {
      assert h[..|h| - 1] == pre + [Observed(e)] + out[..j - 1];
      assert h[|h| - 1] == out[j - 1];
      LatestEventAfter(pre, e, out, j - 1);
    } else {
      assert h[|h| - 1] == Observed(e);
    }
  }

  /**
   * `Start` is issued only in answer to the server becoming ready, with the
   * language of that moment; the private proxy is opened only in answer to
   * `Start` resolving, with exactly the returned socket and no name;
   * `Register` is issued only in answer to the private proxy becoming ready,
   * with the caller's arguments unmodified; a value is emitted only in answer
   * to `Register` resolving, and it is that result.
   */
  lemma {:induction false} ReplayJustified(events: seq<Event>, args: RegisterArgs)
    ensures Justified(Replay(events, args).log, args)
  {
    if events != [] {
      var pre := events[..|events| - 1];
      var e := events[|events| - 1];
      ReplayJustified(pre, args);
      var t := Replay(pre, args);
      var st := Next(t.stage, e, args);
      var log := t.log + [Observed(e)] + st.out;
      assert Replay(events, args).log == log;
      forall i | 0 <= i < |log| && !log[i].Observed?
        ensures LatestEvent(log[..i]).Some? && Answers(log[i], LatestEvent(log[..i]).value, args)
      {
        if i < |t.log| {
          assert log[..i] == t.log[..i];
          assert log[i] == t.log[i];
        } else {
          var j := i - |t.log| - 1;
          assert log[i] == st.out[j];
          assert log[..i] == t.log + [Observed(e)] + st.out[..j];
          forall k | 0 <= k < |st.out| ensures !st.out[k].Observed? {
            assert Answers(st.out[k], e, args);
          }
          LatestEventAfter(t.log, e, st.out, j);
        }
      }
    }
  }

  // ---------------------------------------------------------------------
  // Progress: what has been done is fixed by the stage; nothing twice.
  // ---------------------------------------------------------------------

  /** The actions that change the world, in chain order. */
  datatype Effect = StartIssued | ProxyOpened | RegisterIssued | ValueEmitted
  {
    /** The stage the chain reaches by doing this. */
    function Rank(): nat
    {
      match this
      case StartIssued => 1
      case ProxyOpened => 2
      case RegisterIssued => 3
      case ValueEmitted => 4
    }
  }

  predicate Is(en: Entry, k: Effect)
  {
    match k
    case StartIssued => en.OnServer? && en.call.Start?
    case ProxyOpened => en.Opened?
    case RegisterIssued => en.OnPrivate? && en.call.Register?
    case ValueEmitted => en.Emitted?
  }

  /** How often `k` occurs in a history. */
  function Count(log: seq<Entry>, k: Effect): nat
  {
    if log == [] then 0
    else Count(log[..|log| - 1], k) + (if Is(log[|log| - 1], k) then 1 else 0)
  }

  lemma {:induction false} CountAppend(a: seq<Entry>, b: seq<Entry>, k: Effect)
    ensures Count(a + b, k) == Count(a, k) + Count(b, k)
  {
    if b == [] {
      assert a + b == a;
    } else {
      assert (a + b)[..|a + b| - 1] == a + b[..|b| - 1];
      CountAppend(a, b[..|b| - 1], k);
    }
  }

  /** One step does `k` exactly when it moves the chain onto `k`'s stage. */
  lemma StepCount(s: Stage, e: Event, args: RegisterArgs, k: Effect)
    ensures var st := Next(s, e, args);
      Count([Observed(e)] + st.out, k)
        == if st.out != [] && k.Rank() == st.next.Rank() then 1 else 0
  {
    var st := Next(s, e, args);
    CountAppend([Observed(e)], st.out, k);
    CountSingle(Observed(e), k);
    if |st.out| == 1 {
      CountSingle(st.out[0], k);
      assert st.out == [st.out[0]];
    } else if |st.out| == 3 {
      assert st.out == [st.out[0]] + [st.out[1], st.out[2]];
      assert [st.out[1], st.out[2]] == [st.out[1]] + [st.out[2]];
      CountAppend([st.out[0]], [st.out[1], st.out[2]], k);
      CountAppend([st.out[1]], [st.out[2]], k);
      CountSingle(st.out[0], k);
      CountSingle(st.out[1], k);
      CountSingle(st.out[2], k);
    }
  }

  lemma CountSingle(en: Entry, k: Effect)
    ensures Count([en], k) == if Is(en, k) then 1 else 0
  {
    assert [en][..0] == [];
  }

  /** The progress invariant of a chain. */
  ghost predicate Progress(t: Trace)
  {
    && (forall k :: Count(t.log, k) <= 1)
    && Count(t.log, ValueEmitted) <= Count(t.log, RegisterIssued)
    && Count(t.log, RegisterIssued) <= Count(t.log, ProxyOpened)
    && Count(t.log, ProxyOpened) <= Count(t.log, StartIssued)
    && (!t.stage.Failed? ==> forall k :: Count(t.log, k) == if k.Rank() <= t.stage.Rank() then 1 else 0)
    && (t.stage.Failed? ==> Count(t.log, ValueEmitted) == 0)
  }

  /**
   * No step is ever retried and none is skipped: each of `Start`, opening the
   * private proxy, `Register` and emitting happens at most once, each only
   * after the one before it, and a running or finished chain has done exactly
   * the steps up to its stage. A failed chain has emitted nothing.
   */
  lemma {:induction false} ReplayProgress(events: seq<Event>, args: RegisterArgs)
    ensures Progress(Replay(events, args))
  {
    if events != [] {
      var pre := events[..|events| - 1];
      var e := events[|events| - 1];
      ReplayProgress(pre, args);
      var t := Replay(pre, args);
      var st := Next(t.stage, e, args);
      var t' := Replay(events, args);
      assert t' == Trace(st.next, t.log + ([Observed(e)] + st.out));
      forall k
        ensures Count(t'.log, k) == Count(t.log, k) + if st.out != [] && k.Rank() == st.next.Rank() then 1 else 0
      {
        CountAppend(t.log, [Observed(e)] + st.out, k);
        StepCount(t.stage, e, args, k);
      }
      ProgressStep(t, st, t');
    }
  }

  /** One step keeps the progress invariant. */
  lemma ProgressStep(t: Trace, st: Step, t': Trace)
    requires Progress(t)
    requires st.next == t.stage || st.next.Failed? || st.out != []
    requires st.out != [] ==> !st.next.Failed? && st.next.Rank() == t.stage.Rank() + 1
    requires t.stage.Terminal() ==> st == Step(t.stage, [])
    requires t'.stage == st.next
    requires forall k :: Count(t'.log, k) == Count(t.log, k) + if st.out != [] && k.Rank() == st.next.Rank() then 1 else 0
    ensures Progress(t')
  {
    if st.out == [] {
      assert forall k :: Count(t'.log, k) == Count(t.log, k);
      if st.next.Failed? && !t.stage.Failed? {
        assert Count(t.log, ValueEmitted) == if ValueEmitted.Rank() <= t.stage.Rank() then 1 else 0;
      } else if !st.next.Failed? {
        forall k ensures Count(t'.log, k) == if k.Rank() <= t'.stage.Rank() then 1 else 0 {
          assert Count(t.log, k) == if k.Rank() <= t.stage.Rank() then 1 else 0;
        }
      }
    } else {
      forall k ensures Count(t'.log, k) == if k.Rank() <= t'.stage.Rank() then 1 else 0 {
        assert Count(t.log, k) == if k.Rank() <= t.stage.Rank() then 1 else 0;
      }
    }
  }

  /** Every action in the history comes after the action it depends on. */
  ghost predicate Ordered(log: seq<Entry>)
  {
    forall i | 0 <= i < |log| ::
      && (Is(log[i], ProxyOpened) ==> exists j :: 0 <= j < i && Is(log[j], StartIssued))
      && (Is(log[i], RegisterIssued) ==> exists j :: 0 <= j < i && Is(log[j], ProxyOpened))
      && (Is(log[i], ValueEmitted) ==> exists j :: 0 <= j < i && Is(log[j], RegisterIssued))
  }

  lemma {:induction false} CountWitness(log: seq<Entry>, k: Effect)
    requires Count(log, k) > 0
    ensures exists j :: 0 <= j < |log| && Is(log[j], k)
  {
    if !Is(log[|log| - 1], k) {
      CountWitness(log[..|log| - 1], k);
      var j :| 0 <= j < |log| - 1 && Is(log[..|log| - 1][j], k);
      assert log[j] == log[..|log| - 1][j];
    }
  }

  /**
   * The private proxy is opened only after `Start` was issued, `Register` only
   * after the private proxy was opened, and a value only after `Register`.
   */
  lemma {:induction false} ReplayOrdered(events: seq<Event>, args: RegisterArgs)
    ensures Ordered(Replay(events, args).log)
  {
    if events != [] {
      var pre := events[..|events| - 1];
      var e := events[|events| - 1];
      ReplayOrdered(pre, args);
      ReplayProgress(pre, args);
      var t := Replay(pre, args);
      var st := Next(t.stage, e, args);
      var log := t.log + [Observed(e)] + st.out;
      assert Replay(events, args).log == log;
      StepBacked(t, e, args);
      var ext := [Observed(e)] + st.out;
      forall i | 0 <= i < |ext|
        ensures Backed(t.log, ext[i])
      {
        if i > 0 {
          assert ext[i] in st.out;
        }
      }
      assert log == t.log + ext;
      OrderedAppend(t.log, ext);
    }
  }

  /** Whatever one step does depends only on what the history before it already holds. */
  lemma StepBacked(t: Trace, e: Event, args: RegisterArgs)
    requires Progress(t)
    ensures forall en :: en in Next(t.stage, e, args).out ==> Backed(t.log, en)
  {
    var st := Next(t.stage, e, args);
    if st.out != [] {
      forall k: Effect | k.Rank() < st.next.Rank()
        ensures exists j :: 0 <= j < |t.log| && Is(t.log[j], k)
      {
        CountWitness(t.log, k);
      }
      forall en | en in st.out
        ensures Backed(t.log, en)
      {
        assert Answers(en, e, args);
      }
    }
  }

  /** What `en` depends on already appears in `log`. */
  ghost predicate Backed(log: seq<Entry>, en: Entry)
  {
    && (Is(en, ProxyOpened) ==> exists j :: 0 <= j < |log| && Is(log[j], StartIssued))
    && (Is(en, RegisterIssued) ==> exists j :: 0 <= j < |log| && Is(log[j], ProxyOpened))
    && (Is(en, ValueEmitted) ==> exists j :: 0 <= j < |log| && Is(log[j], RegisterIssued))
  }

  /** An ordered history stays ordered when everything appended depends only on what it already holds. */
  lemma OrderedAppend(log: seq<Entry>, ext: seq<Entry>)
    requires Ordered(log)
    requires forall i :: 0 <= i < |ext| ==> Backed(log, ext[i])
    ensures Ordered(log + ext)
  {
    var all := log + ext;
    forall i | 0 <= i < |all|
      ensures Is(all[i], ProxyOpened) ==> exists j :: 0 <= j < i && Is(all[j], StartIssued)
      ensures Is(all[i], RegisterIssued) ==> exists j :: 0 <= j < i && Is(all[j], ProxyOpened)
      ensures Is(all[i], ValueEmitted) ==> exists j :: 0 <= j < i && Is(all[j], RegisterIssued)
    {
      if i < |log| {
        assert all[i] == log[i];
        forall j | 0 <= j < i ensures all[j] == log[j] { }
      } else {
        assert all[i] == ext[i - |log|];
        assert Backed(log, ext[i - |log|]);
        forall j | 0 <= j < |log| ensures all[j] == log[j] { }
      }
    }
  }

  // ---------------------------------------------------------------------
  // Failure: terminal, silent, and never retried.
  // ---------------------------------------------------------------------

  /** A finished chain stays as it is: later events change neither its stage nor what it has done. */
  lemma {:induction false} TerminalAbsorbs(pre: seq<Event>, post: seq<Event>, args: RegisterArgs)
    requires Replay(pre, args).stage.Terminal()
    ensures Replay(pre + post, args).stage == Replay(pre, args).stage
    ensures forall k :: Count(Replay(pre + post, args).log, k) == Count(Replay(pre, args).log, k)
  {
    if post == [] {
      assert pre + post == pre;
    } else {
      var p := post[..|post| - 1];
      var e := post[|post| - 1];
      TerminalAbsorbs(pre, p, args);
      assert pre + post == (pre + p) + [e];
      ReplayStep(pre + p, e, args);
      QuietStep(Replay(pre + p, args), e, args);
    }
  }

  /** A step that issues nothing: only the observation is added, so no count changes. */
  lemma QuietStep(t: Trace, e: Event, args: RegisterArgs)
    requires t.stage.Terminal() || e.Rejected?
    ensures var st := Next(t.stage, e, args);
      && st.out == []
      && forall k :: Count(t.log + [Observed(e)] + st.out, k) == Count(t.log, k)
  {
    var st := Next(t.stage, e, args);
    assert t.log + [Observed(e)] + st.out == t.log + [Observed(e)];
    forall k ensures Count(t.log + [Observed(e)], k) == Count(t.log, k) {
      CountAppend(t.log, [Observed(e)], k);
      CountSingle(Observed(e), k);
    }
  }

  /**
   * A rejection ends a running chain with that error, whatever follows: no
   * value is ever emitted and nothing more is issued. When the server's
   * readiness or `Start` is what failed, no private proxy is ever opened.
   */
  lemma FailureIsFinal(pre: seq<Event>, error: string, post: seq<Event>, args: RegisterArgs)
    requires !Replay(pre, args).stage.Terminal()
    ensures Replay(pre + [Rejected(error)] + post, args).stage == Failed(error)
    ensures forall k :: Count(Replay(pre + [Rejected(error)] + post, args).log, k) == Count(Replay(pre, args).log, k)
    ensures Count(Replay(pre + [Rejected(error)] + post, args).log, ValueEmitted) == 0
    ensures Replay(pre, args).stage.Rank() <= 1 ==>
              Count(Replay(pre + [Rejected(error)] + post, args).log, ProxyOpened) == 0
  {
    var t := Replay(pre, args);
    ReplayStep(pre, Rejected(error), args);
    ReplayProgress(pre, args);
    QuietStep(t, Rejected(error), args);
    TerminalAbsorbs(pre + [Rejected(error)], post, args);
    assert Count(t.log, ValueEmitted) == 0;
  }

  /** After the server becomes ready, `Start` has been called with that moment's language. */
  lemma AfterServerReady(lang: string, args: RegisterArgs)
    ensures Replay([ServerReady(lang)], args)
         == Trace(Starting, [Observed(ServerReady(lang)), OnServer(Start(lang))])
  {
    var sr := ServerReady(lang);
    StepTo([], sr, args, Trace(AwaitingServerReady, []), Step(Starting, [OnServer(Start(lang))]));
    assert [] + [sr] == [sr];
  }

  /** After `Start` resolves, the private proxy is open on the returned socket and waited on twice. */
  lemma AfterStartResolved(lang: string, socket: string, args: RegisterArgs)
    ensures Replay([ServerReady(lang), StartResolved(socket)], args)
         == Trace(AwaitingPrivateReady,
                  [ Observed(ServerReady(lang)), OnServer(Start(lang)),
                    Observed(StartResolved(socket)), Opened(SocketDbusRequest(None, socket)),
                    OnPrivate(Call.Wait), OnPrivate(Call.Wait) ])
  {
    var sr, sk := ServerReady(lang), StartResolved(socket);
    var out := [Opened(SocketDbusRequest(None, socket)), OnPrivate(Call.Wait), OnPrivate(Call.Wait)];
    AfterServerReady(lang, args);
    StepTo([sr], sk, args, Replay([sr], args), Step(AwaitingPrivateReady, out));
    assert [sr] + [sk] == [sr, sk];
  }

  /** After the private proxy is ready, `Register` has been called with the caller's arguments. */
  lemma AfterPrivateReady(lang: string, socket: string, args: RegisterArgs)
    ensures Replay([ServerReady(lang), StartResolved(socket), PrivateReady], args)
         == Trace(Registering,
                  [ Observed(ServerReady(lang)), OnServer(Start(lang)),
                    Observed(StartResolved(socket)), Opened(SocketDbusRequest(None, socket)),
                    OnPrivate(Call.Wait), OnPrivate(Call.Wait),
                    Observed(PrivateReady), OnPrivate(RegisterCall(args)) ])
  {
    var sr, sk := ServerReady(lang), StartResolved(socket);
    AfterStartResolved(lang, socket, args);
    StepTo([sr, sk], PrivateReady, args, Replay([sr, sk], args), Step(Registering, [OnPrivate(RegisterCall(args))]));
    assert [sr, sk] + [PrivateReady] == [sr, sk, PrivateReady];
  }

  /**
   * The registration scenario end to end: the chain answers the four events
   * with exactly these calls, in this order, and emits the registration
   * result once.
   */
  lemma SuccessfulRegistration(lang: string, socket: string, consumer: string, args: RegisterArgs)
    ensures Replay([ServerReady(lang), StartResolved(socket), PrivateReady, RegisterResolved(consumer)], args)
         == Trace(Done(consumer),
                  [ Observed(ServerReady(lang)), OnServer(Start(lang)),
                    Observed(StartResolved(socket)), Opened(SocketDbusRequest(None, socket)),
                    OnPrivate(Call.Wait), OnPrivate(Call.Wait),
                    Observed(PrivateReady), OnPrivate(RegisterCall(args)),
                    Observed(RegisterResolved(consumer)), Emitted(consumer) ])
  {
    var sr, sk, rr := ServerReady(lang), StartResolved(socket), RegisterResolved(consumer);
    AfterPrivateReady(lang, socket, args);
    StepTo([sr, sk, PrivateReady], rr, args, Replay([sr, sk, PrivateReady], args), Step(Done(consumer), [Emitted(consumer)]));
    assert [sr, sk, PrivateReady] + [rr] == [sr, sk, PrivateReady, rr];
  }

  /** One step from a known trace, by a known reaction. */
  lemma StepTo(events: seq<Event>, e: Event, args: RegisterArgs, t: Trace, st: Step)
    requires Replay(events, args) == t
    requires Next(t.stage, e, args) == st
    ensures Replay(events + [e], args) == Trace(st.next, t.log + [Observed(e)] + st.out)
  {
    ReplayStep(events, e, args);
  }

  /** One event: the next trace, and whether a private proxy has been opened by then. */
  lemma Advance(events: seq<Event>, e: Event, args: RegisterArgs, stage: Stage, log: seq<Entry>)
    requires Replay(events, args) == Trace(stage, log)
    ensures var st := Next(stage, e, args);
      && Replay(events + [e], args) == Trace(st.next, log + [Observed(e)] + st.out)
      && ((Count(log + [Observed(e)] + st.out, ProxyOpened) == 0)
          <==> (Count(log, ProxyOpened) == 0 && !(stage == Starting && e.StartResolved?)))
      && (stage == AwaitingPrivateReady ==> Count(log, ProxyOpened) != 0)
  {
    var t := Replay(events, args);
    ReplayStep(events, e, args);
    ReplayProgress(events, args);
    OpenedAfterStep(t, e, args);
    if stage == AwaitingPrivateReady {
      assert Count(log, ProxyOpened) == if ProxyOpened.Rank() <= AwaitingPrivateReady.Rank() then 1 else 0;
    }
  }

  /** A step opens the private proxy exactly when `Start` resolves while the chain is starting. */
  lemma OpenedAfterStep(t: Trace, e: Event, args: RegisterArgs)
    requires Progress(t)
    ensures var st := Next(t.stage, e, args);
      (Count(t.log + [Observed(e)] + st.out, ProxyOpened) == 0)
        <==> (Count(t.log, ProxyOpened) == 0 && !(t.stage == Starting && e.StartResolved?))
  {
    var st := Next(t.stage, e, args);
    StepCount(t.stage, e, args, ProxyOpened);
    assert t.log + [Observed(e)] + st.out == t.log + ([Observed(e)] + st.out);
    CountAppend(t.log, [Observed(e)] + st.out, ProxyOpened);
    NextOpens(t.stage, e, args);
    if t.stage == Starting {
      assert Count(t.log, ProxyOpened) == if ProxyOpened.Rank() <= Starting.Rank() then 1 else 0;
    }
  }

  /** The server becoming ready moves only a chain that waits for it, to `Start`. */
  lemma NextOnServerReady(s: Stage, lang: string, args: RegisterArgs)
    ensures Next(s, ServerReady(lang), args)
         == if s == AwaitingServerReady then Step(Starting, [OnServer(Start(lang))]) else Step(s, [])
  {
  }

  /** `Start` resolving moves only a starting chain, which opens the private proxy on that socket. */
  lemma NextOnStartResolved(s: Stage, socket: string, args: RegisterArgs)
    ensures Next(s, StartResolved(socket), args)
         == if s == Starting
            then Step(AwaitingPrivateReady, [Opened(SocketDbusRequest(None, socket)), OnPrivate(Call.Wait), OnPrivate(Call.Wait)])
            else Step(s, [])
  {
  }

  /** `Register` resolving moves only a registering chain, which emits the result. */
  lemma NextOnRegisterResolved(s: Stage, value: string, args: RegisterArgs)
    ensures Next(s, RegisterResolved(value), args)
         == if s == Registering then Step(Done(value), [Emitted(value)]) else Step(s, [])
  {
  }

  /** The private proxy becoming ready moves only a chain that waits for it, to `Register`. */
  lemma NextOnPrivateReady(s: Stage, args: RegisterArgs)
    ensures Next(s, PrivateReady, args)
         == if s == AwaitingPrivateReady then Step(Registering, [OnPrivate(RegisterCall(args))]) else Step(s, [])
  {
  }

  /** A step reaches the private proxy's stage exactly when `Start` resolves while the chain is starting. */
  lemma NextOpens(s: Stage, e: Event, args: RegisterArgs)
    ensures var st := Next(s, e, args);
      (st.out != [] && ProxyOpened.Rank() == st.next.Rank()) <==> (s == Starting && e.StartResolved?)
  {
    var st := Next(s, e, args);
    if st.out != [] && st.next.Rank() == 2 {
      assert s.Rank() == 1;
    }
  }

  // ---------------------------------------------------------------------
  // One subscription to the registration stream, run against the proxies.
  // ---------------------------------------------------------------------

  /**
   * The second step of the chain once `Start` has resolved: a private
   * service on exactly that socket (its constructor waits once), then the
   * chain's own `wait()` on its proxy.
   */
  method OpenPrivate(socket: string, defaults: Defaults) returns (rs: RegisterService)
    ensures fresh(rs) && fresh(rs.base) && fresh(rs.base.proxy)
    ensures rs.base.proxy.origin == Dbus(SocketDbusRequest(None, socket))
    ensures rs.base.proxy.calls == [Call.Wait, Call.Wait]
    ensures rs.base.dispatch == defaults.dispatch && rs.base.logger == defaults.logger
  {
    rs := new RegisterService(socket, defaults);
    var _ := rs.base.proxy.Wait();
  }

  /**
   * One run of the chain: what a subscription to the stream returned by
   * `start` sets going. Each method delivers one event from the transport and
   * makes the calls the chain makes in answer.
   */
  class Subscription {
    const stream: DataStream
    var stage: Stage
    var log: seq<Entry>
    var regServ: RegisterService?    // the private service, once `Start` has resolved
    ghost var events: seq<Event>

    /**
     * The stage and history are those the events delivered so far produce;
     * the private service exists exactly when a private proxy was opened, and
     * its proxy is not the server's.
     */
    ghost predicate Valid()
      reads this
    {
      && Trace(stage, log) == Replay(events, stream.args)
      && (regServ == null <==> Count(log, ProxyOpened) == 0)
      && (regServ != null ==> regServ.base.proxy != stream.server)
    }

    constructor (stream: DataStream)
      ensures Valid() && this.stream == stream
      ensures events == [] && stage == AwaitingServerReady && log == [] && regServ == null
    {
      this.stream := stream;
      stage := AwaitingServerReady;
      log := [];
      regServ := null;
      events := [];
    }

    /** The server became ready: call `Start` with the current language. */
    method OnServerReady(lang: string)
      requires Valid()
      modifies this, stream.server
      ensures Valid() && events == old(events) + [ServerReady(lang)]
      ensures stage == Next(old(stage), ServerReady(lang), stream.args).next
      ensures log == old(log) + [Observed(ServerReady(lang))] + Next(old(stage), ServerReady(lang), stream.args).out
      ensures stream.server.calls
           == old(stream.server.calls) + if old(stage) == AwaitingServerReady then [Start(lang)] else []
      ensures regServ == old(regServ)
    {
      var e := ServerReady(lang);
      Advance(events, e, stream.args, stage, log);
      NextOnServerReady(stage, lang, stream.args);
      events := events + [e];
      if stage == AwaitingServerReady {
        stream.server.Invoke(Start(lang));
        stage, log := Starting, log + [Observed(e)] + [OnServer(Start(lang))];
      } else {
        log := log + [Observed(e)] + [];
      }
    }

    /**
     * `Start` resolved with a socket: open the private service on exactly that
     * socket (its constructor waits once) and wait on its proxy again.
     */
    method OnStartResolved(socket: string)
      requires Valid()
      modifies this
      ensures Valid() && events == old(events) + [StartResolved(socket)]
      ensures stage == Next(old(stage), StartResolved(socket), stream.args).next
      ensures log == old(log) + [Observed(StartResolved(socket))] + Next(old(stage), StartResolved(socket), stream.args).out
      ensures old(stage) == Starting ==>
                && fresh(regServ) && fresh(regServ.base.proxy)
                && regServ.base.proxy.origin == Dbus(SocketDbusRequest(None, socket))
                && regServ.base.proxy.calls == [Call.Wait, Call.Wait]
                && regServ.base.dispatch == stream.defaults.dispatch
      ensures old(stage) != Starting ==> regServ == old(regServ)
    {
      var e := StartResolved(socket);
      Advance(events, e, stream.args, stage, log);
      NextOnStartResolved(stage, socket, stream.args);
      events := events + [e];
      if stage == Starting {
        var rs := OpenPrivate(socket, stream.defaults);
        regServ := rs;
        stage := AwaitingPrivateReady;
        log := log + [Observed(e)] + [Opened(SocketDbusRequest(None, socket)), OnPrivate(Call.Wait), OnPrivate(Call.Wait)];
      } else {
        log := log + [Observed(e)] + [];
      }
    }

    /** The private proxy became ready: call `Register` with the caller's arguments. */
    method OnPrivateReady()
      requires Valid()
      modifies this, if regServ != null then {regServ.base.proxy} else {}
      ensures Valid() && events == old(events) + [PrivateReady]
      ensures stage == Next(old(stage), PrivateReady, stream.args).next
      ensures log == old(log) + [Observed(PrivateReady)] + Next(old(stage), PrivateReady, stream.args).out
      ensures regServ == old(regServ)
      ensures old(stage) == AwaitingPrivateReady ==>
                regServ != null && regServ.base.proxy.calls == old(regServ.base.proxy.calls) + [RegisterCall(stream.args)]
      ensures old(stage) != AwaitingPrivateReady && regServ != null ==>
                regServ.base.proxy.calls == old(regServ.base.proxy.calls)
      ensures unchanged(stream.server)
    {
      var e := PrivateReady;
      Advance(events, e, stream.args, stage, log);
      NextOnPrivateReady(stage, stream.args);
      events := events + [e];
      if stage == AwaitingPrivateReady {
        var c := RegisterCall(stream.args);
        regServ.base.proxy.Invoke(c);
        stage, log := Registering, log + [Observed(e)] + [OnPrivate(c)];
      } else {
        log := log + [Observed(e)] + [];
      }
    }

    /** `Register` resolved: emit its result and complete. */
    method OnRegisterResolved(value: string)
      requires Valid()
      modifies this
      ensures Valid() && events == old(events) + [RegisterResolved(value)]
      ensures stage == Next(old(stage), RegisterResolved(value), stream.args).next
      ensures log == old(log) + [Observed(RegisterResolved(value))] + Next(old(stage), RegisterResolved(value), stream.args).out
      ensures regServ == old(regServ)
    {
      var e := RegisterResolved(value);
      Advance(events, e, stream.args, stage, log);
      NextOnRegisterResolved(stage, value, stream.args);
      events := events + [e];
      if stage == Registering {
        stage, log := Done(value), log + [Observed(e)] + [Emitted(value)];
      } else {
        log := log + [Observed(e)] + [];
      }
    }

    /** The promise the chain waits on was rejected: the stream fails with that error. */
    method OnRejected(error: string)
      requires Valid()
      modifies this
      ensures Valid() && events == old(events) + [Rejected(error)]
      ensures stage == Next(old(stage), Rejected(error), stream.args).next
      ensures log == old(log) + [Observed(Rejected(error))]
      ensures regServ == old(regServ)
    {
      var e := Rejected(error);
      Advance(events, e, stream.args, stage, log);
      ghost var st := Next(stage, e, stream.args);
      if !stage.Terminal() {
        stage := Failed(error);
      }
      assert st == Step(stage, []);
      events := events + [e];
      log := log + [Observed(e)] + [];
    }
  }
}
