/** One proxied Socket.IO connection as `SocketIoGateway.handleConnection` wires it: the
    inbound (browser-facing) socket and the target socket are abstract handles, and every
    call the gateway makes on them is appended to an action log. */
module ProxyGateway {
  import opened StringUtil

  /** The reserved event that asks the gateway to drop the target connection. */
  const InternalDisconnect: string := "sparrow_internal_disconnect"

  /** One element of the JSON `headers` array; `NullEntry` is a `null` element, which the
      destructuring `{ key, value }` in the reducer rejects with a TypeError. */
  datatype HeaderEntry = Entry(key: string, value: string) | NullEntry

  /** What `JSON.parse` makes of the `headers` query value. */
  datatype ParsedHeaders = Unparsable | NotAList | HeaderList(entries: seq<HeaderEntry>)

  /** The handshake query; `None` is an absent parameter. */
  datatype Handshake = Handshake(
    targetUrl: Option<string>,
    namespace: Option<string>,
    headers: Option<ParsedHeaders>)

  /** Outcome of `connectToTargetSocketIO`: a socket, a null/undefined result, or a throw. */
  datatype ConnectOutcome = Connected | ConnectedNoSocket | ConnectFailed

  /** What reaches the inbound socket's handlers; `args` is the event's whole argument list. */
  datatype InboundSignal =
    | Event(name: string, args: seq<string>, emitThrows: bool)
    | Disconnect

  /** Calls the gateway makes on the two sockets. */
  datatype Action =
    | DisconnectInbound
    | ConnectTarget(url: string, namespace: string, headers: map<string, string>)
    | Emit(event: string, args: seq<string>)
    | EmitFirst(event: string, arg: Option<string>)
    | DisconnectTarget

  /** Which handlers are registered on the inbound socket once `handleConnection` returns. */
  datatype Wiring = NotWired | Wired(targetPresent: bool)

  /** The header `reduce`: `acc[key] = value` for each element in order, failing on a null element. */
  function HeaderMap(es: seq<HeaderEntry>): Option<map<string, string>>
  {
    if es == [] then Some(map[])
    else
      match HeaderMap(es[..|es| - 1])
      case None => None
      case Some(m) =>
        match es[|es| - 1]
        case NullEntry => None
        case Entry(k, v) => Some(m[k := v])
  }

  /** The header map handed to the connector, or `None` when parsing or the fold throws
      (an absent `headers` parameter makes `JSON.parse(undefined)` throw). */
  function ForwardedHeaders(h: Option<ParsedHeaders>): Option<map<string, string>>
  {
    match h
    case Some(HeaderList(es)) => HeaderMap(es)
    case _ => None
  }

  /** The calls `handleConnection` itself makes, and the handlers it leaves registered. */
  function Setup(h: Handshake, outcome: ConnectOutcome): (Wiring, seq<Action>)
  {
    if !Truthy(h.targetUrl) || !Truthy(h.namespace) then (NotWired, [DisconnectInbound])
    else
      match ForwardedHeaders(h.headers)
      case None => (NotWired, [DisconnectInbound])
      case Some(m) =>
        var connect := ConnectTarget(h.targetUrl.value, h.namespace.value, m);
        match outcome
        case ConnectFailed => (NotWired, [connect, DisconnectInbound])
        case Connected => (Wired(true), [connect])
        case ConnectedNoSocket => (Wired(false), [connect])
  }

  /** The argument the `onAny` listener's second parameter receives: the event's first
      argument, `undefined` (`None`) when it has none. */
  function FirstArgument(args: seq<string>): Option<string>
  {
    if args == [] then None else Some(args[0])
  }

  /** The `onAny` handler as written: the listener `(event, args) => emit(event, args)`
      binds only the first argument, so the target receives that one (or `undefined`). */
  function ReactAsWritten(w: Wiring, s: InboundSignal): seq<Action>
  {
    match w
    case NotWired => []
    case Wired(present) =>
      if !present then []
      else
        match s
        case Disconnect => [DisconnectTarget]
        case Event(name, args, emitThrows) =>
          if name == InternalDisconnect then [DisconnectTarget]
          else if emitThrows then []
          else [EmitFirst(name, FirstArgument(args))]
  }

  /** An event with two arguments reaches the target with its first argument only, while
      the forwarding the handler is meant to do passes both. */
  lemma FirstArgumentOnly()
    ensures ReactAsWritten(Wired(true), Event("e", ["a", "b"], false)) == [EmitFirst("e", Some("a"))]
    ensures React(Wired(true), Event("e", ["a", "b"], false)) == [Emit("e", ["a", "b"])]
    ensures ReactAsWritten(Wired(true), Event("e", ["a", "b"], false)) != React(Wired(true), Event("e", ["a", "b"], false))
  {
  }

  /** The signals on which the `onAny` handler reaches its `emit` call. */
  predicate ReachesEmit(w: Wiring, s: InboundSignal)
  {
    w == Wired(true) && s.Event? && s.name != InternalDisconnect && !s.emitThrows
  }

  /** The two handlers differ only in the emit itself: where it is reached, the as-written
      call carries the first argument and the corrected one the whole list; everywhere else
      (the reserved event, disconnects, throwing emits, no target) they coincide. */
  lemma AsWrittenAgreesOutsideEmit(w: Wiring, s: InboundSignal)
    ensures ReachesEmit(w, s) ==> React(w, s) == [Emit(s.name, s.args)]
    ensures ReachesEmit(w, s) ==> ReactAsWritten(w, s) == [EmitFirst(s.name, FirstArgument(s.args))]
    ensures !ReachesEmit(w, s) ==> React(w, s) == ReactAsWritten(w, s)
  {
  }

  /** What the registered `disconnect` and `onAny` handlers do with one signal, with the
      event forwarded with all its arguments (`emit(event, ...args)`). A throwing emit is
      caught and logged, so it adds no call. */
  function React(w: Wiring, s: InboundSignal): seq<Action>
  {
    match w
    case NotWired => []
    case Wired(present) =>
      if !present then []
      else
        match s
        case Disconnect => [DisconnectTarget]
        case Event(name, args, emitThrows) =>
          if name == InternalDisconnect then [DisconnectTarget]
          else if emitThrows then []
          else [Emit(name, args)]
  }

  /** The calls made for a sequence of inbound signals, in order. */
  function Relay(w: Wiring, sigs: seq<InboundSignal>): seq<Action>
  {
    if sigs == [] then [] else React(w, sigs[0]) + Relay(w, sigs[1..])
  }

  /** The whole log of one session: setup, then the handlers' reactions. */
  function Run(h: Handshake, outcome: ConnectOutcome, sigs: seq<InboundSignal>): seq<Action>
  {
    var (w, setup) := Setup(h, outcome);
    setup + Relay(w, sigs)
  }

  /** The inbound events that are forwarded: every event except the reserved one, minus
      those whose emit threw. */
  function Forwardable(sigs: seq<InboundSignal>): seq<(string, seq<string>)>
  {
    if sigs == [] then []
    else
      var rest := Forwardable(sigs[1..]);
      match sigs[0]
      case Disconnect => rest
      case Event(name, args, emitThrows) =>
        if name == InternalDisconnect || emitThrows then rest else [(name, args)] + rest
  }

  /** The `(event, args)` pairs of the `Emit` calls in a log, in order. */
  function Emitted(log: seq<Action>): seq<(string, seq<string>)>
  {
    if log == [] then []
    else
      var rest := Emitted(log[1..]);
      match log[0]
      case Emit(e, a) => [(e, a)] + rest
      case _ => rest
  }

  /** The header fold as the gateway runs it, with a mutable accumulator. */
  method FoldHeaders(es: seq<HeaderEntry>) returns (r: Option<map<string, string>>)
    ensures r == HeaderMap(es)
  {
    var acc: map<string, string> := map[];
    var i := 0;
    while i < |es|
      invariant 0 <= i <= |es|
      invariant HeaderMap(es[..i]) == Some(acc)
    {
      assert es[..i + 1][..i] == es[..i];
      match es[i]
      case NullEntry =>
        NullAbortsFold(es, i);
        return None;
      case Entry(k, v) =>
        acc := acc[k := v];
      i := i + 1;
    }
    assert es[..i] == es;
    r := Some(acc);
  }

  /** Once the fold meets a null element, it fails whatever follows. */
  lemma {:induction false} NullAbortsFold(es: seq<HeaderEntry>, i: nat)
    requires i < |es| && es[i] == NullEntry
    ensures HeaderMap(es) == None
    decreases |es|
  {
    if i < |es| - 1 {
      assert es[..|es| - 1][i] == es[i];
      NullAbortsFold(es[..|es| - 1], i);
    }
  }

  /** The header fold fails exactly when some element of the list is null. */
  lemma {:induction false} HeaderMapFailsIffNull(es: seq<HeaderEntry>)
    ensures HeaderMap(es).None? <==> exists i :: 0 <= i < |es| && es[i].NullEntry?
    decreases |es|
  {
    if es != [] {
      var init := es[..|es| - 1];
      HeaderMapFailsIffNull(init);
      assert forall i :: 0 <= i < |init| ==> init[i] == es[i];
      if HeaderMap(init).None? {
        var i :| 0 <= i < |init| && init[i].NullEntry?;
        assert es[i].NullEntry?;
      }
    }
  }

  /** A successful fold holds exactly the keys of the list. */
  lemma {:induction false} HeaderMapKeys(es: seq<HeaderEntry>)
    requires HeaderMap(es).Some?
    ensures forall k :: k in HeaderMap(es).value <==> exists i :: 0 <= i < |es| && es[i].Entry? && es[i].key == k
    decreases |es|
  {
    if es != [] {
      var init := es[..|es| - 1];
      HeaderMapKeys(init);
      var m := HeaderMap(init).value;
      var last := es[|es| - 1];
      forall k
        ensures k in HeaderMap(es).value <==> exists i :: 0 <= i < |es| && es[i].Entry? && es[i].key == k
      {
        if k in m && k != last.key {
          var i :| 0 <= i < |init| && init[i].Entry? && init[i].key == k;
          assert es[i] == init[i];
        }
        if exists i :: 0 <= i < |es| && es[i].Entry? && es[i].key == k {
          var i :| 0 <= i < |es| && es[i].Entry? && es[i].key == k;
          if i < |init| {
            assert init[i] == es[i];
          }
        }
      }
    }
  }

  /** In a successful fold every key is mapped to the value of its last occurrence. */
  lemma {:induction false} HeaderMapLastWins(es: seq<HeaderEntry>, i: nat)
    requires HeaderMap(es).Some?
    requires i < |es| && es[i].Entry?
    requires forall j :: i < j < |es| && es[j].Entry? ==> es[j].key != es[i].key
    ensures es[i].key in HeaderMap(es).value && HeaderMap(es).value[es[i].key] == es[i].value
    decreases |es|
  {
    var init := es[..|es| - 1];
    if i < |es| - 1 {
      assert init[i] == es[i];
      assert forall j :: i < j < |init| ==> init[j] == es[j];
      HeaderMapLastWins(init, i);
    }
  }

  /** With duplicate keys the later value is the one forwarded. */
  lemma DuplicateHeaderLastWins(k: string, v1: string, v2: string)
    ensures HeaderMap([Entry(k, v1), Entry(k, v2)]) == Some(map[k := v2])
  {
    assert [Entry(k, v1), Entry(k, v2)][..1] == [Entry(k, v1)];
    assert [Entry(k, v1)][..0] == [];
    assert HeaderMap([Entry(k, v1)]) == Some(map[k := v1]);
    assert map[k := v1][k := v2] == map[k := v2];
  }

  /** Without registered handlers, or with a null target, no signal produces a call. */
  lemma {:induction false} SilentWithoutTarget(w: Wiring, sigs: seq<InboundSignal>)
    requires w == NotWired || w == Wired(false)
    ensures Relay(w, sigs) == []
    decreases |sigs|
  {
    if sigs != [] {
      SilentWithoutTarget(w, sigs[1..]);
    }
  }

  /** A missing or empty `targetUrl` or `namespace`: the inbound socket is disconnected and
      nothing else ever happens, in particular no target connection is attempted. */
  lemma MissingParametersOnlyDisconnect(h: Handshake, outcome: ConnectOutcome, sigs: seq<InboundSignal>)
    requires !Truthy(h.targetUrl) || !Truthy(h.namespace)
    ensures Run(h, outcome, sigs) == [DisconnectInbound]
  {
    SilentWithoutTarget(NotWired, sigs);
  }

  /** Headers that cannot be parsed or folded (including an absent `headers` parameter and a
      non-array value): the inbound socket is disconnected and no handler is registered. */
  lemma HeaderFailureOnlyDisconnects(h: Handshake, outcome: ConnectOutcome, sigs: seq<InboundSignal>)
    requires Truthy(h.targetUrl) && Truthy(h.namespace)
    requires ForwardedHeaders(h.headers).None?
    ensures Setup(h, outcome).0 == NotWired
    ensures Run(h, outcome, sigs) == [DisconnectInbound]
  {
    SilentWithoutTarget(NotWired, sigs);
  }

  /** A throwing connector: the attempt is followed by an inbound disconnect and nothing else. */
  lemma ConnectFailureDisconnects(h: Handshake, sigs: seq<InboundSignal>)
    requires Truthy(h.targetUrl) && Truthy(h.namespace)
    requires ForwardedHeaders(h.headers).Some?
    ensures Run(h, ConnectFailed, sigs)
      == [ConnectTarget(h.targetUrl.value, h.namespace.value, ForwardedHeaders(h.headers).value), DisconnectInbound]
  {
    SilentWithoutTarget(NotWired, sigs);
  }

  /** The connector receives exactly the validated url, namespace and folded headers. */
  lemma ConnectReceivesHandshake(h: Handshake, outcome: ConnectOutcome, sigs: seq<InboundSignal>)
    requires Truthy(h.targetUrl) && Truthy(h.namespace)
    requires ForwardedHeaders(h.headers).Some?
    ensures |Run(h, outcome, sigs)| >= 1
    ensures Run(h, outcome, sigs)[0]
      == ConnectTarget(h.targetUrl.value, h.namespace.value, ForwardedHeaders(h.headers).value)
  {
  }

  lemma {:induction false} EmittedAppend(a: seq<Action>, b: seq<Action>)
    ensures Emitted(a + b) == Emitted(a) + Emitted(b)
    decreases |a|
  {
    if a != [] {
      assert (a + b)[0] == a[0] && (a + b)[1..] == a[1..] + b;
      EmittedAppend(a[1..], b);
      var head := if a[0].Emit? then [(a[0].event, a[0].args)] else [];
      assert Emitted(a) == head + Emitted(a[1..]);
      assert Emitted(a + b) == head + (Emitted(a[1..]) + Emitted(b));
    } else {
      assert a + b == b;
    }
  }

  /** With a live target, the emitted events are exactly the forwardable inbound events,
      each once, in arrival order, with name and arguments unchanged. */
  lemma {:induction false} RelayForwardsInOrder(sigs: seq<InboundSignal>)
    ensures Emitted(Relay(Wired(true), sigs)) == Forwardable(sigs)
    decreases |sigs|
  {
    if sigs != [] {
      RelayForwardsInOrder(sigs[1..]);
      EmittedAppend(React(Wired(true), sigs[0]), Relay(Wired(true), sigs[1..]));
    }
  }

  /** The reserved event never reaches the target, whatever the session does. */
  lemma {:induction false} InternalDisconnectNeverEmitted(w: Wiring, sigs: seq<InboundSignal>)
    ensures forall a :: a in Relay(w, sigs) && a.Emit? ==> a.event != InternalDisconnect
    decreases |sigs|
  {
    if sigs != [] {
      InternalDisconnectNeverEmitted(w, sigs[1..]);
    }
  }

  /** With a live target, the target is disconnected iff some signal is an inbound
      disconnect or the reserved event. */
  lemma {:induction false} TargetDisconnectedIff(sigs: seq<InboundSignal>)
    ensures DisconnectTarget in Relay(Wired(true), sigs)
      <==> exists i :: 0 <= i < |sigs| && (sigs[i].Disconnect? || sigs[i].name == InternalDisconnect)
    decreases |sigs|
  {
    if sigs != [] {
      TargetDisconnectedIff(sigs[1..]);
      assert forall i :: 1 <= i < |sigs| ==> sigs[i] == sigs[1..][i - 1];
      if exists i :: 1 <= i < |sigs| && (sigs[i].Disconnect? || sigs[i].name == InternalDisconnect) {
        var i :| 1 <= i < |sigs| && (sigs[i].Disconnect? || sigs[i].name == InternalDisconnect);
        assert sigs[1..][i - 1] == sigs[i];
      }
    }
  }

  /** Handlers stay registered: the reaction to later signals does not depend on earlier
      ones, including emits that threw. */
  lemma {:induction false} RelayAppend(w: Wiring, a: seq<InboundSignal>, b: seq<InboundSignal>)
    ensures Relay(w, a + b) == Relay(w, a) + Relay(w, b)
    decreases |a|
  {
    if a != [] {
      assert (a + b)[0] == a[0] && (a + b)[1..] == a[1..] + b;
      RelayAppend(w, a[1..], b);
      assert Relay(w, a + b) == React(w, a[0]) + (Relay(w, a[1..]) + Relay(w, b));
    } else {
      assert a + b == b;
    }
  }

  /** One proxied connection. `log` records the calls made on the two sockets. */
  class ProxySession {
    var wiring: Wiring
    var log: seq<Action>

    constructor ()
      ensures wiring == NotWired && log == []
    {
      wiring := NotWired;
      log := [];
    }

    /** `handleConnection`: validate, fold the headers, connect, register the handlers. */
    method HandleConnection(h: Handshake, outcome: ConnectOutcome)
      requires wiring == NotWired && log == []
      modifies this
      ensures (wiring, log) == Setup(h, outcome)
    {
      if !Truthy(h.targetUrl) || !Truthy(h.namespace) {
        log := [DisconnectInbound];
        return;
      }
      if !(h.headers.Some? && h.headers.value.HeaderList?) {
        log := [DisconnectInbound];
        return;
      }
      var folded := FoldHeaders(h.headers.value.entries);
      if folded.None? {
        log := [DisconnectInbound];
        return;
      }
      var connect := ConnectTarget(h.targetUrl.value, h.namespace.value, folded.value);
      match outcome
      case ConnectFailed =>
        log := [connect, DisconnectInbound];
      case Connected =>
        log := [connect];
        wiring := Wired(true);
      case ConnectedNoSocket =>
        log := [connect];
        wiring := Wired(false);
    }

    /** The `onAny` handler for one inbound event. */
    method OnInboundEvent(name: string, args: seq<string>, emitThrows: bool)
      modifies this
      ensures wiring == old(wiring)
      ensures log == old(log) + React(wiring, Event(name, args, emitThrows))
    {
      if wiring.Wired? && wiring.targetPresent {
        if name == InternalDisconnect {
          log := log + [DisconnectTarget];
        } else if !emitThrows {
          log := log + [Emit(name, args)];
        }
      }
    }

    /** The `disconnect` handler of the inbound socket. */
    method OnInboundDisconnect()
      modifies this
      ensures wiring == old(wiring)
      ensures log == old(log) + React(wiring, Disconnect)
    {
      if wiring.Wired? && wiring.targetPresent {
        log := log + [DisconnectTarget];
      }
    }
  }
}
