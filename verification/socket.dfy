/** The `useWebSocket` client as a state machine: every public operation,
    transport event and timer firing is a pure step from one state to the
    next, together with the trace of effects it performs. */
module Socket {
  import opened Wrappers
  import opened JsValues
  import opened Frames
  import opened Registry
  import opened Router

  datatype Status = Closed | Connecting | Open

  /** The construction-time settings, fixed for the life of a client. */
  datatype Config = Config(url: Option<string>, protocols: seq<string>, interval: nat)

  /** The closed-over variables of one client: the `status` and `data`
      refs, whether `wsRef` holds a transport, `explicitlyClosed`, the
      registry, and the timers as counts of live ones. */
  datatype State = State(
    config: Config,
    status: Status,
    hasTransport: bool,
    explicitlyClosed: bool,
    pendingReconnects: nat,
    heartbeatTimers: nat,
    registry: Registry,
    last: Option<InFrame>)

  /** Observable effects, in the order they happen. Hook entries record the
      call of the optional user hook at that point. */
  datatype Effect =
    | Transmit(sent: OutFrame)                       // handed to `ws.send(JSON.stringify(frame))`
    | CreateTransport(url: string, protocols: seq<string>)
    | CloseTransport(code: int, reason: Option<string>)
    | CancelHeartbeat                                 // `clearInterval(timer)`
    | StartHeartbeat(interval: nat)                   // `setInterval(ping, interval)`
    | ScheduleReconnect(interval: nat)                // `setTimeout(_init, interval)`
    | ConnectedHook
    | DisconnectedHook(closeEvent: nat)
    | ErrorHook(error: nat)
    | TransportErrorCaptured(error: nat, context: Option<string>)
    | ChannelErrorCaptured(frame: InFrame, channel: Value)
    | CallbackInvoked(callback: CallbackId, frame: InFrame)
    | MessageHook(frame: InFrame)

  datatype Transition = Transition(next: State, effects: seq<Effect>)

  /** A step that changes nothing and does nothing. */
  function Idle(s: State): Transition {
    Transition(s, [])
  }

  const DefaultCloseCode: int := 1000
  const DefaultInterval: nat := 30 * 1000

  /** The client invariant: the registry invariant, at most one live
      heartbeat interval (exactly one once a transport has been created),
      and CONNECTING only with a transport. */
  ghost predicate Inv(s: State) {
    && Valid(s.registry)
    && s.heartbeatTimers <= 1
    && (s.hasTransport ==> s.heartbeatTimers == 1)
    && (s.status == Connecting ==> s.hasTransport)
  }

  /** A frame given to `wsRef.value?.send` is handed to the transport's
      `send` whenever a transport handle exists, whatever its status; what
      the transport then does with it (throw while CONNECTING, drop while
      CLOSING) is outside the model. */
  function Transmitted(s: State, f: OutFrame): seq<Effect> {
    if s.hasTransport then [Transmit(f)] else []
  }

  /** `send(frame, callBack)`: addChannel bookkeeping registers the channel
      unless already present, removeChannel bookkeeping deletes it, then the
      frame goes to the transport if there is one. Returns true. */
  function Send(s: State, f: OutFrame, callback: Option<CallbackId>): (r: (Transition, bool))
    ensures r.1
    ensures r.0.next == s.(registry := r.0.next.registry)
    ensures r.0.effects == Transmitted(s, f)
    ensures KindOf(f) == AddRequest && Has(s.registry, f.channel) ==> r.0.next.registry == s.registry
    ensures KindOf(f) == AddRequest && !Has(s.registry, f.channel) ==>
              r.0.next.registry == s.registry + [Entry(f.channel, f, callback)]
    ensures KindOf(f) == RemoveRequest ==> !Has(r.0.next.registry, f.channel)
    ensures KindOf(f) == RemoveRequest && !Has(s.registry, f.channel) ==> r.0.next.registry == s.registry
    ensures KindOf(f) == RemoveRequest && Distinct(s.registry) ==>
              forall i :: 0 <= i < |s.registry| && s.registry[i].key == f.channel ==>
                r.0.next.registry == s.registry[..i] + s.registry[i + 1..]
    ensures KindOf(f) == Plain ==> r.0.next.registry == s.registry
    ensures Inv(s) ==> Inv(r.0.next)
  {
    var reg := s.registry;
    var reg' :=
      match KindOf(f)
      case AddRequest => if Has(reg, f.channel) then reg else reg + [Entry(f.channel, f, callback)]
      case RemoveRequest => if Has(reg, f.channel) then Delete(reg, f.channel) else reg
      case Plain => reg;
    SendFacts(reg, f, callback);
    (Transition(s.(registry := reg'), Transmitted(s, f)), true)
  }

  /** The registry facts behind `Send`'s contract. */
  lemma SendFacts(reg: Registry, f: OutFrame, callback: Option<CallbackId>)
    ensures KindOf(f) == RemoveRequest && Distinct(reg) ==>
              forall i :: 0 <= i < |reg| && reg[i].key == f.channel ==>
                Has(reg, f.channel) && Delete(reg, f.channel) == reg[..i] + reg[i + 1..]
    ensures Valid(reg) && KindOf(f) == AddRequest && !Has(reg, f.channel) ==>
              Valid(reg + [Entry(f.channel, f, callback)])
    ensures Valid(reg) ==> Valid(Delete(reg, f.channel))
  {
    if KindOf(f) == RemoveRequest && Distinct(reg) {
      forall i | 0 <= i < |reg| && reg[i].key == f.channel
        ensures Has(reg, f.channel) && Delete(reg, f.channel) == reg[..i] + reg[i + 1..]
      {
        HasAt(reg, i);
        DeleteAt(reg, i);
      }
    }
    if Valid(reg) && KindOf(f) == AddRequest && !Has(reg, f.channel) {
      AppendValid(reg, Entry(f.channel, f, callback));
    }
    if Valid(reg) {
      DeleteValid(reg, f.channel);
    }
  }

  /** `subscribe(channel, callback)`: a channel already registered changes
      nothing; a new one is sent as an addChannel request, which appends
      its entry. */
  function Subscribe(s: State, channel: Value, callback: Option<CallbackId>): (r: Transition)
    ensures Has(s.registry, channel) ==> r == Idle(s)
    ensures !Has(s.registry, channel) ==>
              && r.next == s.(registry := s.registry + [Entry(channel, AddChannelFrame(channel), callback)])
              && r.effects == Transmitted(s, AddChannelFrame(channel))
    ensures Inv(s) ==> Inv(r.next)
  {
    AddChannelFrameIsAdd(channel);
    if !Has(s.registry, channel) then Send(s, AddChannelFrame(channel), callback).0 else Idle(s)
  }

  /** `unsubscribe(channel)`: an unregistered channel changes nothing; a
      registered one is sent as a removeChannel request and deleted. */
  function Unsubscribe(s: State, channel: Value): (r: Transition)
    ensures !Has(s.registry, channel) ==> r == Idle(s)
    ensures Has(s.registry, channel) ==>
              && r.next == s.(registry := r.next.registry)
              && r.effects == Transmitted(s, RemoveChannelFrame(channel))
              && !Has(r.next.registry, channel)
    ensures Has(s.registry, channel) && Distinct(s.registry) ==>
              forall i :: 0 <= i < |s.registry| && s.registry[i].key == channel ==>
                r.next.registry == s.registry[..i] + s.registry[i + 1..]
    ensures Inv(s) ==> Inv(r.next)
  {
    RemoveChannelFrameIsRemove(channel);
    if Has(s.registry, channel) then
      var t := Send(s, RemoveChannelFrame(channel), None).0;
      DeleteAbsent(t.next.registry, channel);
      Transition(t.next.(registry := Delete(t.next.registry, channel)), t.effects)
    else Idle(s)
  }

  /** `close(code, reason)`: nothing without a transport; otherwise the
      client is marked explicitly closed, the registry is emptied and the
      transport is asked to close. Status and timers are left alone. */
  function Close(s: State, code: Option<int>, reason: Option<string>): (r: Transition)
    ensures !s.hasTransport ==> r == Idle(s)
    ensures s.hasTransport ==>
              && r.next == s.(explicitlyClosed := true, registry := [])
              && r.effects == [CloseTransport(code.GetOr(DefaultCloseCode), reason)]
    ensures Inv(s) ==> Inv(r.next)
  {
    if !s.hasTransport then Idle(s)
    else
      Transition(s.(explicitlyClosed := true, registry := []),
                 [CloseTransport(code.GetOr(DefaultCloseCode), reason)])
  }

  /** `_init()`: unless explicitly closed or without url, a transport is
      created, the status becomes CONNECTING, and the heartbeat interval
      held in `timer` is cleared (when there is one) and started afresh. */
  function Init(s: State): (r: Transition)
    ensures s.explicitlyClosed || s.config.url.None? ==> r == Idle(s)
    ensures !s.explicitlyClosed && s.config.url.Some? ==>
              && r.next == s.(status := Connecting, hasTransport := true, heartbeatTimers := r.next.heartbeatTimers)
              && (s.heartbeatTimers <= 1 ==> r.next.heartbeatTimers == 1)
              && |r.effects| >= 2
              && r.effects[0] == CreateTransport(s.config.url.value, s.config.protocols)
              && r.effects[|r.effects| - 1] == StartHeartbeat(s.config.interval)
    ensures Inv(s) ==> Inv(r.next)
  {
    if s.explicitlyClosed || s.config.url.None? then Idle(s)
    else
      var cleared := if s.heartbeatTimers > 0 then s.heartbeatTimers - 1 else 0;
      Transition(
        s.(status := Connecting, hasTransport := true, heartbeatTimers := cleared + 1),
        [CreateTransport(s.config.url.value, s.config.protocols)]
          + (if s.heartbeatTimers > 0 then [CancelHeartbeat] else [])
          + [StartHeartbeat(s.config.interval)])
  }

  /** `open()`: `close()`, then clear `explicitlyClosed`, then `_init()`. */
  function OpenClient(s: State): (r: Transition)
    ensures s.hasTransport ==> r.next.registry == [] && |r.effects| >= 1 && r.effects[0] == CloseTransport(DefaultCloseCode, None)
    ensures !s.hasTransport ==> r.next.registry == s.registry
    ensures !r.next.explicitlyClosed
    ensures s.config.url.Some? ==> r.next.status == Connecting && r.next.hasTransport
    ensures s.config.url.None? ==> r.next.status == s.status && r.next.hasTransport == s.hasTransport
    ensures r.next.pendingReconnects == s.pendingReconnects && r.next.last == s.last && r.next.config == s.config
    ensures s.config.url.Some? ==> CreateTransport(s.config.url.value, s.config.protocols) in r.effects
    ensures Inv(s) ==> Inv(r.next)
  {
    var c := Close(s, None, None);
    var i := Init(c.next.(explicitlyClosed := false));
    Transition(i.next, c.effects + i.effects)
  }

  /** Replays `frames` through `send`, one after another, without callbacks. */
  function Replay(s: State, frames: seq<OutFrame>): (r: Transition)
    decreases |frames|
  {
    if frames == [] then Idle(s)
    else
      var t := Send(s, frames[0], None).0;
      var rest := Replay(t.next, frames[1..]);
      Transition(rest.next, t.effects + rest.effects)
  }

  /** The transport's open event: status OPEN, the `onConnected` hook, then
      every registered request frame is sent again in insertion order. */
  function OnOpen(s: State): (r: Transition)
    ensures r.next.status == Open
    ensures |r.effects| >= 1 && r.effects[0] == ConnectedHook
  {
    var s1 := s.(status := Open);
    var replay := if |s.registry| > 0 then Replay(s1, Requests(s.registry)) else Idle(s1);
    assert replay.next.status == Open by { ReplayKeepsStatus(s1, if |s.registry| > 0 then Requests(s.registry) else []); }
    Transition(replay.next, [ConnectedHook] + replay.effects)
  }

  /** Sending only touches the registry, so a replay keeps the status. */
  lemma {:induction false} ReplayKeepsStatus(s: State, frames: seq<OutFrame>)
    ensures Replay(s, frames).next.status == s.status
    decreases |frames|
  {
    if frames != [] {
      ReplayKeepsStatus(Send(s, frames[0], None).0.next, frames[1..]);
    }
  }

  /** The transport's close event: status CLOSED, the handle is dropped,
      the `onDisconnected` hook runs, and unless the client was explicitly
      closed one reconnect is scheduled. */
  function OnClose(s: State, closeEvent: nat): (r: Transition)
    ensures r.next.status == Closed && !r.next.hasTransport
    ensures r.next.registry == s.registry && r.next.explicitlyClosed == s.explicitlyClosed
    ensures r.next.pendingReconnects == s.pendingReconnects + (if s.explicitlyClosed then 0 else 1)
    ensures r.next == s.(status := Closed, hasTransport := false, pendingReconnects := r.next.pendingReconnects)
    ensures |r.effects| >= 1 && r.effects[0] == DisconnectedHook(closeEvent)
    ensures ScheduleReconnect(s.config.interval) in r.effects <==> !s.explicitlyClosed
    ensures Inv(s) ==> Inv(r.next)
  {
    var s1 := s.(status := Closed, hasTransport := false);
    if s.explicitlyClosed then Transition(s1, [DisconnectedHook(closeEvent)])
    else
      Transition(s1.(pendingReconnects := s.pendingReconnects + 1),
                 [DisconnectedHook(closeEvent), ScheduleReconnect(s.config.interval)])
  }

  /** The transport's error event: reported to `captureError` with the url,
      then to `onError`; no state changes. */
  function OnError(s: State, error: nat): (r: Transition)
    ensures r.next == s
    ensures r.effects == [TransportErrorCaptured(error, s.config.url), ErrorHook(error)]
  {
    Transition(s, [TransportErrorCaptured(error, s.config.url), ErrorHook(error)])
  }

  /** The effects of a delivery's channel-level action, for the original
      frame `f` and the frame `g` as delivered. */
  function ActionEffects(a: Action, f: InFrame, g: InFrame): seq<Effect> {
    match a
    case Silent => []
    case Invoke(cb) => [CallbackInvoked(cb, g)]
    case ReportError => [ChannelErrorCaptured(g, f.channel)]
  }

  /** The transport's message event, for an already parsed frame. */
  function OnMessage(s: State, f: InFrame): (r: Transition)
    ensures Truthy(f.tong) ==> r == Idle(s)
    ensures !Truthy(f.tong) ==>
              && r.next == s.(last := r.next.last)
              && r.next.last.Some?
              && |r.effects| >= 1
              && r.effects[|r.effects| - 1] == MessageHook(f)
              && (forall i :: 0 <= i < |r.effects| - 1 ==> !r.effects[i].MessageHook?)
  {
    match Route(s.registry, f)
    case Discarded => Idle(s)
    case Delivered(g, action) =>
      Transition(s.(last := Some(g)), ActionEffects(action, f, g) + [MessageHook(f)])
  }

  /** One pending reconnect timer fires and runs `_init()`; with none
      pending nothing can fire. */
  function ReconnectFired(s: State): (r: Transition)
    ensures s.pendingReconnects == 0 ==> r == Idle(s)
    ensures s.pendingReconnects > 0 ==> r == Init(s.(pendingReconnects := s.pendingReconnects - 1))
    ensures Inv(s) ==> Inv(r.next)
  {
    if s.pendingReconnects == 0 then Idle(s) else Init(s.(pendingReconnects := s.pendingReconnects - 1))
  }

  /** A heartbeat interval tick: `send(pingMessage(), false)`, which never
      touches the registry; with no live interval nothing ticks. */
  function HeartbeatTick(s: State, timestamp: string): (r: Transition)
    ensures r.next == s
    ensures s.heartbeatTimers == 0 ==> r.effects == []
    ensures s.heartbeatTimers > 0 ==> r.effects == Transmitted(s, PingFrame(timestamp))
  {
    if s.heartbeatTimers == 0 then Idle(s) else Send(s, PingFrame(timestamp), None).0
  }

  /** Every input the client reacts to. */
  datatype Event =
    | SendCall(outbound: OutFrame, callback: Option<CallbackId>)
    | SubscribeCall(channel: Value, callback: Option<CallbackId>)
    | UnsubscribeCall(channel: Value)
    | CloseCall(code: Option<int>, reason: Option<string>)
    | OpenCall
    | TransportOpen
    | TransportClose(closeEvent: nat)
    | TransportError(error: nat)
    | TransportMessage(frame: InFrame)
    | ReconnectTimer
    | HeartbeatTimer(timestamp: string)

  function Step(s: State, e: Event): Transition {
    match e
    case SendCall(f, cb) => Send(s, f, cb).0
    case SubscribeCall(ch, cb) => Subscribe(s, ch, cb)
    case UnsubscribeCall(ch) => Unsubscribe(s, ch)
    case CloseCall(code, reason) => Close(s, code, reason)
    case OpenCall => OpenClient(s)
    case TransportOpen => OnOpen(s)
    case TransportClose(ev) => OnClose(s, ev)
    case TransportError(err) => OnError(s, err)
    case TransportMessage(f) => OnMessage(s, f)
    case ReconnectTimer => ReconnectFired(s)
    case HeartbeatTimer(ts) => HeartbeatTick(s, ts)
  }

  /** A run of events from `s`: the final state and the concatenated trace. */
  function Run(s: State, events: seq<Event>): Transition
    decreases |events|
  {
    if events == [] then Idle(s)
    else
      var t := Step(s, events[0]);
      var rest := Run(t.next, events[1..]);
      Transition(rest.next, t.effects + rest.effects)
  }

  /** The options `useWebSocket` reads; a missing option takes its default. */
  datatype Options = Options(immediate: Option<bool>, protocols: Option<seq<string>>, interval: Option<nat>)

  /** The state right after the closures are set up, before any `open()`. */
  function Fresh(url: Option<string>, options: Options): State {
    State(Config(url, options.protocols.GetOr([]), options.interval.GetOr(DefaultInterval)),
          Closed, false, false, 0, 0, [], None)
  }

  /** `useWebSocket(url, options)`: set up, then `open()` when `immediate`
      (default true). */
  function Create(url: Option<string>, options: Options): (r: Transition)
    ensures Inv(r.next)
    ensures r.next.registry == [] && r.next.last.None?
    ensures !options.immediate.GetOr(true) ==> r.effects == [] && r.next.status == Closed
    ensures options.immediate.GetOr(true) && url.Some? ==>
              r.next.status == Connecting && |r.effects| >= 1 && r.effects[0] == CreateTransport(url.value, options.protocols.GetOr([]))
    ensures url.None? ==> r.effects == [] && r.next.status == Closed && !r.next.hasTransport
  {
    var s := Fresh(url, options);
    if options.immediate.GetOr(true) then OpenClient(s) else Idle(s)
  }
}
