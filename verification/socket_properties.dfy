/** Properties of the client that relate several steps: replay after the
    transport opens, the invariant over every event and every run, message
    outcomes, and the lifecycle scenarios the client is built for. */
module SocketProperties {
  import opened Wrappers
  import opened JsValues
  import opened Frames
  import opened Registry
  import opened Router
  import opened Socket

  /** The transmissions of `frames`, in order. */
  function Transmits(frames: seq<OutFrame>): seq<Effect> {
    seq(|frames|, i requires 0 <= i < |frames| => Transmit(frames[i]))
  }

  /** Replaying addChannel frames whose channels are all registered leaves
      the state as it is and transmits each frame once, in order (nothing
      when there is no transport). */
  lemma {:induction false} ReplayTransparent(s: State, frames: seq<OutFrame>)
    requires forall i :: 0 <= i < |frames| ==> KindOf(frames[i]) == AddRequest && Has(s.registry, frames[i].channel)
    ensures Replay(s, frames).next == s
    ensures Replay(s, frames).effects == (if s.hasTransport then Transmits(frames) else [])
    decreases |frames|
  {
    if frames != [] {
      var t := Send(s, frames[0], None).0;
      assert t.next == s;
      ReplayTransparent(s, frames[1..]);
      if s.hasTransport {
        assert [Transmit(frames[0])] + Transmits(frames[1..]) == Transmits(frames);
      }
    }
  }

  /** Every request frame of a valid registry is an addChannel request for a
      registered channel. */
  lemma RequestsRegistered(reg: Registry)
    requires Valid(reg)
    ensures forall i :: 0 <= i < |Requests(reg)| ==>
              KindOf(Requests(reg)[i]) == AddRequest && Has(reg, Requests(reg)[i].channel)
  {
    forall i | 0 <= i < |reg| ensures Has(reg, reg[i].key) {
      HasAt(reg, i);
    }
  }

  /** On the transport's open event the status becomes OPEN, `onConnected`
      runs, and then exactly the registered request frames are transmitted,
      each once, in insertion order; the registry is the same afterwards. */
  lemma OnOpenReplaysRegistry(s: State)
    requires Inv(s)
    ensures OnOpen(s).next == s.(status := Open)
    ensures OnOpen(s).effects == [ConnectedHook] + (if s.hasTransport then Transmits(Requests(s.registry)) else [])
  {
    var s1 := s.(status := Open);
    if |s.registry| > 0 {
      RequestsRegistered(s.registry);
      ReplayTransparent(s1, Requests(s.registry));
    } else {
      assert Transmits(Requests(s.registry)) == [];
    }
  }

  /** Every operation, transport event and timer keeps the client invariant,
      in particular that registered channels are pairwise distinct. */
  lemma StepPreservesInv(s: State, e: Event)
    requires Inv(s)
    ensures Inv(Step(s, e).next)
  {
    match e
    case TransportOpen => OnOpenReplaysRegistry(s);
    case _ =>
  }

  /** Any run of events from a state satisfying the invariant ends in one. */
  lemma {:induction false} RunPreservesInv(s: State, events: seq<Event>)
    requires Inv(s)
    ensures Inv(Run(s, events).next)
    decreases |events|
  {
    if events != [] {
      StepPreservesInv(s, events[0]);
      RunPreservesInv(Step(s, events[0]).next, events[1..]);
    }
  }

  /** Every client, from construction on, keeps the invariant. */
  lemma ClientKeepsInv(url: Option<string>, options: Options, events: seq<Event>)
    ensures Inv(Run(Create(url, options).next, events).next)
  {
    RunPreservesInv(Create(url, options).next, events);
  }

  /** A message for the channel registered at position `i`: with truthy
      `success` the normalised frame is passed to that channel's callback,
      stored as the last message and followed by `onMessage`; otherwise
      `captureError(frame, {url: channel})` is reported and the registry
      stays. */
  lemma OnMessageRegistered(s: State, f: InFrame, i: int)
    requires Distinct(s.registry)
    requires 0 <= i < |s.registry| && s.registry[i].key == f.channel
    requires !Truthy(f.tong)
    ensures Truthy(f.success) ==>
              && OnMessage(s, f).next == s.(last := Some(Normalize(f)))
              && OnMessage(s, f).effects ==
                 (match s.registry[i].callback
                  case Some(cb) => [CallbackInvoked(cb, Normalize(f))]
                  case None => []) + [MessageHook(f)]
    ensures !Truthy(f.success) ==>
              && OnMessage(s, f).next == s.(last := Some(f))
              && OnMessage(s, f).effects == [ChannelErrorCaptured(f, f.channel), MessageHook(f)]
  {
    RouteRegistered(s.registry, f, i);
  }

  /** A message for an unregistered channel is stored unchanged as the last
      message and only `onMessage` runs. */
  lemma OnMessageUnregistered(s: State, f: InFrame)
    requires !Has(s.registry, f.channel)
    requires !Truthy(f.tong)
    ensures OnMessage(s, f) == Transition(s.(last := Some(f)), [MessageHook(f)])
  {
    RouteUnregistered(s.registry, f);
  }

  /** Subscribing twice to the same new channel gives one entry, holding
      the first callback, and one addChannel frame. */
  lemma SubscribeTwice(s: State, channel: Value, cb1: Option<CallbackId>, cb2: Option<CallbackId>)
    requires s.hasTransport
    requires !Has(s.registry, channel)
    ensures var t1 := Subscribe(s, channel, cb1); var t2 := Subscribe(t1.next, channel, cb2);
            && t2.next == s.(registry := s.registry + [Entry(channel, AddChannelFrame(channel), cb1)])
            && t1.effects + t2.effects == [Transmit(AddChannelFrame(channel))]
  {
    HasAppend(s.registry, Entry(channel, AddChannelFrame(channel), cb1), channel);
  }

  /** `send` with an addChannel frame for a registered channel leaves the
      state unchanged: the first registration's frame and callback win. */
  lemma FirstRegistrationWins(s: State, f: OutFrame, cb: Option<CallbackId>, i: int)
    requires KindOf(f) == AddRequest
    requires 0 <= i < |s.registry| && s.registry[i].key == f.channel
    ensures Send(s, f, cb).0.next == s
  {
    HasAt(s.registry, i);
  }

  /** An unexpected drop, the reconnect timer and the new transport's open
      event: the client is OPEN again with the same registry, and every
      registered request is sent again, in insertion order, after the
      lifecycle effects. */
  lemma DropAndReconnect(s: State, ev: nat)
    requires Inv(s) && s.hasTransport && !s.explicitlyClosed && s.config.url.Some?
    ensures var t1 := OnClose(s, ev); var t2 := ReconnectFired(t1.next); var t3 := OnOpen(t2.next);
            && t3.next == s.(status := Open)
            && t1.effects + t2.effects + t3.effects ==
               [DisconnectedHook(ev), ScheduleReconnect(s.config.interval),
                CreateTransport(s.config.url.value, s.config.protocols), CancelHeartbeat,
                StartHeartbeat(s.config.interval), ConnectedHook]
               + Transmits(Requests(s.registry))
  {
    var t1 := OnClose(s, ev);
    var t2 := ReconnectFired(t1.next);
    assert t2 == Init(s.(status := Closed, hasTransport := false));
    assert t2.next == s.(status := Connecting);
    OnOpenReplaysRegistry(t2.next);
  }

  /** An explicit close followed by the transport's close event leaves the
      client CLOSED with an empty registry and no reconnect scheduled. */
  lemma CloseThenDrop(s: State, ev: nat)
    requires s.hasTransport
    ensures var t1 := Close(s, None, None); var t2 := OnClose(t1.next, ev);
            && t2.next.status == Closed && !t2.next.hasTransport
            && t2.next.registry == [] && t2.next.explicitlyClosed
            && t2.next.pendingReconnects == s.pendingReconnects
            && t1.effects + t2.effects == [CloseTransport(DefaultCloseCode, None), DisconnectedHook(ev)]
  {
  }

  /** As written, `open()` on a live transport installs a new one, and the
      old transport's close event, arriving afterwards, drops the handle of
      the new one and schedules a reconnect. */
  lemma StaleCloseAfterReopen(s: State, ev: nat)
    requires s.hasTransport && s.config.url.Some?
    ensures var t1 := OpenClient(s); var t2 := OnClose(t1.next, ev);
            && t1.next.hasTransport
            && t2.next.status == Closed && !t2.next.hasTransport
            && t2.next.registry == []
            && t2.next.pendingReconnects == s.pendingReconnects + 1
  {
  }

  /** Reconnect timers are not deduplicated: two unexpected drops with an
      `open()` in between and no firing leave two more pending. */
  lemma ReconnectsAccumulate(s: State, ev1: nat, ev2: nat)
    requires !s.explicitlyClosed
    ensures var s1 := OnClose(s, ev1).next; var s2 := OpenClient(s1).next;
            OnClose(s2, ev2).next.pendingReconnects == s.pendingReconnects + 2
  {
  }

  /** As written, the heartbeat hands its frame to the transport whenever a
      handle exists, including while still CONNECTING. */
  lemma HeartbeatWhileConnecting(s: State, timestamp: string)
    requires Inv(s) && s.status == Connecting
    ensures HeartbeatTick(s, timestamp) == Transition(s, [Transmit(PingFrame(timestamp))])
  {
  }

  /** After the transport's close event no heartbeat reaches the wire, even
      though the interval keeps ticking. */
  lemma NoHeartbeatWithoutTransport(s: State, ev: nat, timestamp: string)
    ensures HeartbeatTick(OnClose(s, ev).next, timestamp).effects == []
  {
  }
}
