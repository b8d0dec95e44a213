/**
 * The WebSocket hub of the gateway (internal/gateway/ws_hub.go) as a state
 * machine. The hub's own maps (clients, subs, redisCancels) are modelled
 * directly; each Redis bridge goroutine started by a subscription is a
 * Bridge whose context is either live or cancelled, and each client's
 * buffered send channel is a queue in `send` together with the set of
 * clients whose channel has been closed.
 */
module HubModel {
  import opened Wrappers
  import opened Domain

  type ClientId = nat
  type Payload = seq<bv8>

  /** Capacity of each client's send channel, fixed when the connection is accepted. */
  const SendBuffer: nat := 256

  /** One pumpRedis goroutine: the symbol it relays and whether its context was cancelled. */
  datatype Bridge = Bridge(symbol: Symbol, cancelled: bool)

  datatype HubState = HubState(
    clients: set<ClientId>,
    subs: map<Symbol, set<ClientId>>,
    /** The cancel function of each symbol's bridge, as an index into bridges. */
    cancels: map<Symbol, nat>,
    bridges: seq<Bridge>,
    send: map<ClientId, seq<Payload>>,
    closed: set<ClientId>)

  /** The four channels the Run loop selects on. */
  datatype Command =
    | Register(client: ClientId)
    | Unregister(client: ClientId)
    | Subscribe(client: ClientId, symbol: Symbol)
    | Unsubscribe(client: ClientId, symbol: Symbol)

  /**
   * What the hub keeps true: every subscribed symbol has one live bridge and
   * every live bridge belongs to a subscribed symbol, no symbol is kept
   * without subscribers, every client has a send channel and no channel
   * holds more than its capacity.
   */
  ghost predicate HubInv(h: HubState)
  {
    && h.subs.Keys == h.cancels.Keys
    && (forall s :: s in h.subs ==> h.subs[s] != {} && h.subs[s] <= h.send.Keys)
    && (forall s :: s in h.cancels ==>
          h.cancels[s] < |h.bridges| && h.bridges[h.cancels[s]] == Bridge(s, false))
    && (forall i :: 0 <= i < |h.bridges| && !h.bridges[i].cancelled ==>
          h.bridges[i].symbol in h.cancels && h.cancels[h.bridges[i].symbol] == i)
    && h.clients <= h.send.Keys
    && h.closed <= h.send.Keys
    && (forall c :: c in h.send ==> |h.send[c]| <= SendBuffer)
  }

  /** NewHub: empty maps, no bridge, no client. */
  function NewHub(): (h: HubState)
    ensures HubInv(h)
    ensures h.clients == {} && h.subs == map[] && h.bridges == []
  {
    HubState({}, map[], map[], [], map[], {})
  }

  /** A connection accepted by ServeWS gets an empty send channel. */
  function Attach(h: HubState, c: ClientId): HubState
    requires c !in h.send
  {
    h.(send := h.send[c := []])
  }

  function OnRegister(h: HubState, c: ClientId): HubState
  {
    h.(clients := h.clients + {c})
  }

  /** Cancels the bridges with the given indices. */
  function MarkCancelled(b: seq<Bridge>, handles: set<nat>): (r: seq<Bridge>)
    ensures |r| == |b|
    ensures forall i :: 0 <= i < |b| ==> r[i].symbol == b[i].symbol
    ensures forall i :: 0 <= i < |b| ==> r[i].cancelled == (b[i].cancelled || i in handles)
  {
    seq(|b|, i requires 0 <= i < |b| => if i in handles then b[i].(cancelled := true) else b[i])
  }

  /** Cancelling a single bridge is an update of that one element. */
  lemma CancelOne(b: seq<Bridge>, k: nat)
    requires k < |b|
    ensures MarkCancelled(b, {k}) == b[k := b[k].(cancelled := true)]
  {
  }

  /** Among the symbols in done, those whose only subscriber is c. */
  function Emptied(h: HubState, c: ClientId, done: set<Symbol>): set<Symbol>
  {
    set s | s in done && s in h.subs && h.subs[s] == {c}
  }

  /** The bridges of the symbols c leaves without a subscriber. */
  function Stopped(h: HubState, c: ClientId, done: set<Symbol>): set<nat>
  {
    set s | s in Emptied(h, c, done) && s in h.cancels :: h.cancels[s]
  }

  /**
   * The hub once the range over subs in the unregister case has visited
   * the symbols in done: c is gone from their subscriber sets, and a symbol
   * left without subscribers is deleted and its bridge cancelled.
   */
  function DropSubscriber(h: HubState, c: ClientId, done: set<Symbol>): HubState
  {
    var e := Emptied(h, c, done);
    h.(subs := map s | s in h.subs && s !in e :: if s in done then h.subs[s] - {c} else h.subs[s],
       cancels := map s | s in h.cancels && s !in e :: h.cancels[s],
       bridges := MarkCancelled(h.bridges, Stopped(h, c, done)))
  }

  /** Before the range has visited any symbol nothing is dropped. */
  lemma DropNothing(h: HubState, c: ClientId)
    ensures DropSubscriber(h, c, {}) == h
  {
    assert Emptied(h, c, {}) == {};
    assert Stopped(h, c, {}) == {};
  }

  /** A symbol the range has not visited yet is as it was. */
  lemma DropUnvisited(h: HubState, c: ClientId, done: set<Symbol>, sym: Symbol)
    requires sym in h.subs && sym !in done
    ensures var d := DropSubscriber(h, c, done);
      && sym in d.subs && d.subs[sym] == h.subs[sym]
      && (sym in h.cancels ==> sym in d.cancels && d.cancels[sym] == h.cancels[sym])
      && |d.bridges| == |h.bridges|
  {
    assert sym !in Emptied(h, c, done);
  }

  /** Visiting one more symbol in the unregister range. */
  lemma DropStep(h: HubState, c: ClientId, done: set<Symbol>, sym: Symbol)
    requires sym in h.subs && sym !in done
    ensures var d := DropSubscriber(h, c, done);
      var next := DropSubscriber(h, c, done + {sym});
      && sym in d.subs && d.subs[sym] == h.subs[sym]
      && (sym in h.cancels ==> sym in d.cancels && d.cancels[sym] == h.cancels[sym])
      && |d.bridges| == |h.bridges|
      && (h.subs[sym] != {c} ==>
            next == d.(subs := d.subs[sym := h.subs[sym] - {c}]))
      && (h.subs[sym] == {c} && sym in h.cancels ==>
            next == d.(subs := d.subs - {sym}, cancels := d.cancels - {sym},
                       bridges := MarkCancelled(d.bridges, {h.cancels[sym]})))
      && (h.subs[sym] == {c} && sym !in h.cancels ==>
            next == d.(subs := d.subs - {sym}))
  {
    DropUnvisited(h, c, done, sym);
    if h.subs[sym] != {c} {
      DropKeeps(h, c, done, sym);
    } else if sym in h.cancels {
      DropEmpties(h, c, done, sym);
    } else {
      DropEmptiesUnbridged(h, c, done, sym);
    }
  }

  /** The visited symbol keeps other subscribers: only its set shrinks. */
  lemma DropKeeps(h: HubState, c: ClientId, done: set<Symbol>, sym: Symbol)
    requires sym in h.subs && sym !in done && h.subs[sym] != {c}
    ensures var d := DropSubscriber(h, c, done);
      sym in d.subs && DropSubscriber(h, c, done + {sym}) == d.(subs := d.subs[sym := h.subs[sym] - {c}])
  {
    assert Emptied(h, c, done + {sym}) == Emptied(h, c, done);
    assert Stopped(h, c, done + {sym}) == Stopped(h, c, done);
    DropUnvisited(h, c, done, sym);
  }

  /** c was the visited symbol's last subscriber: the symbol goes and its bridge is cancelled. */
  lemma DropEmpties(h: HubState, c: ClientId, done: set<Symbol>, sym: Symbol)
    requires sym in h.subs && sym !in done && h.subs[sym] == {c} && sym in h.cancels
    ensures var d := DropSubscriber(h, c, done);
      DropSubscriber(h, c, done + {sym})
        == d.(subs := d.subs - {sym}, cancels := d.cancels - {sym},
              bridges := MarkCancelled(d.bridges, {h.cancels[sym]}))
  {
    var d := DropSubscriber(h, c, done);
    var next := DropSubscriber(h, c, done + {sym});
    assert Emptied(h, c, done + {sym}) == Emptied(h, c, done) + {sym};
    assert Stopped(h, c, done + {sym}) == Stopped(h, c, done) + {h.cancels[sym]};
    assert next.bridges == MarkCancelled(d.bridges, {h.cancels[sym]});
    assert next.subs == d.subs - {sym};
    assert next.cancels == d.cancels - {sym};
  }

  /** As DropEmpties, for a symbol without a recorded bridge. */
  lemma DropEmptiesUnbridged(h: HubState, c: ClientId, done: set<Symbol>, sym: Symbol)
    requires sym in h.subs && sym !in done && h.subs[sym] == {c} && sym !in h.cancels
    ensures DropSubscriber(h, c, done + {sym}) == DropSubscriber(h, c, done).(subs := DropSubscriber(h, c, done).subs - {sym})
  {
    assert Emptied(h, c, done + {sym}) == Emptied(h, c, done) + {sym};
    assert Stopped(h, c, done + {sym}) == Stopped(h, c, done);
  }

  /** The unregister case: only a registered client is removed, and its channel is closed. */
  function OnUnregister(h: HubState, c: ClientId): HubState
  {
    if c !in h.clients then h
    else DropSubscriber(h, c, h.subs.Keys).(clients := h.clients - {c}, closed := h.closed + {c})
  }

  /** The subscribe case as written: the first subscriber of a symbol starts its bridge. */
  function OnSubscribe(h: HubState, c: ClientId, s: Symbol): HubState
  {
    if s !in h.subs then
      h.(subs := h.subs[s := {c}], cancels := h.cancels[s := |h.bridges|], bridges := h.bridges + [Bridge(s, false)])
    else
      h.(subs := h.subs[s := h.subs[s] + {c}])
  }

  /** The unsubscribe case: the last subscriber to leave stops the symbol's bridge. */
  function OnUnsubscribe(h: HubState, c: ClientId, s: Symbol): HubState
  {
    if s !in h.subs then h
    else
      var rest := h.subs[s] - {c};
      if rest != {} then h.(subs := h.subs[s := rest])
      else if s in h.cancels then
        h.(subs := h.subs - {s}, cancels := h.cancels - {s}, bridges := MarkCancelled(h.bridges, {h.cancels[s]}))
      else h.(subs := h.subs - {s})
  }

  /** One iteration of the Run loop, with the subscribe case as written. */
  function Dispatch(h: HubState, cmd: Command): HubState
  {
    match cmd
    case Register(c) => OnRegister(h, c)
    case Unregister(c) => OnUnregister(h, c)
    case Subscribe(c, s) => OnSubscribe(h, c, s)
    case Unsubscribe(c, s) => OnUnsubscribe(h, c, s)
  }

  /** The Run loop over the commands in the order its select picks them. */
  function RunCommands(h: HubState, cmds: seq<Command>): HubState
    decreases |cmds|
  {
    if cmds == [] then h else RunCommands(Dispatch(h, cmds[0]), cmds[1..])
  }

  /**
   * fanOut: every subscriber whose channel has room gets the payload, a full
   * channel drops it. A send on a closed channel panics, which ends the
   * process: that outcome is None.
   */
  function FanOut(h: HubState, s: Symbol, data: Payload): Option<HubState>
  {
    if s !in h.subs then Some(h)
    else if exists c :: c in h.subs[s] && c in h.closed then None
    else Some(h.(send := map c | c in h.send ::
                   if c in h.subs[s] && |h.send[c]| < SendBuffer then h.send[c] + [data] else h.send[c]))
  }

  /** What a receive on a client's send channel yields. */
  datatype Received = Message(payload: Payload) | ChannelClosed | Blocked

  datatype Reception = Reception(hub: HubState, received: Received)

  /**
   * The receive in writePump: buffered payloads come first, in order; an
   * empty closed channel reports closure; an empty open one blocks.
   */
  function Receive(h: HubState, c: ClientId): Reception
    requires c in h.send
  {
    if |h.send[c]| > 0 then Reception(h.(send := h.send[c := h.send[c][1..]]), Message(h.send[c][0]))
    else if c in h.closed then Reception(h, ChannelClosed)
    else Reception(h, Blocked)
  }

  // ---- the invariant is kept by every transition

  lemma AttachKeepsInv(h: HubState, c: ClientId)
    requires HubInv(h) && c !in h.send
    ensures HubInv(Attach(h, c))
  {
  }

  lemma UnregisterKeepsInv(h: HubState, c: ClientId)
    requires HubInv(h)
    ensures HubInv(OnUnregister(h, c))
  {
    if c in h.clients {
      var r := OnUnregister(h, c);
      var e := Emptied(h, c, h.subs.Keys);
      forall s | s in r.cancels
        ensures r.cancels[s] < |r.bridges| && r.bridges[r.cancels[s]] == Bridge(s, false)
      {
        assert s !in e && s in h.subs;
      }
      forall i | 0 <= i < |r.bridges| && !r.bridges[i].cancelled
        ensures r.bridges[i].symbol in r.cancels && r.cancels[r.bridges[i].symbol] == i
      {
        assert h.cancels[h.bridges[i].symbol] == i;
      }
      forall s | s in r.subs
        ensures r.subs[s] != {}
      {
        assert s !in e;
      }
    }
  }

  lemma SubscribeKeepsInv(h: HubState, c: ClientId, s: Symbol)
    requires HubInv(h) && c in h.send
    ensures HubInv(OnSubscribe(h, c, s))
  {
    var r := OnSubscribe(h, c, s);
    if s !in h.subs {
      forall i | 0 <= i < |r.bridges| && !r.bridges[i].cancelled
        ensures r.bridges[i].symbol in r.cancels && r.cancels[r.bridges[i].symbol] == i
      {
        if i < |h.bridges| {
          assert h.bridges[i].symbol in h.cancels;
        }
      }
    }
  }

  lemma UnsubscribeKeepsInv(h: HubState, c: ClientId, s: Symbol)
    requires HubInv(h)
    ensures HubInv(OnUnsubscribe(h, c, s))
  {
    if s in h.subs && h.subs[s] - {c} == {} {
      // s is in cancels by the invariant: its bridge is the one cancelled
      var k := h.cancels[s];
      var r := OnUnsubscribe(h, c, s);
      assert r == h.(subs := h.subs - {s}, cancels := h.cancels - {s}, bridges := MarkCancelled(h.bridges, {k}));
      forall i | 0 <= i < |r.bridges| && !r.bridges[i].cancelled
        ensures r.bridges[i].symbol in r.cancels && r.cancels[r.bridges[i].symbol] == i
      {
        assert i != k && h.cancels[h.bridges[i].symbol] == i;
      }
    }
  }

  lemma DispatchKeepsInv(h: HubState, cmd: Command)
    requires HubInv(h) && cmd.client in h.send
    ensures HubInv(Dispatch(h, cmd))
  {
    match cmd
    case Register(c) =>
    case Unregister(c) => UnregisterKeepsInv(h, c);
    case Subscribe(c, s) => SubscribeKeepsInv(h, c, s);
    case Unsubscribe(c, s) => UnsubscribeKeepsInv(h, c, s);
  }

  /** Commands only come from accepted connections, which own a send channel. */
  ghost predicate FromAttached(h: HubState, cmds: seq<Command>)
  {
    forall i :: 0 <= i < |cmds| ==> cmds[i].client in h.send
  }

  lemma {:induction false} RunKeepsInv(h: HubState, cmds: seq<Command>)
    requires HubInv(h) && FromAttached(h, cmds)
    ensures HubInv(RunCommands(h, cmds))
    ensures RunCommands(h, cmds).send.Keys == h.send.Keys
    decreases |cmds|
  {
    if cmds != [] {
      var next := Dispatch(h, cmds[0]);
      DispatchKeepsInv(h, cmds[0]);
      assert next.send == h.send;
      assert FromAttached(next, cmds[1..]) by {
        forall i | 0 <= i < |cmds[1..]|
          ensures cmds[1..][i].client in next.send
        {
          assert cmds[1..][i] == cmds[i + 1];
        }
      }
      RunKeepsInv(next, cmds[1..]);
    }
  }

  lemma FanOutKeepsInv(h: HubState, s: Symbol, data: Payload)
    requires HubInv(h) && FanOut(h, s, data).Some?
    ensures HubInv(FanOut(h, s, data).value)
  {
  }

  // ---- what each transition does

  lemma RegisterEffect(h: HubState, c: ClientId)
    ensures var r := OnRegister(h, c);
      r.clients == h.clients + {c} && r == h.(clients := r.clients)
  {
  }

  lemma UnregisterEffect(h: HubState, c: ClientId)
    requires HubInv(h)
    ensures c !in h.clients ==> OnUnregister(h, c) == h
    ensures c in h.clients ==>
      var r := OnUnregister(h, c);
      && r.clients == h.clients - {c}
      && r.closed == h.closed + {c}
      && r.send == h.send
      && (forall s :: s in r.subs <==> s in h.subs && h.subs[s] != {c})
      && (forall s :: s in r.subs ==> r.subs[s] == h.subs[s] - {c})
      && (forall s :: s in h.subs && h.subs[s] == {c} ==> r.bridges[h.cancels[s]].cancelled)
      && (forall s :: s in r.subs ==> s in r.cancels && r.cancels[s] == h.cancels[s])
      && |r.bridges| == |h.bridges|
      && (forall i :: 0 <= i < |h.bridges| && h.bridges[i].symbol in r.subs ==> r.bridges[i] == h.bridges[i])
  {
    if c in h.clients {
      var r := OnUnregister(h, c);
      forall s | s in h.subs && h.subs[s] == {c}
        ensures r.bridges[h.cancels[s]].cancelled
      {
        assert s in Emptied(h, c, h.subs.Keys);
        assert h.cancels[s] in Stopped(h, c, h.subs.Keys);
      }
    }
  }

  lemma SubscribeEffect(h: HubState, c: ClientId, s: Symbol)
    requires HubInv(h)
    ensures var r := OnSubscribe(h, c, s);
      && s in r.subs && r.subs[s] == (if s in h.subs then h.subs[s] else {}) + {c}
      && (forall t :: t in h.subs && t != s ==> t in r.subs && r.subs[t] == h.subs[t])
      && (s in h.subs ==> r.bridges == h.bridges)
      && (s !in h.subs ==> r.bridges == h.bridges + [Bridge(s, false)] && r.cancels[s] == |h.bridges|)
      && (forall t :: t in h.cancels && t != s ==> t in r.cancels && r.cancels[t] == h.cancels[t])
      && (s in h.subs ==> r.cancels == h.cancels)
      && r.clients == h.clients && r.send == h.send && r.closed == h.closed
  {
  }

  lemma UnsubscribeEffect(h: HubState, c: ClientId, s: Symbol)
    requires HubInv(h)
    ensures s !in h.subs ==> OnUnsubscribe(h, c, s) == h
    ensures var r := OnUnsubscribe(h, c, s);
      && (s in r.subs ==> c !in r.subs[s] && r.subs[s] == h.subs[s] - {c})
      && (s in h.subs && h.subs[s] <= {c} ==>
            s !in r.subs && s !in r.cancels && r.bridges[h.cancels[s]].cancelled)
      && (forall t :: t in h.subs && t != s ==> t in r.subs && r.subs[t] == h.subs[t])
    ensures s in h.subs && h.subs[s] - {c} != {} ==>
      var r := OnUnsubscribe(h, c, s);
      && s in r.subs && r.cancels == h.cancels && r.bridges == h.bridges
      && r.clients == h.clients && r.send == h.send && r.closed == h.closed
    ensures var r := OnUnsubscribe(h, c, s);
      r.clients == h.clients && r.send == h.send && r.closed == h.closed
      && (forall t :: t in h.cancels && t != s ==> t in r.cancels && r.cancels[t] == h.cancels[t])
      && |r.bridges| == |h.bridges|
      && (forall i :: 0 <= i < |h.bridges| && (s !in h.cancels || i != h.cancels[s]) ==> r.bridges[i] == h.bridges[i])
  {
  }

  /** Of two subscribers, the first to leave keeps the bridge and the second stops it. */
  lemma LastLeaverStops(h: HubState, a: ClientId, b: ClientId, s: Symbol)
    requires HubInv(h) && s in h.subs && h.subs[s] == {a, b} && a != b
    ensures var half := OnUnsubscribe(h, a, s);
      var gone := OnUnsubscribe(half, b, s);
      && s in half.subs && half.subs[s] == {b} && half.bridges == h.bridges
      && s !in gone.subs && gone.bridges == MarkCancelled(h.bridges, {h.cancels[s]})
  {
    assert h.subs[s] - {a} == {b};
    var half := OnUnsubscribe(h, a, s);
    assert half == h.(subs := h.subs[s := {b}]);
  }

  /** The first subscriber of a symbol starts its bridge; the second joins it. */
  lemma SecondSubscriberJoins(h: HubState, a: ClientId, b: ClientId, s: Symbol)
    requires HubInv(h) && s !in h.subs && a in h.send && b in h.send
    ensures var two := OnSubscribe(OnSubscribe(h, a, s), b, s);
      && HubInv(two)
      && two.bridges == h.bridges + [Bridge(s, false)]
      && s in two.subs && two.subs[s] == {a, b} && two.cancels[s] == |h.bridges|
  {
    var one := OnSubscribe(h, a, s);
    SubscribeKeepsInv(h, a, s);
    SubscribeKeepsInv(one, b, s);
  }

  /** Two clients subscribing to the same symbol share one bridge, and it stops when both leave. */
  lemma SharedBridge(h: HubState, a: ClientId, b: ClientId, s: Symbol)
    requires HubInv(h) && s !in h.subs && a != b && a in h.send && b in h.send
    ensures var one := OnSubscribe(h, a, s);
      var two := OnSubscribe(one, b, s);
      && |two.bridges| == |h.bridges| + 1
      && two.subs[s] == {a, b}
      && var gone := OnUnsubscribe(OnUnsubscribe(two, a, s), b, s);
      && s !in gone.subs && gone.bridges[|h.bridges|].cancelled
      && (forall i :: 0 <= i < |h.bridges| ==> gone.bridges[i] == h.bridges[i])
  {
    var two := OnSubscribe(OnSubscribe(h, a, s), b, s);
    SecondSubscriberJoins(h, a, b, s);
    LastLeaverStops(two, a, b, s);
  }

  lemma FanOutEffect(h: HubState, s: Symbol, data: Payload)
    ensures s !in h.subs ==> FanOut(h, s, data) == Some(h)
    ensures FanOut(h, s, data).None? <==> s in h.subs && exists c :: c in h.subs[s] && c in h.closed
    ensures FanOut(h, s, data).Some? ==>
      var r := FanOut(h, s, data).value;
      && r.send.Keys == h.send.Keys
      && r == h.(send := r.send)
      && (forall c :: c in h.send && !(s in h.subs && c in h.subs[s]) ==> r.send[c] == h.send[c])
      && (forall c :: c in h.send && s in h.subs && c in h.subs[s] && |h.send[c]| >= SendBuffer ==>
            r.send[c] == h.send[c])
      && (forall c :: c in h.send && s in h.subs && c in h.subs[s] && |h.send[c]| < SendBuffer ==>
            r.send[c][..|h.send[c]|] == h.send[c] && r.send[c][|h.send[c]|..] == [data])
  {
  }

  /** A payload fanned out to an idle subscriber is the next thing its writer receives. */
  lemma FanOutThenReceive(h: HubState, s: Symbol, data: Payload, c: ClientId)
    requires c in h.send && h.send[c] == [] && s in h.subs && c in h.subs[s]
    requires FanOut(h, s, data).Some?
    ensures Receive(FanOut(h, s, data).value, c).received == Message(data)
  {
  }

  /** Once the channel is closed and drained, the writer sees the closure and nothing else. */
  lemma ClosedChannelDrains(h: HubState, c: ClientId)
    requires c in h.send && c in h.closed
    ensures |h.send[c]| > 0 ==> Receive(h, c).received == Message(h.send[c][0])
    ensures |h.send[c]| > 0 ==> Receive(h, c).hub.send[c] == h.send[c][1..]
    ensures h.send[c] == [] ==> Receive(h, c) == Reception(h, ChannelClosed)
  {
  }

  // ---- a subscription processed after its client's unregistration

  /**
   * A client whose last frame asked for a subscription and whose read then
   * failed has both a subscribe and an unregister pending; Run's select may
   * take them in either order. Taken in the order below, the client's
   * closed channel stays in subs and the next fan-out panics.
   */
  lemma SubscribeAfterUnregisterPanics()
    ensures var h := RunCommands(Attach(NewHub(), 0), [Register(0), Unregister(0), Subscribe(0, "AAPL")]);
      && 0 in h.closed && "AAPL" in h.subs && 0 in h.subs["AAPL"]
      && FanOut(h, "AAPL", [1]) == None
  {
    var h0 := Attach(NewHub(), 0);
    var h1 := OnRegister(h0, 0);
    var h2 := OnUnregister(h1, 0);
    assert h2.closed == {0} && h2.subs == map[];
    var h3 := OnSubscribe(h2, 0, "AAPL");
    assert RunCommands(h0, [Register(0), Unregister(0), Subscribe(0, "AAPL")]) == h3 by {
      assert [Register(0), Unregister(0), Subscribe(0, "AAPL")][1..] == [Unregister(0), Subscribe(0, "AAPL")];
      assert [Unregister(0), Subscribe(0, "AAPL")][1..] == [Subscribe(0, "AAPL")];
    }
    assert 0 in h3.subs["AAPL"] && 0 in h3.closed;
  }

  /** The subscribe case ignoring a client the hub has already unregistered. */
  function OnSubscribeLive(h: HubState, c: ClientId, s: Symbol): HubState
  {
    if c in h.closed then h else OnSubscribe(h, c, s)
  }

  function DispatchLive(h: HubState, cmd: Command): HubState
  {
    match cmd
    case Subscribe(c, s) => OnSubscribeLive(h, c, s)
    case _ => Dispatch(h, cmd)
  }

  function RunLive(h: HubState, cmds: seq<Command>): HubState
    decreases |cmds|
  {
    if cmds == [] then h else RunLive(DispatchLive(h, cmds[0]), cmds[1..])
  }

  /** No subscriber's channel is closed, so a fan-out cannot panic. */
  ghost predicate SendSafe(h: HubState)
  {
    forall s :: s in h.subs ==> h.subs[s] !! h.closed
  }

  lemma UnregisterKeepsSafety(h: HubState, c: ClientId)
    requires SendSafe(h)
    ensures SendSafe(OnUnregister(h, c))
  {
    if c in h.clients {
      var r := OnUnregister(h, c);
      forall s | s in r.subs
        ensures r.subs[s] !! r.closed
      {
        assert r.subs[s] == h.subs[s] - {c};
      }
    }
  }

  lemma SubscribeLiveKeepsSafety(h: HubState, c: ClientId, s: Symbol)
    requires HubInv(h) && SendSafe(h) && c in h.send
    ensures HubInv(OnSubscribeLive(h, c, s)) && SendSafe(OnSubscribeLive(h, c, s))
  {
    if c !in h.closed {
      SubscribeKeepsInv(h, c, s);
    }
  }

  lemma UnsubscribeKeepsSafety(h: HubState, c: ClientId, s: Symbol)
    requires SendSafe(h)
    ensures SendSafe(OnUnsubscribe(h, c, s))
  {
  }

  lemma DispatchLiveKeepsSafety(h: HubState, cmd: Command)
    requires HubInv(h) && SendSafe(h) && cmd.client in h.send
    ensures HubInv(DispatchLive(h, cmd)) && SendSafe(DispatchLive(h, cmd))
    ensures DispatchLive(h, cmd).send == h.send
  {
    match cmd
    case Register(c) =>
      assert DispatchLive(h, cmd) == h.(clients := h.clients + {c});
    case Unregister(c) =>
      assert DispatchLive(h, cmd) == OnUnregister(h, c);
      UnregisterKeepsInv(h, c);
      UnregisterKeepsSafety(h, c);
    case Subscribe(c, s) =>
      assert DispatchLive(h, cmd) == OnSubscribeLive(h, c, s);
      SubscribeLiveKeepsSafety(h, c, s);
    case Unsubscribe(c, s) =>
      assert DispatchLive(h, cmd) == OnUnsubscribe(h, c, s);
      UnsubscribeKeepsInv(h, c, s);
      UnsubscribeKeepsSafety(h, c, s);
  }

  /** With the live check, no order of commands leads to a panicking fan-out. */
  lemma {:induction false} RunLiveNeverPanics(h: HubState, cmds: seq<Command>, s: Symbol, data: Payload)
    requires HubInv(h) && SendSafe(h) && FromAttached(h, cmds)
    ensures HubInv(RunLive(h, cmds)) && SendSafe(RunLive(h, cmds))
    ensures FanOut(RunLive(h, cmds), s, data).Some?
    decreases |cmds|
  {
    if cmds != [] {
      var next := DispatchLive(h, cmds[0]);
      DispatchLiveKeepsSafety(h, cmds[0]);
      assert FromAttached(next, cmds[1..]) by {
        forall i | 0 <= i < |cmds[1..]|
          ensures cmds[1..][i].client in next.send
        {
          assert cmds[1..][i] == cmds[i + 1];
        }
      }
      RunLiveNeverPanics(next, cmds[1..], s, data);
    }
  }

  /** The live check changes nothing for clients that are still connected. */
  lemma LiveAgreesWhileConnected(h: HubState, cmd: Command)
    requires cmd.Subscribe? ==> cmd.client !in h.closed
    ensures DispatchLive(h, cmd) == Dispatch(h, cmd)
  {
  }
}
