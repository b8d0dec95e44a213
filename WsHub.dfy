/**
 * The hub as the object the Run goroutine owns (internal/gateway/ws_hub.go):
 * its maps are fields that each handler updates in place. Every method is
 * proved to leave the hub in the state the matching HubModel function
 * describes, and to keep HubModel's invariants.
 */
module WsHub {
  import opened Wrappers
  import opened Domain
  import opened HubModel

  class Hub {
    var clients: set<ClientId>
    var subs: map<Symbol, set<ClientId>>
    var redisCancels: map<Symbol, nat>
    /** The pumpRedis goroutines started so far and their contexts. */
    var bridges: seq<Bridge>
    /** Each accepted client's send channel, and which of them are closed. */
    var send: map<ClientId, seq<Payload>>
    var closed: set<ClientId>

    function State(): HubState
      reads this
    {
      HubState(clients, subs, redisCancels, bridges, send, closed)
    }

    ghost predicate Valid()
      reads this
    {
      HubInv(State()) && SendSafe(State())
    }

    /** NewHub. */
    constructor ()
      ensures Valid()
      ensures State() == NewHub()
    {
      clients, subs, redisCancels, bridges, send, closed := {}, map[], map[], [], map[], {};
    }

    /** The send channel ServeWS makes for a new connection. */
    method OpenSendChannel(c: ClientId)
      requires Valid() && c !in send
      modifies this
      ensures Valid()
      ensures State() == Attach(old(State()), c)
    {
      send := send[c := []];
    }

    /** The register case. */
    method Register(c: ClientId)
      requires Valid() && c in send
      modifies this
      ensures Valid()
      ensures State() == OnRegister(old(State()), c)
    {
      clients := clients + {c};
    }

    /**
     * The unregister case: ranges over the subscribed symbols, removing c
     * from each, deleting a symbol it leaves empty and cancelling that
     * symbol's bridge, then closes c's channel.
     */
    method Unregister(c: ClientId)
      requires forall t :: t in redisCancels ==> redisCancels[t] < |bridges|
      modifies this
      ensures State() == OnUnregister(old(State()), c)
    {
      if c !in clients {
        return;
      }
      ghost var h := State();
      DropNothing(h, c);
      clients := clients - {c};
      var pending := subs.Keys;
      ghost var done: set<Symbol> := {};
      while pending != {}
        invariant pending !! done && pending + done == h.subs.Keys
        invariant State() == DropSubscriber(h, c, done).(clients := h.clients - {c})
        decreases pending
      {
        var sym :| sym in pending;
        LeaveSymbol(c, sym, h, done);
        pending := pending - {sym};
        done := done + {sym};
      }
      closed := closed + {c};
    }

    /** One pass of the unregister range: c leaves the subscribers of sym. */
    method LeaveSymbol(c: ClientId, sym: Symbol, ghost h: HubState, ghost done: set<Symbol>)
      requires sym in h.subs && sym !in done
      requires forall t :: t in h.cancels ==> h.cancels[t] < |h.bridges|
      requires State() == DropSubscriber(h, c, done).(clients := h.clients - {c})
      modifies this
      ensures State() == DropSubscriber(h, c, done + {sym}).(clients := h.clients - {c})
    {
      DropStep(h, c, done, sym);
      if c in subs[sym] {
        var rest := subs[sym] - {c};
        if rest == {} {
          if sym in redisCancels {
            var k := redisCancels[sym];
            CancelOne(bridges, k);
            bridges := bridges[k := bridges[k].(cancelled := true)];
            redisCancels := redisCancels - {sym};
          }
          subs := subs - {sym};
        } else {
          subs := subs[sym := rest];
        }
      } else {
        assert subs[sym] - {c} == subs[sym];
      }
    }

    /**
     * The subscribe case, with the correction that a client the hub has
     * already unregistered is ignored (see SubscribeAfterUnregisterPanics).
     */
    method Subscribe(c: ClientId, s: Symbol)
      requires Valid() && c in send
      modifies this
      ensures Valid()
      ensures State() == OnSubscribeLive(old(State()), c, s)
    {
      if c in closed {
        return;
      }
      ghost var h := State();
      if s !in subs {
        // the map entry is created empty and the bridge started before c is added
        subs := subs[s := {c}];
        redisCancels := redisCancels[s := |bridges|];
        bridges := bridges + [Bridge(s, false)];
      } else {
        subs := subs[s := subs[s] + {c}];
      }
      assert State() == OnSubscribe(h, c, s);
      SubscribeLiveKeepsSafety(h, c, s);
    }

    /** The unsubscribe case. */
    method Unsubscribe(c: ClientId, s: Symbol)
      requires Valid()
      modifies this
      ensures Valid()
      ensures State() == OnUnsubscribe(old(State()), c, s)
    {
      if s in subs {
        var rest := subs[s] - {c};
        if rest == {} {
          if s in redisCancels {
            var k := redisCancels[s];
            CancelOne(bridges, k);
            bridges := bridges[k := bridges[k].(cancelled := true)];
            redisCancels := redisCancels - {s};
          }
          subs := subs - {s};
        } else {
          subs := subs[s := rest];
        }
        assert State() == OnUnsubscribe(old(State()), c, s);
        UnsubscribeKeepsInv(old(State()), c, s);
        UnsubscribeKeepsSafety(old(State()), c, s);
      }
    }

    /** One iteration of the Run loop. */
    method Dispatch(cmd: Command)
      requires Valid() && cmd.client in send
      modifies this
      ensures Valid()
      ensures State() == DispatchLive(old(State()), cmd)
    {
      match cmd
      case Register(c) => Register(c);
      case Unregister(c) =>
        Unregister(c);
        UnregisterKeepsInv(old(State()), c);
        UnregisterKeepsSafety(old(State()), c);
      case Subscribe(c, s) => Subscribe(c, s);
      case Unsubscribe(c, s) => Unsubscribe(c, s);
    }

    /** Run, over the commands in the order its select takes them. */
    method Run(cmds: seq<Command>)
      requires Valid() && FromAttached(State(), cmds)
      modifies this
      ensures Valid()
      ensures State() == RunLive(old(State()), cmds)
    {
      var i := 0;
      while i < |cmds|
        invariant 0 <= i <= |cmds|
        invariant Valid()
        invariant send.Keys == old(send).Keys
        invariant RunLive(State(), cmds[i..]) == RunLive(old(State()), cmds)
      {
        assert cmds[i..][1..] == cmds[i + 1..];
        Dispatch(cmds[i]);
        i := i + 1;
      }
    }

    /**
     * fanOut: offers the payload to every subscriber of the symbol without
     * blocking. Reports a panic when it meets a closed channel.
     */
    method FanOut(s: Symbol, data: Payload) returns (panicked: bool)
      modifies this
      ensures panicked == HubModel.FanOut(old(State()), s, data).None?
      ensures !panicked ==> State() == HubModel.FanOut(old(State()), s, data).value
    {
      if s !in subs {
        return false;
      }
      var targets := subs[s];
      var pending := targets;
      ghost var before := send;
      while pending != {}
        invariant pending <= targets
        invariant State() == old(State()).(send := send)
        invariant send.Keys == before.Keys
        invariant forall c :: c in before ==>
          send[c] == if c in targets - pending && |before[c]| < SendBuffer then before[c] + [data] else before[c]
        invariant forall c :: c in targets - pending ==> c !in closed
        decreases pending
      {
        var client :| client in pending;
        if client in closed {
          return true;
        }
        if client in send && |send[client]| < SendBuffer {
          send := send[client := send[client] + [data]];
        }
        pending := pending - {client};
      }
      return false;
    }

    /** The receive at the top of writePump's loop. */
    method Receive(c: ClientId) returns (r: Received)
      requires c in send
      modifies this
      ensures Reception(State(), r) == HubModel.Receive(old(State()), c)
    {
      if |send[c]| > 0 {
        r := Message(send[c][0]);
        send := send[c := send[c][1..]];
      } else if c in closed {
        r := ChannelClosed;
      } else {
        r := Blocked;
      }
    }
  }
}
