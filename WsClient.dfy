/**
 * One browser connection (internal/gateway/ws_client.go): the frames its
 * read pump receives become hub commands, one per listed symbol, and the
 * pump's exit sends the unregister. ServeWS gives the connection its send
 * channel and registers it before the pumps start.
 */
module WsClient {
  import opened Wrappers
  import opened Domain
  import opened HubModel
  import WsHub

  /** The JSON body of a client frame: {"action": ..., "symbols": [...]}. */
  datatype WsMessage = WsMessage(action: string, symbols: seq<Symbol>)

  /** One ReadMessage call: a frame that decoded or not, or the error that ends the pump. */
  datatype Inbound = Frame(msg: Option<WsMessage>) | ReadError

  const ActionSubscribe: string := "subscribe"
  const ActionUnsubscribe: string := "unsubscribe"

  /** The commands one decoded frame asks for, one per symbol in list order. */
  function FrameCommands(c: ClientId, m: WsMessage): (r: seq<Command>)
    ensures m.action == ActionSubscribe ==>
      |r| == |m.symbols| && forall k :: 0 <= k < |r| ==> r[k] == Subscribe(c, m.symbols[k])
    ensures m.action == ActionUnsubscribe ==>
      |r| == |m.symbols| && forall k :: 0 <= k < |r| ==> r[k] == Unsubscribe(c, m.symbols[k])
    ensures m.action != ActionSubscribe && m.action != ActionUnsubscribe ==> r == []
    decreases |m.symbols|
  {
    if m.symbols == [] then []
    else
      var rest := FrameCommands(c, m.(symbols := m.symbols[1..]));
      if m.action == ActionSubscribe then [Subscribe(c, m.symbols[0])] + rest
      else if m.action == ActionUnsubscribe then [Unsubscribe(c, m.symbols[0])] + rest
      else rest
  }

  /**
   * Everything the read pump sends to the hub for the reads it makes: the
   * frames' commands until the first read error, then the unregister. A
   * frame that does not decode is skipped.
   */
  function PumpCommands(c: ClientId, inbound: seq<Inbound>): seq<Command>
    decreases |inbound|
  {
    if inbound == [] then []
    else match inbound[0]
      case ReadError => [Unregister(c)]
      case Frame(None) => PumpCommands(c, inbound[1..])
      case Frame(Some(m)) => FrameCommands(c, m) + PumpCommands(c, inbound[1..])
  }

  /** The loop over one decoded frame's symbols in readPump. */
  method SendFrame(c: ClientId, m: WsMessage) returns (cmds: seq<Command>)
    ensures cmds == FrameCommands(c, m)
  {
    cmds := [];
    var k := 0;
    while k < |m.symbols|
      invariant 0 <= k <= |m.symbols|
      invariant m.action == ActionSubscribe ==>
        |cmds| == k && forall j :: 0 <= j < k ==> cmds[j] == Subscribe(c, m.symbols[j])
      invariant m.action == ActionUnsubscribe ==>
        |cmds| == k && forall j :: 0 <= j < k ==> cmds[j] == Unsubscribe(c, m.symbols[j])
      invariant m.action != ActionSubscribe && m.action != ActionUnsubscribe ==> cmds == []
    {
      if m.action == ActionSubscribe {
        cmds := cmds + [Subscribe(c, m.symbols[k])];
      } else if m.action == ActionUnsubscribe {
        cmds := cmds + [Unsubscribe(c, m.symbols[k])];
      }
      k := k + 1;
    }
  }

  /** readPump, over the reads it makes until the connection fails. */
  method ReadPump(c: ClientId, inbound: seq<Inbound>) returns (cmds: seq<Command>)
    ensures cmds == PumpCommands(c, inbound)
  {
    cmds := [];
    var i := 0;
    while i < |inbound|
      invariant 0 <= i <= |inbound|
      invariant cmds + PumpCommands(c, inbound[i..]) == PumpCommands(c, inbound)
    {
      assert inbound[i..][1..] == inbound[i + 1..];
      match inbound[i] {
        case ReadError =>
          // the deferred unregister
          cmds := cmds + [Unregister(c)];
          return;
        case Frame(None) =>
        case Frame(Some(m)) =>
          var sent := SendFrame(c, m);
          cmds := cmds + sent;
      }
      i := i + 1;
    }
  }

  /**
   * ServeWS: the accepted connection gets a send channel of capacity
   * SendBuffer; what it sends to the hub is the register, then whatever its
   * read pump sends.
   */
  method ServeWS(hub: WsHub.Hub, c: ClientId, inbound: seq<Inbound>) returns (cmds: seq<Command>)
    requires hub.Valid() && c !in hub.send
    modifies hub
    ensures hub.Valid()
    ensures hub.State() == Attach(old(hub.State()), c)
    ensures cmds == [Register(c)] + PumpCommands(c, inbound)
  {
    hub.OpenSendChannel(c);
    var pumped := ReadPump(c, inbound);
    cmds := [Register(c)] + pumped;
  }

  /** Whether the pump has met a read error among these reads. */
  predicate Ended(inbound: seq<Inbound>)
  {
    exists i :: 0 <= i < |inbound| && inbound[i] == ReadError
  }

  /**
   * The pump's commands all come from this client, and the unregister is
   * sent exactly when a read failed, once, as the last command.
   */
  lemma {:induction false} PumpShape(c: ClientId, inbound: seq<Inbound>)
    ensures var r := PumpCommands(c, inbound);
      && (forall k :: 0 <= k < |r| ==> r[k].client == c)
      && (forall k :: 0 <= k < |r| - 1 ==> !r[k].Unregister?)
      && (|r| > 0 && r[|r| - 1].Unregister? <==> Ended(inbound))
    decreases |inbound|
  {
    if inbound != [] {
      var tail := inbound[1..];
      PumpShape(c, tail);
      assert forall i :: 0 <= i < |tail| ==> tail[i] == inbound[i + 1];
      if inbound[0] != ReadError {
        assert Ended(inbound) <==> Ended(tail) by {
          if Ended(inbound) {
            var i :| 0 <= i < |inbound| && inbound[i] == ReadError;
            assert tail[i - 1] == ReadError;
          }
          if Ended(tail) {
            var i :| 0 <= i < |tail| && tail[i] == ReadError;
            assert inbound[i + 1] == ReadError;
          }
        }
      } else {
        assert inbound[0] == ReadError;
      }
    }
  }

  /** Reads after the first error are never made: they change nothing. */
  lemma {:induction false} ReadsStopAtError(c: ClientId, before: seq<Inbound>, after: seq<Inbound>)
    ensures PumpCommands(c, before + [ReadError] + after) == PumpCommands(c, before + [ReadError])
    decreases |before|
  {
    if before == [] {
      assert ([] + [ReadError] + after)[0] == ReadError;
      assert ([] + [ReadError])[0] == ReadError;
    } else {
      assert (before + [ReadError] + after)[1..] == before[1..] + [ReadError] + after;
      assert (before + [ReadError])[1..] == before[1..] + [ReadError];
      ReadsStopAtError(c, before[1..], after);
    }
  }

  /**
   * Processed in the order it was sent, one connection's stream can never
   * leave its closed channel among the subscribers: the unregister is last.
   */
  lemma {:induction false} InOrderStreamIsSafe(h: HubState, c: ClientId, cmds: seq<Command>)
    requires SendSafe(h) && c !in h.closed
    requires forall k :: 0 <= k < |cmds| ==> cmds[k].client == c
    requires forall k :: 0 <= k < |cmds| - 1 ==> !cmds[k].Unregister?
    ensures SendSafe(RunCommands(h, cmds))
    decreases |cmds|
  {
    if cmds != [] {
      var next := Dispatch(h, cmds[0]);
      match cmds[0] {
        case Register(_) =>
        case Unregister(_) => UnregisterKeepsSafety(h, c);
        case Subscribe(_, s) =>
          assert next == OnSubscribeLive(h, c, s);
          forall t | t in next.subs
            ensures next.subs[t] !! next.closed
          {
            if t != s {
              assert next.subs[t] == h.subs[t];
            }
          }
        case Unsubscribe(_, s) => UnsubscribeKeepsSafety(h, c, s);
      }
      if |cmds| > 1 {
        assert next.closed == h.closed;
        InOrderStreamIsSafe(next, c, cmds[1..]);
      } else {
        assert cmds[1..] == [];
      }
    }
  }
}
