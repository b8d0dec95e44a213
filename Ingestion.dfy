/**
 * The market-data ingester (internal/ingestion/alpaca_client.go): the
 * reconnect loop with its doubling backoff, the handshake's auth check and
 * the filter that turns trade messages into price ticks. What the network
 * does in one connection is a Session value; the ticks a session publishes
 * are returned in publication order.
 */
module Ingestion {
  import opened Wrappers
  import opened Domain

  /** Backoff bounds of Run, in seconds. */
  const InitialBackoff: nat := 1
  const MaxBackoff: nat := 60

  /** One element of an Alpaca frame: type T, symbol S, price p, size s, time t. */
  datatype AlpacaMsg = AlpacaMsg(t: string, s: Symbol, p: real, size: real, ts: string)

  /** How far the handshake got: each failure ends connect with an error. */
  datatype Handshake =
    | DialFailed
    | WelcomeFailed
    | AuthSendFailed
    | AuthReadFailed
    | AuthUndecodable
    | AuthReplied(reply: seq<AlpacaMsg>)

  datatype SessionEnd = ContextDone | ReadFailed

  /**
   * One call of connect: the handshake, whether sending the subscription and
   * reading its acknowledgement worked, the data frames read (an element or
   * a frame that does not decode is None), how the read loop ended, and the
   * wall-clock time used when a timestamp does not parse.
   */
  datatype Session = Session(
    handshake: Handshake,
    subscribed: bool,
    frames: seq<Option<seq<Option<AlpacaMsg>>>>,
    end: SessionEnd,
    now: int)

  /** What connect returns: nil or an error. */
  datatype ConnectResult = Nil | Failed

  /** The auth check: the reply's first element must have type "success". */
  predicate AuthSucceeded(reply: seq<AlpacaMsg>)
  {
    |reply| > 0 && reply[0].t == "success"
  }

  /** Whether the session gets as far as the read loop. */
  predicate Streams(s: Session)
  {
    s.handshake.AuthReplied? && AuthSucceeded(s.handshake.reply) && s.subscribed
  }

  function ConnectResultOf(s: Session): ConnectResult
  {
    match s.handshake
    case AuthReplied(reply) =>
      if !AuthSucceeded(reply) then Nil
      else if !s.subscribed then Failed
      else if s.end == ContextDone then Nil
      else Failed
    case _ => Failed
  }

  predicate IsTrade(e: Option<AlpacaMsg>)
  {
    e.Some? && e.value.t == "t"
  }

  /** The tick built from a trade message. */
  function TickOf(m: AlpacaMsg, parse: string -> Option<int>, now: int): PriceTick
  {
    var ts := parse(m.ts);
    PriceTick(m.s, m.p, m.size, if ts.Some? then ts.value else now)
  }

  /** The ticks one decoded frame publishes: one per trade element, in order. */
  function FrameTicks(elems: seq<Option<AlpacaMsg>>, parse: string -> Option<int>, now: int): seq<PriceTick>
    decreases |elems|
  {
    if elems == [] then []
    else (if IsTrade(elems[0]) then [TickOf(elems[0].value, parse, now)] else [])
         + FrameTicks(elems[1..], parse, now)
  }

  /** The ticks of the read loop's frames; a frame that does not decode is skipped. */
  function StreamTicks(frames: seq<Option<seq<Option<AlpacaMsg>>>>, parse: string -> Option<int>, now: int)
    : seq<PriceTick>
    decreases |frames|
  {
    if frames == [] then []
    else (if frames[0].Some? then FrameTicks(frames[0].value, parse, now) else [])
         + StreamTicks(frames[1..], parse, now)
  }

  function SessionTicks(s: Session, parse: string -> Option<int>): seq<PriceTick>
  {
    if Streams(s) then StreamTicks(s.frames, parse, s.now) else []
  }

  /** The loop over one decoded frame's elements in connect. */
  method PublishFrame(elems: seq<Option<AlpacaMsg>>, parse: string -> Option<int>, now: int)
    returns (ticks: seq<PriceTick>)
    ensures ticks == FrameTicks(elems, parse, now)
  {
    ticks := [];
    var k := 0;
    while k < |elems|
      invariant 0 <= k <= |elems|
      invariant ticks + FrameTicks(elems[k..], parse, now) == FrameTicks(elems, parse, now)
    {
      assert elems[k..][1..] == elems[k + 1..];
      if elems[k].Some? && elems[k].value.t == "t" {
        ticks := ticks + [TickOf(elems[k].value, parse, now)];
      }
      k := k + 1;
    }
  }

  /** connect: the handshake, then the read loop until cancellation or a read error. */
  method Connect(s: Session, parse: string -> Option<int>) returns (result: ConnectResult, ticks: seq<PriceTick>)
    ensures result == ConnectResultOf(s)
    ensures ticks == SessionTicks(s, parse)
  {
    ticks := [];
    if !s.handshake.AuthReplied? {
      return Failed, [];
    }
    var reply := s.handshake.reply;
    if |reply| == 0 || reply[0].t != "success" {
      return Nil, [];
    }
    if !s.subscribed {
      return Failed, [];
    }
    var i := 0;
    while i < |s.frames|
      invariant 0 <= i <= |s.frames|
      invariant ticks + StreamTicks(s.frames[i..], parse, s.now) == StreamTicks(s.frames, parse, s.now)
    {
      assert s.frames[i..][1..] == s.frames[i + 1..];
      if s.frames[i].Some? {
        var published := PublishFrame(s.frames[i].value, parse, s.now);
        ticks := ticks + published;
      }
      i := i + 1;
    }
    if s.end == ContextDone {
      return Nil, ticks;
    }
    return Failed, ticks;
  }

  /** The backoff update after a failed connection: doubled, capped at MaxBackoff. */
  function NextBackoff(b: nat): nat
  {
    if 2 * b > MaxBackoff then MaxBackoff else 2 * b
  }

  /** The waits Run makes for a series of connections, starting from backoff b. */
  function Waits(sessions: seq<Session>, b: nat): seq<nat>
    decreases |sessions|
  {
    if sessions == [] then []
    else if ConnectResultOf(sessions[0]) == Nil then Waits(sessions[1..], InitialBackoff)
    else [b] + Waits(sessions[1..], NextBackoff(b))
  }

  function RunTicks(sessions: seq<Session>, parse: string -> Option<int>): seq<PriceTick>
    decreases |sessions|
  {
    if sessions == [] then [] else SessionTicks(sessions[0], parse) + RunTicks(sessions[1..], parse)
  }

  /** The schedule and the ticks of the connections from the i-th on, one connection unfolded. */
  lemma RunStep(sessions: seq<Session>, i: nat, b: nat, parse: string -> Option<int>)
    requires i < |sessions|
    ensures var failed := ConnectResultOf(sessions[i]) == Failed;
      Waits(sessions[i..], b)
        == (if failed then [b] else []) + Waits(sessions[i + 1..], if failed then NextBackoff(b) else InitialBackoff)
    ensures RunTicks(sessions[i..], parse) == SessionTicks(sessions[i], parse) + RunTicks(sessions[i + 1..], parse)
  {
    assert sessions[i..][1..] == sessions[i + 1..];
  }

  /**
   * One pass of Run's loop: connect, then either reset the backoff or wait
   * the current backoff and double it, capped at MaxBackoff.
   */
  method Attempt(s: Session, backoff: nat, parse: string -> Option<int>)
    returns (wait: seq<nat>, next: nat, published: seq<PriceTick>)
    ensures ConnectResultOf(s) == Nil ==> wait == [] && next == InitialBackoff
    ensures ConnectResultOf(s) == Failed ==> wait == [backoff] && next == NextBackoff(backoff)
    ensures published == SessionTicks(s, parse)
  {
    var result;
    result, published := Connect(s, parse);
    if result == Nil {
      return [], InitialBackoff, published;
    }
    wait := [backoff];
    next := backoff * 2;
    if next > MaxBackoff {
      next := MaxBackoff;
    }
  }

  /** Run, over the connections it makes before its context is cancelled. */
  method Run(sessions: seq<Session>, parse: string -> Option<int>) returns (waits: seq<nat>, ticks: seq<PriceTick>)
    ensures waits == Waits(sessions, InitialBackoff)
    ensures ticks == RunTicks(sessions, parse)
  {
    var backoff: nat := InitialBackoff;
    waits, ticks := [], [];
    var i := 0;
    while i < |sessions|
      invariant 0 <= i <= |sessions|
      invariant waits + Waits(sessions[i..], backoff) == Waits(sessions, InitialBackoff)
      invariant ticks + RunTicks(sessions[i..], parse) == RunTicks(sessions, parse)
    {
      RunStep(sessions, i, backoff, parse);
      var wait, next, published := Attempt(sessions[i], backoff, parse);
      assert ticks + (published + RunTicks(sessions[i + 1..], parse))
          == (ticks + published) + RunTicks(sessions[i + 1..], parse);
      assert waits + (wait + Waits(sessions[i + 1..], next)) == (waits + wait) + Waits(sessions[i + 1..], next);
      ticks := ticks + published;
      waits := waits + wait;
      backoff := next;
      i := i + 1;
    }
  }

  // ---- the reconnect schedule

  lemma {:induction false} WaitsInRange(sessions: seq<Session>, b: nat)
    requires InitialBackoff <= b <= MaxBackoff
    ensures forall k :: 0 <= k < |Waits(sessions, b)| ==> InitialBackoff <= Waits(sessions, b)[k] <= MaxBackoff
    decreases |sessions|
  {
    if sessions != [] {
      if ConnectResultOf(sessions[0]) == Nil {
        WaitsInRange(sessions[1..], InitialBackoff);
      } else {
        WaitsInRange(sessions[1..], NextBackoff(b));
      }
    }
  }

  function Pow2(k: nat): nat
  {
    if k == 0 then 1 else 2 * Pow2(k - 1)
  }

  function Capped(n: nat): nat
  {
    if n > MaxBackoff then MaxBackoff else n
  }

  /** The backoff after k consecutive failures starting from b. */
  function Doubled(b: nat, k: nat): nat
    decreases k
  {
    if k == 0 then b else Doubled(NextBackoff(b), k - 1)
  }

  lemma {:induction false} DoubledPowers(j: nat, k: nat)
    ensures Doubled(Capped(Pow2(j)), k) == Capped(Pow2(j + k))
    decreases k
  {
    if k > 0 {
      assert NextBackoff(Capped(Pow2(j))) == Capped(Pow2(j + 1));
      DoubledPowers(j + 1, k - 1);
    }
  }

  /** Repeated failures wait 1, 2, 4, 8, 16, 32, 60, 60, ... seconds. */
  lemma {:induction false} RepeatedFailures(sessions: seq<Session>, b: nat)
    requires forall i :: 0 <= i < |sessions| ==> ConnectResultOf(sessions[i]) == Failed
    ensures |Waits(sessions, b)| == |sessions|
    ensures forall k :: 0 <= k < |sessions| ==> Waits(sessions, b)[k] == Doubled(b, k)
    ensures b == InitialBackoff ==>
      forall k :: 0 <= k < |sessions| ==> Waits(sessions, b)[k] == Capped(Pow2(k))
    decreases |sessions|
  {
    if sessions != [] {
      RepeatedFailures(sessions[1..], NextBackoff(b));
      forall k | 0 <= k < |sessions|
        ensures Waits(sessions, b)[k] == Doubled(b, k)
      {
        if k > 0 {
          assert Waits(sessions, b)[k] == Waits(sessions[1..], NextBackoff(b))[k - 1];
        }
      }
      if b == InitialBackoff {
        forall k | 0 <= k < |sessions|
          ensures Waits(sessions, b)[k] == Capped(Pow2(k))
        {
          DoubledPowers(0, k);
        }
      }
    }
  }

  /** A connection that returns nil resets the backoff: the next failure waits one second again. */
  lemma NilResets(s: Session, rest: seq<Session>, b: nat)
    requires ConnectResultOf(s) == Nil
    ensures Waits([s] + rest, b) == Waits(rest, InitialBackoff)
    ensures rest != [] && ConnectResultOf(rest[0]) == Failed ==> Waits([s] + rest, b)[0] == InitialBackoff
  {
    assert ([s] + rest)[1..] == rest;
  }

  /** A failed auth returns nil: Run reconnects at once, and nothing is published. */
  lemma AuthFailureReconnectsAtOnce(s: Session, rest: seq<Session>, b: nat, parse: string -> Option<int>)
    requires s.handshake.AuthReplied? && !AuthSucceeded(s.handshake.reply)
    ensures ConnectResultOf(s) == Nil
    ensures SessionTicks(s, parse) == []
    ensures Waits([s] + rest, b) == Waits(rest, InitialBackoff)
  {
    NilResets(s, rest, b);
  }

  /** A streaming session that ends with a read error is a failure: the backoff keeps growing. */
  lemma ReadErrorKeepsBackoff(s: Session, rest: seq<Session>, b: nat)
    requires Streams(s) && s.end == ReadFailed
    ensures ConnectResultOf(s) == Failed
    ensures Waits([s] + rest, b) == [b] + Waits(rest, NextBackoff(b))
  {
    assert ([s] + rest)[1..] == rest;
  }

  // ---- the frame filter

  /** A frame that does not decode publishes nothing, and the loop reads on. */
  lemma UndecodableFrameSkipped(frames: seq<Option<seq<Option<AlpacaMsg>>>>, parse: string -> Option<int>, now: int)
    ensures StreamTicks([None] + frames, parse, now) == StreamTicks(frames, parse, now)
  {
    assert ([None] + frames)[1..] == frames;
  }

  /**
   * The read loop's ticks over two runs of frames are the ticks of the
   * first run followed by those of the second: a frame that does not
   * decode does not end the loop.
   */
  lemma {:induction false} StreamTicksAppend(a: seq<Option<seq<Option<AlpacaMsg>>>>,
                                             b: seq<Option<seq<Option<AlpacaMsg>>>>,
                                             parse: string -> Option<int>, now: int)
    ensures StreamTicks(a + b, parse, now) == StreamTicks(a, parse, now) + StreamTicks(b, parse, now)
    decreases |a|
  {
    if a != [] {
      assert (a + b)[0] == a[0] && (a + b)[1..] == a[1..] + b;
      StreamTicksAppend(a[1..], b, parse, now);
      var head := if a[0].Some? then FrameTicks(a[0].value, parse, now) else [];
      calc {
        StreamTicks(a + b, parse, now);
        head + StreamTicks(a[1..] + b, parse, now);
        head + (StreamTicks(a[1..], parse, now) + StreamTicks(b, parse, now));
        (head + StreamTicks(a[1..], parse, now)) + StreamTicks(b, parse, now);
        StreamTicks(a, parse, now) + StreamTicks(b, parse, now);
      }
    } else {
      assert a + b == b;
    }
  }

  lemma {:induction false} FrameTicksAppend(a: seq<Option<AlpacaMsg>>, b: seq<Option<AlpacaMsg>>,
                                            parse: string -> Option<int>, now: int)
    ensures FrameTicks(a + b, parse, now) == FrameTicks(a, parse, now) + FrameTicks(b, parse, now)
    decreases |a|
  {
    if a != [] {
      assert (a + b)[0] == a[0] && (a + b)[1..] == a[1..] + b;
      FrameTicksAppend(a[1..], b, parse, now);
      var head := if IsTrade(a[0]) then [TickOf(a[0].value, parse, now)] else [];
      calc {
        FrameTicks(a + b, parse, now);
        head + FrameTicks(a[1..] + b, parse, now);
        head + (FrameTicks(a[1..], parse, now) + FrameTicks(b, parse, now));
        (head + FrameTicks(a[1..], parse, now)) + FrameTicks(b, parse, now);
        FrameTicks(a, parse, now) + FrameTicks(b, parse, now);
      }
    } else {
      assert a + b == b;
    }
  }

  /**
   * Only trade elements become ticks, one each and in order, carrying the
   * message's symbol, price and size; the time falls back to now.
   */
  lemma {:induction false} OnlyTradesBecomeTicks(elems: seq<Option<AlpacaMsg>>, parse: string -> Option<int>, now: int)
    ensures var r := FrameTicks(elems, parse, now);
      && (forall k :: 0 <= k < |r| ==>
            exists i :: 0 <= i < |elems| && IsTrade(elems[i]) && r[k] == TickOf(elems[i].value, parse, now))
      && ((forall i :: 0 <= i < |elems| ==> !IsTrade(elems[i])) ==> r == [])
      && |r| <= |elems|
    decreases |elems|
  {
    if elems != [] {
      var tail := elems[1..];
      OnlyTradesBecomeTicks(tail, parse, now);
      var r := FrameTicks(elems, parse, now);
      var head := if IsTrade(elems[0]) then [TickOf(elems[0].value, parse, now)] else [];
      forall k | 0 <= k < |r|
        ensures exists i :: 0 <= i < |elems| && IsTrade(elems[i]) && r[k] == TickOf(elems[i].value, parse, now)
      {
        if k < |head| {
          assert r[k] == TickOf(elems[0].value, parse, now);
        } else {
          var rt := FrameTicks(tail, parse, now);
          assert r[k] == rt[k - |head|];
          var i :| 0 <= i < |tail| && IsTrade(tail[i]) && rt[k - |head|] == TickOf(tail[i].value, parse, now);
          assert tail[i] == elems[i + 1];
        }
      }
      if forall i :: 0 <= i < |elems| ==> !IsTrade(elems[i]) {
        assert forall i :: 0 <= i < |tail| ==> tail[i] == elems[i + 1];
      }
    }
  }

  /** A trade's tick carries its symbol, price and size, and its parsed time or else now. */
  lemma TradeTick(m: AlpacaMsg, parse: string -> Option<int>, now: int)
    requires m.t == "t"
    ensures FrameTicks([Some(m)], parse, now) == [TickOf(m, parse, now)]
    ensures var t := TickOf(m, parse, now);
      && t.symbol == m.s && t.price == m.p && t.size == m.size
      && (parse(m.ts).Some? ==> t.timestamp == parse(m.ts).value)
      && (parse(m.ts).None? ==> t.timestamp == now)
    ensures forall e :: !IsTrade(e) ==> FrameTicks([e], parse, now) == []
  {
    assert [Some(m)][1..] == [];
    forall e | !IsTrade(e)
      ensures FrameTicks([e], parse, now) == []
    {
      assert [e][1..] == [];
    }
  }
}
