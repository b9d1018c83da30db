/** What a connection answers, whom it ends up subscribed as, and when the server gives it up. */
module TcpProtocol {
  import opened Defs
  import opened Text
  import opened TcpServers

  // ----- the reply trace -----

  function Lines(texts: seq<string>): seq<Event> {
    seq(|texts|, i requires 0 <= i < |texts| => Line(texts[i]))
  }

  /** The requests of the non-blank lines. */
  function Requests(texts: seq<string>, validAddr: string -> bool): seq<Request> {
    if texts == [] then []
    else
      var n := |texts| - 1;
      var msg := Trim(texts[n]);
      Requests(texts[..n], validAddr) + if msg == [] then [] else [Classify(msg, validAddr)]
  }

  /** The position of the first rejected STREAM, or the length. */
  function FirstBad(requests: seq<Request>): (n: nat)
    ensures n <= |requests| && (n < |requests| ==> requests[n].BadStream?)
    ensures forall j | 0 <= j < n :: !requests[j].BadStream?
  {
    if requests == [] || requests[0].BadStream? then 0 else 1 + FirstBad(requests[1..])
  }

  /** The requests that are served: those before the first rejected STREAM. */
  function Served(requests: seq<Request>): seq<Request> {
    requests[..FirstBad(requests)]
  }

  function ReplyTo(request: Request): string {
    match request
    case Ping => PONG
    case Stream(_) => STREAM_OK
    case Stop => STOP_OK
    case _ => ERR_INVALID
  }

  function StreamsIn(requests: seq<Request>): nat {
    if requests == [] then 0
    else
      var n := |requests| - 1;
      StreamsIn(requests[..n]) + if requests[n].Stream? then 1 else 0
  }

  /** Request `i` is the last subscription, and no STOP follows it. */
  ghost predicate Stands(requests: seq<Request>, i: nat) {
    i < |requests| && requests[i].Stream? && forall j | i < j < |requests| :: !requests[j].Stream? && !requests[j].Stop?
  }

  /** The id in force after serving `requests`: that of the standing subscription, if there is one. */
  ghost predicate Subscribed(requests: seq<Request>, ids: nat -> nat, id: Option<nat>) {
    match id
    case Some(v) => exists i: nat :: Stands(requests, i) && v == ids(StreamsIn(requests[..i]))
    case None => forall i: nat :: !Stands(requests, i)
  }

  lemma StandsAppend(requests: seq<Request>, r: Request, i: nat)
    ensures !r.Stream? && !r.Stop? ==> (Stands(requests + [r], i) <==> Stands(requests, i))
    ensures r.Stop? ==> !Stands(requests + [r], i)
    ensures r.Stream? ==> (Stands(requests + [r], i) <==> i == |requests|)
  {
    var all := requests + [r];
    assert all[|requests|] == r;
    assert forall j | 0 <= j < |requests| :: all[j] == requests[j];
    if Stands(requests, i) && !r.Stream? && !r.Stop? {
      assert Stands(all, i);
    }
    if i < |requests| && Stands(all, i) {
      assert !all[|requests|].Stream? && !all[|requests|].Stop?;
      forall j | i < j < |requests| ensures !requests[j].Stream? && !requests[j].Stop? {
        assert !all[j].Stream? && !all[j].Stop?;
      }
    }
  }

  lemma SubscribedAppend(requests: seq<Request>, r: Request, ids: nat -> nat, id: Option<nat>)
    requires Subscribed(requests, ids, id)
    ensures Subscribed(requests + [r], ids,
                       if r.Stream? then Some(ids(StreamsIn(requests))) else if r.Stop? then None else id)
  {
    var all := requests + [r];
    forall i: nat ensures !r.Stream? && !r.Stop? ==> (Stands(all, i) <==> Stands(requests, i))
                  ensures r.Stop? ==> !Stands(all, i)
    {
      StandsAppend(requests, r, i);
    }
    if r.Stream? {
      StandsAppend(requests, r, |requests|);
      assert Stands(all, |requests|) && all[..|requests|] == requests;
    } else if !r.Stop? && id.Some? {
      var i: nat :| Stands(requests, i) && id.value == ids(StreamsIn(requests[..i]));
      assert Stands(all, i) && all[..i] == requests[..i];
    }
  }

  /** Reads are lines, and writes and binds succeed. */
  ghost predicate Smooth(world: World) {
    forall n: nat :: world.writeOk(n) && world.bindOk(n)
  }

  function Replies(requests: seq<Request>): (replies: seq<string>)
    ensures |replies| == |requests|
  {
    seq(|requests|, i requires 0 <= i < |requests| => ReplyTo(requests[i]))
  }

  /** The state of the handler after serving the requests it has served. */
  ghost predicate Traces(c: Conn, requests: seq<Request>, world: World) {
    && c.replies == Replies(Served(requests))
    && c.adds == StreamsIn(Served(requests))
    && Subscribed(Served(requests), world.ids, c.clientId)
    && c.end == if FirstBad(requests) < |requests| then Some(BadCommand) else None
  }

  lemma FirstBadAppend(requests: seq<Request>, r: Request)
    ensures FirstBad(requests + [r]) ==
            if FirstBad(requests) < |requests| then FirstBad(requests)
            else if r.BadStream? then |requests| else |requests| + 1
  {
    var all := requests + [r];
    var a, b := FirstBad(requests), FirstBad(all);
    assert all[|requests|] == r && forall j | 0 <= j < |requests| :: all[j] == requests[j];
    assert forall j | 0 <= j < |requests| :: all[j].BadStream? == requests[j].BadStream?;
    if a < |requests| {
      assert all[a].BadStream?;
    }
  }

  lemma RepliesMore(requests: seq<Request>, r: Request)
    ensures Replies(requests + [r]) == Replies(requests) + [ReplyTo(r)]
  {
    hide ReplyTo;
    var all := requests + [r];
    forall i | 0 <= i < |all| ensures Replies(all)[i] == (Replies(requests) + [ReplyTo(r)])[i] {
      assert all[i] == if i < |requests| then requests[i] else r;
    }
  }

  lemma StreamsMore(requests: seq<Request>, r: Request)
    ensures StreamsIn(requests + [r]) == StreamsIn(requests) + if r.Stream? then 1 else 0
  {
    assert (requests + [r])[..|requests|] == requests;
  }

  /** One more request that is not rejected. */
  lemma ServedMore(requests: seq<Request>, r: Request)
    requires FirstBad(requests) == |requests| && !r.BadStream?
    ensures Served(requests + [r]) == requests + [r] && FirstBad(requests + [r]) == |requests| + 1
  {
    hide FirstBad;
    FirstBadAppend(requests, r);
    assert (requests + [r])[..|requests| + 1] == requests + [r];
  }

  lemma ServeOne(c: Conn, requests: seq<Request>, r: Request, world: World)
    requires Smooth(world) && Traces(c, requests, world) && c.end == None
    ensures Traces(Serve(c, r, world), requests + [r], world)
  {
    hide Subscribed, FirstBad, Stands, StreamsIn, Replies;
    FirstBadAppend(requests, r);
    assert requests[..|requests|] == requests && Served(requests) == requests;
    if r.BadStream? {
      assert Served(requests + [r]) == requests;
    } else {
      ServedMore(requests, r);
      RepliesMore(requests, r);
      StreamsMore(requests, r);
      SubscribedAppend(requests, r, world.ids, c.clientId);
    }
  }

  lemma LineTurn(c: Conn, text: string, requests: seq<Request>, world: World)
    requires Smooth(world) && Traces(c, requests, world)
    ensures var msg := Trim(text);
            Traces(if c.end.Some? then c else React(c, Line(text), world),
                   requests + if msg == [] then [] else [Classify(msg, world.validAddr)], world)
  {
    hide Trim, Classify, Serve, Subscribed, StreamsIn, Replies;
    var msg := Trim(text);
    if msg == [] {
      assert requests + [] == requests;
    } else {
      var r := Classify(msg, world.validAddr);
      if c.end == None {
        ServeOne(c.(turns := c.turns + 1, lastPing := world.now(c.turns)), requests, r, world);
      } else {
        FirstBadAppend(requests, r);
        assert Served(requests + [r]) == Served(requests);
      }
    }
  }

  /** The whole conversation: over any lines read without timeouts or I/O failures, the replies are the
      images, in order, of the non-blank lines before the first rejected STREAM, which ends the
      connection unanswered; and the handler ends up as the last successful STREAM that no STOP follows. */
  lemma {:induction false} ReplyTrace(texts: seq<string>, world: World, at: nat)
    requires Smooth(world)
    ensures Traces(Handle(Opened(at), Lines(texts), world), Requests(texts, world.validAddr), world)
  {
    if texts == [] {
      assert Served([]) == [];
    } else {
      hide Traces, React, Trim, Classify;
      var n := |texts| - 1;
      ReplyTrace(texts[..n], world, at);
      assert Lines(texts)[..n] == Lines(texts[..n]);
      LineTurn(Handle(Opened(at), Lines(texts[..n]), world), texts[n], Requests(texts[..n], world.validAddr), world);
    }
  }

  // ----- keep-alive -----

  /** When the connection was last heard of: at the last line of any kind, or when it was opened. */
  function LastHeard(at: nat, events: seq<Event>, world: World): nat {
    if events == [] then at
    else
      var n := |events| - 1;
      if events[n].Line? then world.now(n) else LastHeard(at, events[..n], world)
  }

  lemma ServeKeepsClock(c: Conn, r: Request, world: World)
    ensures Serve(c, r, world).turns == c.turns && Serve(c, r, world).lastPing == c.lastPing
    ensures c.end != Some(KeepAliveExpired) ==> Serve(c, r, world).end != Some(KeepAliveExpired)
  {
  }

  lemma ReactClock(c: Conn, event: Event, world: World)
    requires c.end == None
    ensures var c' := React(c, event, world);
            && c'.turns == c.turns + 1 && c'.lastPing == (if event.Line? then world.now(c.turns) else c.lastPing)
            && (c'.end == Some(KeepAliveExpired) <==> event.TimedOut? && world.now(c.turns) >= c.lastPing + 6000)
            && (c'.end == Some(KeepAliveExpired) ==> c'.clientId == None && c'.calls == Unsubscribe(c).calls)
  {
    hide Trim, Classify, Serve;
    if event.Line? {
      ServeKeepsClock(c.(turns := c.turns + 1, lastPing := world.now(c.turns)),
                      Classify(Trim(event.text), world.validAddr), world);
    }
  }

  lemma {:induction false} ClockKept(at: nat, events: seq<Event>, world: World)
    requires Handle(Opened(at), events, world).end == None
    ensures Handle(Opened(at), events, world).turns == |events|
    ensures Handle(Opened(at), events, world).lastPing == LastHeard(at, events, world)
  {
    if events != [] {
      var n := |events| - 1;
      ClockKept(at, events[..n], world);
      ReactClock(Handle(Opened(at), events[..n], world), events[n], world);
    }
  }

  /** The keep-alive rule, exactly: because whole seconds are compared, a connection is given up at the
      first read timeout 6000 ms or more after its last line, and at no other event. */
  ghost predicate GivenUpAt(at: nat, events: seq<Event>, world: World, n: nat) {
    && n < |events| && events[n] == TimedOut && world.now(n) >= LastHeard(at, events[..n], world) + 6000
    && Handle(Opened(at), events[..n], world).end == None
  }

  ghost predicate GivenUp(at: nat, events: seq<Event>, world: World) {
    exists n: nat :: GivenUpAt(at, events, world, n)
  }

  /** Being given up before the last event does not depend on the last event. */
  lemma GivenUpEarlier(at: nat, events: seq<Event>, world: World, n: nat)
    requires n < |events| - 1
    ensures GivenUpAt(at, events, world, n) <==> GivenUpAt(at, events[..|events| - 1], world, n)
  {
    hide Handle, LastHeard;
    assert events[..n] == events[..|events| - 1][..n];
  }

  lemma GivenUpLast(at: nat, events: seq<Event>, world: World)
    requires events != []
    ensures GivenUp(at, events, world) <==>
              GivenUp(at, events[..|events| - 1], world) || GivenUpAt(at, events, world, |events| - 1)
  {
    hide Handle, LastHeard;
    var front := events[..|events| - 1];
    if n: nat :| GivenUpAt(at, events, world, n) {
      if n < |events| - 1 {
        GivenUpEarlier(at, events, world, n);
      }
    }
    if n: nat :| GivenUpAt(at, front, world, n) {
      GivenUpEarlier(at, events, world, n);
    }
  }

  lemma LastTurn(at: nat, events: seq<Event>, world: World)
    requires events != []
    ensures var n := |events| - 1;
            var c := Handle(Opened(at), events[..n], world);
            Handle(Opened(at), events, world).end == Some(KeepAliveExpired) <==>
              c.end == Some(KeepAliveExpired) || (c.end == None && GivenUpAt(at, events, world, n))
  {
    hide React, LastHeard;
    var n := |events| - 1;
    var c := Handle(Opened(at), events[..n], world);
    if c.end == None {
      ClockKept(at, events[..n], world);
      ReactClock(c, events[n], world);
    }
  }

  lemma {:induction false} KeepAliveExactly(at: nat, events: seq<Event>, world: World)
    ensures Handle(Opened(at), events, world).end == Some(KeepAliveExpired) <==> GivenUp(at, events, world)
  {
    if events != [] {
      hide React, LastHeard, Handle;
      KeepAliveExactly(at, events[..|events| - 1], world);
      GivenUpLast(at, events, world);
      LastTurn(at, events, world);
    }
  }

  /** Hence a connection that is heard of within every 6000 ms is never given up, over any run. */
  lemma NeverGivenUp(at: nat, events: seq<Event>, world: World)
    requires forall n: nat | n < |events| && events[n] == TimedOut ::
               world.now(n) < LastHeard(at, events[..n], world) + 6000
    ensures Handle(Opened(at), events, world).end != Some(KeepAliveExpired)
  {
    KeepAliveExactly(at, events, world);
  }

  function Silences(n: nat): seq<Event> {
    seq(n, _ => TimedOut)
  }

  lemma SilenceMore(c: Conn, n: nat, world: World)
    ensures Handle(c, Silences(n + 1), world) ==
            var before := Handle(c, Silences(n), world);
            if before.end.Some? then before else React(before, TimedOut, world)
  {
    assert Silences(n + 1)[..n] == Silences(n);
  }

  /** The clock at the handler's i-th read from now. */
  function At(c: Conn, i: nat, world: World): nat {
    world.now(c.turns + i)
  }

  /** Timeouts that come too early leave everything but the turn counter alone. */
  lemma SilentTurn(c: Conn, world: World)
    requires c.end == None && At(c, 0, world) < c.lastPing + 6000
    ensures React(c, TimedOut, world) == c.(turns := c.turns + 1)
  {
  }

  lemma {:induction false} SilenceWaits(c: Conn, n: nat, world: World)
    requires c.end == None && forall k: nat | k < n :: At(c, k, world) < c.lastPing + 6000
    ensures Handle(c, Silences(n), world) == c.(turns := c.turns + n)
  {
    hide React;
    if n > 0 {
      SilenceWaits(c, n - 1, world);
      SilenceMore(c, n - 1, world);
      assert At(c, n - 1, world) < c.lastPing + 6000;
      SilentTurn(c.(turns := c.turns + (n - 1)), world);
    }
  }

  /** A silent connection, read timeouts coming at most 400 ms apart (200 ms in the read and 200 ms asleep)
      and the first one within 400 ms of the last line: it is closed by the first timeout past the 6000 ms
      mark, less than 400 ms after that mark, and its current client is removed. */
  lemma SilentIsClosed(c: Conn, n: nat, world: World)
    returns (k: nat)
    requires c.end == None && At(c, 0, world) < c.lastPing + 400
    requires forall i: nat | i < n ::
               At(c, i, world) <= At(c, i + 1, world) <= At(c, i, world) + 2 * TCP_CONNECTION_TICK_PERIOD_MSEC
    requires At(c, n, world) >= c.lastPing + 6000
    ensures k <= n && Handle(c, Silences(k), world).end == None
    ensures c.lastPing + 6000 <= At(c, k, world) < c.lastPing + 6400
    ensures var closed := Handle(c, Silences(k + 1), world);
            closed.end == Some(KeepAliveExpired) && closed.clientId == None && closed.calls == Unsubscribe(c).calls
  {
    hide Handle, React, Silences;
    k := 0;
    while At(c, k, world) < c.lastPing + 6000
      invariant k <= n && forall i: nat | i < k :: At(c, i, world) < c.lastPing + 6000
      invariant k == 0 || At(c, k, world) < c.lastPing + 6400
      decreases n - k
    {
      k := k + 1;
    }
    SilenceWaits(c, k, world);
    SilenceMore(c, k, world);
    ReactClock(c.(turns := c.turns + k), TimedOut, world);
  }

  /** With ideal timing, that is after exactly 6200 ms, at the sixteenth timeout. */
  lemma IdealSilence(c: Conn, world: World)
    requires c.end == None
    requires forall i: nat | i < 16 :: At(c, i, world) == c.lastPing + 200 + 400 * i
    ensures Handle(c, Silences(15), world).end == None
    ensures Handle(c, Silences(16), world).end == Some(KeepAliveExpired)
  {
    SilenceWaits(c, 15, world);
    SilenceMore(c, 15, world);
    assert At(c, 15, world) == c.lastPing + 6200;
    ReactClock(c.(turns := c.turns + 15), TimedOut, world);
  }
}
