/** One TCP connection of the command protocol (src/tcp_server.rs). */
module TcpServers {
  import opened Defs
  import opened Text

  // ----- reading lines -----

  /** What the socket delivers, in order; the end of the sequence is the peer closing its side. `Silence`
      is a read that ran into the 200 ms timeout, `Broken` any other read error. */
  datatype Item = Received(c: char) | Silence | Broken

  /** What `read_line` returns. */
  datatype Event = Line(text: string) | TimedOut | Eof | Failed

  /** One call of `read_line` on an empty buffer: characters up to a newline or the end of input. A
      timeout or an error in between discards what was read so far. */
  function ReadLine(items: seq<Item>, line: string): (r: (Event, seq<Item>))
    ensures |r.1| <= |items|
    ensures items != [] ==> |r.1| < |items|
  {
    if items == [] then (if line == [] then Eof else Line(line), [])
    else
      match items[0]
      case Silence => (TimedOut, items[1..])
      case Broken => (Failed, items[1..])
      case Received(c) => if c == '\n' then (Line(line + [c]), items[1..]) else ReadLine(items[1..], line + [c])
  }

  /** The events a connection sees, up to and including the end of its input. */
  function Events(items: seq<Item>): (events: seq<Event>)
    ensures |events| >= 1
    decreases |items|
  {
    if items == [] then [Eof]
    else
      var (event, rest) := ReadLine(items, []);
      [event] + Events(rest)
  }

  /** `BufRead::read_line`. */
  method ReadLineLoop(items: seq<Item>) returns (event: Event, rest: seq<Item>)
    ensures (event, rest) == ReadLine(items, [])
  {
    var line := [];
    rest := items;
    while rest != []
      invariant ReadLine(rest, line) == ReadLine(items, [])
      decreases |rest|
    {
      var item := rest[0];
      rest := rest[1..];
      match item {
        case Silence => return TimedOut, rest;
        case Broken => return Failed, rest;
        case Received(c) =>
          line := line + [c];
          if c == '\n' {
            return Line(line), rest;
          }
      }
    }
    event := if line == [] then Eof else Line(line);
  }

  /** The text received since the last timeout. */
  function SinceSilence(items: seq<Item>): string {
    if items == [] then []
    else
      var n := |items| - 1;
      match items[n]
      case Received(c) => SinceSilence(items[..n]) + [c]
      case _ => []
  }

  /** The event after the timeouts that interrupt a line. */
  function FirstLine(events: seq<Event>): Event
    requires |events| >= 1
  {
    if events[0].TimedOut? && |events| > 1 then FirstLine(events[1..]) else events[0]
  }

  /** A line in the making: characters other than newline, with timeouts in between. */
  predicate Unfinished(items: seq<Item>) {
    forall i | 0 <= i < |items| :: items[i].Silence? || (items[i].Received? && items[i].c != '\n')
  }

  /** Everything the peer typed, timeouts or not. */
  function Typed(items: seq<Item>): string {
    if items == [] then []
    else
      var n := |items| - 1;
      Typed(items[..n]) + if items[n].Received? then [items[n].c] else []
  }

  lemma {:induction false} SinceSilenceDrop(items: seq<Item>, i: nat)
    requires i < |items| && items[i].Silence?
    ensures SinceSilence(items) == SinceSilence(items[i + 1..])
  {
    var n := |items| - 1;
    if i < n {
      SinceSilenceDrop(items[..n], i);
      assert items[..n][i + 1..] == items[i + 1..][..n - i - 1];
      assert items[i + 1..][n - i - 1] == items[n];
    } else {
      assert items[i + 1..] == [];
    }
  }

  /** Reading a stretch of characters: it ends the line, or is given up at a timeout. */
  lemma {:induction false} ReadStretch(chars: seq<Item>, last: Item, rest: seq<Item>, line: string)
    requires Unfinished(chars) && forall i | 0 <= i < |chars| :: chars[i].Received?
    requires last.Silence? || last == Received('\n')
    ensures ReadLine(chars + [last] + rest, line) ==
            (if last.Silence? then TimedOut else Line(line + Typed(chars) + ['\n']), rest)
    decreases |chars|
  {
    var all := chars + [last] + rest;
    if chars == [] {
      assert all[1..] == rest;
      assert line + [] == line;
    } else {
      assert all[1..] == chars[1..] + [last] + rest;
      ReadStretch(chars[1..], last, rest, line + [chars[0].c]);
      TypedHead(chars);
      assert [chars[0]][..0] == [] && Typed([chars[0]]) == [chars[0].c];
      assert line + [chars[0].c] + Typed(chars[1..]) == line + ([chars[0].c] + Typed(chars[1..]));
    }
  }

  lemma {:induction false} TypedHead(items: seq<Item>)
    requires items != []
    ensures Typed(items) == Typed([items[0]]) + Typed(items[1..])
  {
    var n := |items| - 1;
    if n > 0 {
      TypedHead(items[..n]);
      assert items[..n][1..] == items[1..][..n - 1] && items[1..][n - 1] == items[n];
    } else {
      assert items == [items[0]] && items[1..] == [];
    }
  }

  lemma {:induction false} NoSilenceKeepsAll(items: seq<Item>)
    requires forall i | 0 <= i < |items| :: items[i].Received?
    ensures SinceSilence(items) == Typed(items) && |Typed(items)| == |items|
  {
    if items != [] {
      NoSilenceKeepsAll(items[..|items| - 1]);
    }
  }

  /** However the characters of a line are spread over read timeouts, the handler gets to see exactly
      those that came after the last one: `line` starts empty on every iteration. */
  lemma {:induction false} LineSinceSilence(items: seq<Item>, rest: seq<Item>)
    requires Unfinished(items)
    ensures FirstLine(Events(items + [Received('\n')] + rest)) == Line(SinceSilence(items) + ['\n'])
    decreases |items|
  {
    var all := items + [Received('\n')] + rest;
    var i := FirstSilence(items);
    if i < |items| {
      var tail := items[i + 1..];
      assert all == items[..i] + [items[i]] + (tail + [Received('\n')] + rest);
      ReadStretch(items[..i], items[i], tail + [Received('\n')] + rest, []);
      SinceSilenceDrop(items, i);
      LineSinceSilence(tail, rest);
    } else {
      ReadStretch(items, Received('\n'), rest, []);
      NoSilenceKeepsAll(items);
      assert [] + Typed(items) == Typed(items);
    }
  }

  function FirstSilence(items: seq<Item>): (n: nat)
    ensures n <= |items| && (n < |items| ==> items[n].Silence?)
    ensures forall j | 0 <= j < n :: !items[j].Silence?
  {
    if items == [] || items[0].Silence? then 0 else 1 + FirstSilence(items[1..])
  }

  lemma {:induction false} InterruptionLoses(items: seq<Item>)
    ensures SinceSilence(items) == Typed(items) <==> !LosesText(items)
    ensures |SinceSilence(items)| <= |Typed(items)|
  {
    if items != [] {
      var n := |items| - 1;
      InterruptionLoses(items[..n]);
      if items[n].Received? {
        assert SinceSilence(items)[..|SinceSilence(items[..n])|] == SinceSilence(items[..n]);
        assert Typed(items)[..|Typed(items[..n])|] == Typed(items[..n]);
      }
    }
  }

  /** Some timeout finds a non-empty line in the making. */
  predicate LosesText(items: seq<Item>) {
    if items == [] then false
    else
      var n := |items| - 1;
      match items[n]
      case Received(_) => LosesText(items[..n])
      case _ => Typed(items[..n]) != []
  }

  /** A command line reaches the dispatcher as typed exactly when no read timeout interrupts it. */
  lemma LineArrivesIntact(items: seq<Item>, rest: seq<Item>)
    requires Unfinished(items)
    ensures FirstLine(Events(items + [Received('\n')] + rest)) == Line(Typed(items) + ['\n']) <==> !LosesText(items)
  {
    LineSinceSilence(items, rest);
    InterruptionLoses(items);
    var a, b := SinceSilence(items), Typed(items);
    if a + ['\n'] == b + ['\n'] {
      assert a == (a + ['\n'])[..|a|] && b == (b + ['\n'])[..|b|];
    }
  }

  // ----- what the reads come to -----

  /** The characters received since the last newline, timeout or error. */
  function Buffered(items: seq<Item>): string {
    if items == [] then []
    else
      var n := |items| - 1;
      match items[n]
      case Received(c) => if c == '\n' then [] else Buffered(items[..n]) + [c]
      case _ => []
  }

  /** The events that are over: one for every newline, timeout and error, in their order. */
  function Complete(items: seq<Item>): seq<Event> {
    if items == [] then []
    else
      var n := |items| - 1;
      Complete(items[..n]) +
      match items[n]
      case Silence => [TimedOut]
      case Broken => [Failed]
      case Received(c) => if c == '\n' then [Line(Buffered(items[..n]) + ['\n'])] else []
  }

  /** The events of a read that has some characters already, and of those after it. */
  function EventsFrom(items: seq<Item>, line: string): seq<Event> {
    if items == [] && line == [] then [Eof]
    else
      var (event, rest) := ReadLine(items, line);
      [event] + Events(rest)
  }

  lemma EventsFromNext(item: Item, rest: seq<Item>, line: string)
    ensures EventsFrom([item] + rest, line) ==
            match item
            case Silence => [TimedOut] + Events(rest)
            case Broken => [Failed] + Events(rest)
            case Received(c) => if c == '\n' then [Line(line + ['\n'])] + Events(rest) else EventsFrom(rest, line + [c])
  {
    assert ([item] + rest)[1..] == rest;
  }

  lemma FromNothing(items: seq<Item>)
    ensures EventsFrom(items, []) == Events(items)
  {
  }

  /** Reading goes on where it stands: what was received before is over or in the buffer. */
  lemma {:induction false} EventsAfter(front: seq<Item>, rest: seq<Item>)
    ensures Events(front + rest) == Complete(front) + EventsFrom(rest, Buffered(front))
  {
    hide ReadLine, EventsFrom, Events;
    FromNothing(rest);
    if front == [] {
      assert front + rest == rest && [] + EventsFrom(rest, []) == Events(rest);
    } else {
      var n := |front| - 1;
      assert front + rest == front[..n] + ([front[n]] + rest);
      EventsAfter(front[..n], [front[n]] + rest);
      EventsFromNext(front[n], rest, Buffered(front[..n]));
    }
  }

  /** The line that the end of the input leaves unfinished. */
  function Unended(items: seq<Item>): seq<Event> {
    if Buffered(items) == [] then [] else [Line(Buffered(items))]
  }

  /** All reads of an input, told from its items: the events that are over, then an unfinished line, then the end. */
  lemma EventsAre(items: seq<Item>)
    ensures Events(items) == Complete(items) + Unended(items) + [Eof]
  {
    EventsAfter(items, []);
    assert items + [] == items;
  }

  /** A break in the middle of a line is seen as an error, whatever has been received of the line. */
  lemma BreakIsSeen(items: seq<Item>, rest: seq<Item>)
    ensures Events(items + [Broken] + rest) == Complete(items) + [Failed] + Events(rest)
  {
    assert items + [Broken] + rest == items + ([Broken] + rest);
    EventsAfter(items, [Broken] + rest);
    EventsFromNext(Broken, rest, Buffered(items));
  }

  /** For one line in the making: an error, or the end of the input, is the next thing seen. */
  lemma {:induction false} StretchEnds(chars: seq<Item>, rest: seq<Item>)
    requires forall i | 0 <= i < |chars| :: chars[i].Received? && chars[i].c != '\n'
    ensures Events(chars + [Broken] + rest)[0] == Failed
    ensures chars != [] ==> Events(chars) == [Line(Typed(chars)), Eof]
  {
    BreakIsSeen(chars, rest);
    EventsAre(chars);
    StretchIsBuffered(chars);
  }

  lemma {:induction false} StretchIsBuffered(chars: seq<Item>)
    requires forall i | 0 <= i < |chars| :: chars[i].Received? && chars[i].c != '\n'
    ensures Complete(chars) == [] && Buffered(chars) == Typed(chars) && |Typed(chars)| == |chars|
  {
    if chars != [] {
      StretchIsBuffered(chars[..|chars| - 1]);
    }
  }

  // ----- one connection -----

  const PONG := "PONG\n"
  const STREAM_OK := "STREAM OK\n"
  const STOP_OK := "STOP OK\n"
  const ERR_INVALID := "ERR Invalid command\n"

  /** A non-empty trimmed line, classified in the order the dispatch tests it. */
  datatype Request =
    | Ping
    | Stream(tickers: seq<string>)
    | BadStream
    | Stop
    | Invalid

  function Classify(msg: string, validAddr: string -> bool): Request {
    if StartsWith(msg, "PING") then Ping
    else if StartsWith(msg, "STREAM ") then
      var parts := Words(msg);
      if |parts| < 3 || !validAddr(parts[1]) then BadStream else Stream(parts[2..])
    else if StartsWith(msg, "STOP") then Stop
    else Invalid
  }

  /** Why the handler returned. */
  datatype End = PeerClosed | KeepAliveExpired | ReadError | WriteError | BadCommand | BindError

  /** Calls of the handler on the quote server. */
  datatype Call = AddCall(tickers: seq<string>, id: nat) | RemoveCall(id: nat)

  /** The handler's local variables, with what it has written and called so far and how often it has read. */
  datatype Conn = Conn(clientId: Option<nat>, lastPing: nat, turns: nat, replies: seq<string>, writes: nat,
                       calls: seq<Call>, adds: nat, end: Option<End>)

  /** The outside: the address parser, the clock in milliseconds at the n-th read, the id returned by the
      n-th registration, and whether the n-th write and the n-th UDP bind succeed. */
  datatype World = World(validAddr: string -> bool, now: nat -> nat, ids: nat -> nat,
                         writeOk: nat -> bool, bindOk: nat -> bool)

  function Opened(at: nat): Conn {
    Conn(None, at, 0, [], 0, [], 0, None)
  }

  /** `stream.write_all`: a failed write ends the handler through `?`. */
  function Write(c: Conn, text: string, world: World): Conn {
    if world.writeOk(c.writes) then c.(replies := c.replies + [text], writes := c.writes + 1)
    else c.(writes := c.writes + 1, end := Some(WriteError))
  }

  /** `if let Some(id) = client_id.take() { quote_server.remove_client(id)?; }` */
  function Unsubscribe(c: Conn): Conn {
    if c.clientId.Some? then c.(clientId := None, calls := c.calls + [RemoveCall(c.clientId.value)]) else c
  }

  /** A registration overwrites `client_id` without removing the old client. */
  function Subscribe(c: Conn, tickers: seq<string>, world: World): Conn {
    var id := world.ids(c.adds);
    c.(clientId := Some(id), calls := c.calls + [AddCall(tickers, id)], adds := c.adds + 1)
  }

  function Serve(c: Conn, request: Request, world: World): Conn {
    match request
    case Ping => Write(c, PONG, world)
    case Stream(tickers) =>
      if world.bindOk(c.adds) then Write(Subscribe(c, tickers, world), STREAM_OK, world) else c.(end := Some(BindError))
    case BadStream => c.(end := Some(BadCommand))
    case Stop => Write(Unsubscribe(c), STOP_OK, world)
    case Invalid => Write(c, ERR_INVALID, world)
  }

  /** `elapsed().as_secs() > CLIENT_KEEP_ALIVE_SEC`: whole seconds, rounded down. */
  predicate Expired(lastPing: nat, now: nat) {
    now >= lastPing && (now - lastPing) / 1000 > CLIENT_KEEP_ALIVE_SEC
  }

  /** One iteration of the handler's loop. */
  function React(c: Conn, event: Event, world: World): Conn {
    var now := world.now(c.turns);
    var c' := c.(turns := c.turns + 1);
    match event
    case Eof => c'.(end := Some(PeerClosed))
    case Line(text) =>
      var heard := c'.(lastPing := now);
      if Trim(text) == [] then heard else Serve(heard, Classify(Trim(text), world.validAddr), world)
    case TimedOut => if Expired(c.lastPing, now) then Unsubscribe(c').(end := Some(KeepAliveExpired)) else c'
    case Failed => Unsubscribe(c').(end := Some(ReadError))
  }

  /** What one turn can do: at most one write and at most one call; it is only lines that count as a sign of
      life, only a line is answered, and every way to return has its own cause. */
  lemma TurnEffects(c: Conn, event: Event, world: World)
    requires c.end == None
    ensures var c' := React(c, event, world);
            && c.writes <= c'.writes <= c.writes + 1 && |c.calls| <= |c'.calls| <= |c.calls| + 1 && c.calls <= c'.calls
            && c'.lastPing == (if event.Line? then world.now(c.turns) else c.lastPing)
            && |c'.replies| == |c.replies| + (if c'.writes > c.writes && c'.end == None then 1 else 0)
            && c.replies <= c'.replies && (c'.writes > c.writes ==> event.Line?)
            && (c'.end == Some(PeerClosed) <==> event == Eof)
            && (c'.end == Some(ReadError) <==> event == Failed)
            && (c'.end == Some(KeepAliveExpired) <==> event == TimedOut && Expired(c.lastPing, world.now(c.turns)))
            && (c'.end == Some(WriteError) <==> c'.writes > c.writes && !world.writeOk(c.writes))
            && (c'.end.Some? && c'.end.value in {BadCommand, BindError} ==> event.Line? && c'.calls == c.calls)
            && (event == TimedOut && c'.end == None ==> c' == c.(turns := c.turns + 1))
  {
    hide Trim, Classify;
  }

  /** The dispatch precedence, by the text of the line alone. */
  lemma DispatchOrder(c: Conn, text: string, world: World)
    requires c.end == None && Trim(text) != []
    ensures var msg, c' := Trim(text), React(c, Line(text), world);
            && ("PING" <= msg ==>
                  c'.calls == c.calls && (world.writeOk(c.writes) ==> c'.replies == c.replies + ["PONG\n"]))
            && ("STREAM " <= msg ==>
                  if |Words(msg)| >= 3 && world.validAddr(Words(msg)[1]) && world.bindOk(c.adds)
                  then c'.calls == c.calls + [AddCall(Words(msg)[2..], world.ids(c.adds))]
                       && c'.clientId == Some(world.ids(c.adds))
                       && (world.writeOk(c.writes) ==> c'.replies == c.replies + ["STREAM OK\n"])
                  else c'.calls == c.calls && c'.replies == c.replies && c'.clientId == c.clientId && c'.end.Some?)
            && ("STOP" <= msg ==>
                  c'.clientId == None
                  && c'.calls == c.calls + (if c.clientId.Some? then [RemoveCall(c.clientId.value)] else [])
                  && (world.writeOk(c.writes) ==> c'.replies == c.replies + ["STOP OK\n"]))
            && (!("PING" <= msg) && !("STREAM " <= msg) && !("STOP" <= msg) ==>
                  c'.calls == c.calls && c'.clientId == c.clientId
                  && (world.writeOk(c.writes) ==> c'.replies == c.replies + ["ERR Invalid command\n"]))
  {
    hide Trim, Words;
    FirstLetters(Trim(text));
  }

  /** The three command words exclude one another. */
  lemma FirstLetters(msg: string)
    ensures "STREAM " <= msg || "STOP" <= msg ==> !("PING" <= msg)
    ensures "STOP" <= msg ==> !("STREAM " <= msg)
  {
    if "PING" <= msg {
      assert msg[0] == "PING"[0];
    }
    if "STREAM " <= msg {
      assert msg[2] == "STREAM "[2] && msg[0] == "STREAM "[0];
    }
    if "STOP" <= msg {
      assert msg[2] == "STOP"[2] && msg[0] == "STOP"[0];
    }
  }

  /** The loop, stopping when the handler returns. */
  function Handle(c: Conn, events: seq<Event>, world: World): Conn {
    if events == [] then c
    else
      var n := |events| - 1;
      var before := Handle(c, events[..n], world);
      if before.end.Some? then before else React(before, events[n], world)
  }

  lemma {:induction false} HandleHead(c: Conn, event: Event, events: seq<Event>, world: World)
    requires c.end == None
    ensures Handle(c, [event] + events, world) == Handle(React(c, event, world), events, world)
  {
    var all := [event] + events;
    if events == [] {
      assert all[..0] == [];
      assert Handle(c, [], world) == c;
    } else {
      var n := |events| - 1;
      assert all[..n + 1] == [event] + events[..n];
      HandleHead(c, event, events[..n], world);
    }
  }

  lemma {:induction false} HandleEnded(c: Conn, events: seq<Event>, world: World)
    requires c.end.Some?
    ensures Handle(c, events, world) == c
  {
    if events != [] {
      HandleEnded(c, events[..|events| - 1], world);
    }
  }

  lemma {:induction false} HandleConcat(c: Conn, a: seq<Event>, b: seq<Event>, world: World)
    ensures var before := Handle(c, a, world);
            Handle(c, a + b, world) == if before.end.Some? then before else Handle(before, b, world)
  {
    hide React;
    if b == [] {
      assert a + b == a;
    } else {
      var n := |b| - 1;
      assert (a + b)[..|a + b| - 1] == a + b[..n];
      HandleConcat(c, a, b[..n], world);
    }
  }

  /** The handler at a break, or at the end of the input. */
  function HandlerAt(items: seq<Item>, world: World, connectedAt: nat): Conn {
    Handle(Opened(connectedAt), Complete(items), world)
  }

  /** A connection that breaks under a live handler: the handler removes the client it has, and returns. */
  ghost predicate BreaksOff(before: Conn, c: Conn) {
    && c.end == Some(ReadError) && c.clientId == None && c.replies == before.replies
    && c.calls == before.calls + if before.clientId.Some? then [RemoveCall(before.clientId.value)] else []
  }

  lemma BreakEndsHandler(items: seq<Item>, i: nat, world: World, connectedAt: nat)
    requires i < |items| && items[i] == Broken && HandlerAt(items[..i], world, connectedAt).end == None
    ensures BreaksOff(HandlerAt(items[..i], world, connectedAt), Handle(Opened(connectedAt), Events(items), world))
  {
    hide Complete, Events, Handle;
    var front, rest := items[..i], items[i + 1..];
    var before := HandlerAt(front, world, connectedAt);
    assert items == front + [Broken] + rest;
    BreakIsSeen(front, rest);
    assert Complete(front) + [Failed] + Events(rest) == Complete(front) + ([Failed] + Events(rest));
    HandleConcat(Opened(connectedAt), Complete(front), [Failed] + Events(rest), world);
    HandleHead(before, Failed, Events(rest), world);
    HandleEnded(React(before, Failed, world), Events(rest), world);
  }

  /** The peer closes under a live handler: the unfinished line is served, and nothing is removed. */
  lemma EndOfInput(items: seq<Item>, world: World, connectedAt: nat)
    ensures var last := Handle(Opened(connectedAt), Complete(items) + Unended(items), world);
            Handle(Opened(connectedAt), Events(items), world) ==
            if last.end.Some? then last else last.(turns := last.turns + 1, end := Some(PeerClosed))
  {
    EventsAre(items);
    HandleConcat(Opened(connectedAt), Complete(items) + Unended(items), [Eof], world);
    var last := Handle(Opened(connectedAt), Complete(items) + Unended(items), world);
    if last.end == None {
      assert [Eof] == [Eof] + [];
      HandleHead(last, Eof, [], world);
    }
  }

  /** `handle_connection`. */
  method HandleConnection(items: seq<Item>, world: World, connectedAt: nat) returns (c: Conn)
    ensures c == Handle(Opened(connectedAt), Events(items), world)
    ensures c.end.Some?
    ensures forall i: nat | i < |items| && items[i] == Broken
            && HandlerAt(items[..i], world, connectedAt).end == None ::
              BreaksOff(HandlerAt(items[..i], world, connectedAt), c)
  {
    forall i: nat | i < |items| && items[i] == Broken && HandlerAt(items[..i], world, connectedAt).end == None
      ensures BreaksOff(HandlerAt(items[..i], world, connectedAt), Handle(Opened(connectedAt), Events(items), world))
    {
      BreakEndsHandler(items, i, world, connectedAt);
    }
    hide React, Handle, ReadLine, HandlerAt, BreaksOff;
    c := Opened(connectedAt);
    var input := items;
    ghost var left := Events(items);
    while c.end == None
      invariant c.end == None ==> left == Events(input)
      invariant Handle(Opened(connectedAt), Events(items), world) == Handle(c, left, world)
      invariant c.end.Some? ==> Handle(c, left, world) == c
      decreases |input|, c.end == None
    {
      var event;
      ghost var more := left[1..];
      ghost var before := input;
      event, input := ReadLineLoop(input);
      LastEventIsEof(before);
      assert left == [event] + more;
      HandleHead(c, event, more, world);
      c := OneTurn(c, event, world);
      left := more;
      if c.end.Some? {
        HandleEnded(c, left, world);
      }
    }
  }

  lemma LastEventIsEof(items: seq<Item>)
    ensures Events(items)[0] == ReadLine(items, []).0
    ensures if items == [] then Events(items)[1..] == [] && Events(items)[0] == Eof
            else Events(items)[1..] == Events(ReadLine(items, []).1) && |ReadLine(items, []).1| < |items|
  {
  }

  /** One turn of the loop: dispatch a line, check the keep-alive clock, or return. */
  method OneTurn(c: Conn, event: Event, world: World) returns (c': Conn)
    ensures c' == React(c, event, world)
    ensures event == Eof ==> c'.end.Some?
  {
    hide Trim, Classify, Serve, Write, Unsubscribe;
    var now := world.now(c.turns);
    c' := c.(turns := c.turns + 1);
    match event {
      case Eof =>
        c' := c'.(end := Some(PeerClosed));
      case Line(text) =>
        c' := c'.(lastPing := now);
        var msg := Trim(text);
        if msg != [] {
          c' := Dispatch(c', msg, world);
        }
      case TimedOut =>
        if Expired(c.lastPing, now) {
          c' := Unsubscribe(c').(end := Some(KeepAliveExpired));
        }
      case Failed =>
        c' := Unsubscribe(c').(end := Some(ReadError));
    }
  }

  /** The command dispatch, with `handle_ping`, `handle_stop` and `handle_invalid`. */
  method Dispatch(c: Conn, msg: string, world: World) returns (c': Conn)
    ensures c' == Serve(c, Classify(msg, world.validAddr), world)
  {
    hide StartsWith, Words, Write, Unsubscribe;
    if StartsWith(msg, "PING") {
      c' := Write(c, PONG, world);
    } else if StartsWith(msg, "STREAM ") {
      c' := HandleStream(c, msg, world);
    } else if StartsWith(msg, "STOP") {
      c' := Write(Unsubscribe(c), STOP_OK, world);
    } else {
      c' := Write(c, ERR_INVALID, world);
    }
  }

  /** `handle_stream`. */
  method HandleStream(c: Conn, msg: string, world: World) returns (c': Conn)
    requires StartsWith(msg, "STREAM ") && !StartsWith(msg, "PING")
    ensures c' == Serve(c, Classify(msg, world.validAddr), world)
  {
    hide StartsWith, Words, Write, Subscribe;
    var parts := Words(msg);
    if |parts| < 3 {
      return c.(end := Some(BadCommand));
    }
    if !world.validAddr(parts[1]) {
      return c.(end := Some(BadCommand));
    }
    var tickers := parts[2..];
    if !world.bindOk(c.adds) {
      return c.(end := Some(BindError));
    }
    c' := Subscribe(c, tickers, world);
    c' := Write(c', STREAM_OK, world);
  }
}
