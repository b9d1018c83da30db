/** The client's threads and the server on the connections between them: replies never pair with the wrong
    line (bins/client/main.rs against src/tcp_server.rs). */
module ClientNets {
  import opened Defs
  import opened Text
  import opened QuoteClients
  import T = TcpServers

  // ----- connections -----

  /** One TCP connection: bytes on the way to the server, the line its handler is reading, bytes on the way
      back, whether the client has dropped its handles, and the handler. For the record, how often a read
      timeout has cost the handler part of a line, and the last line it was given. */
  datatype Link = Link(inbox: string, line: string, outbox: string, dropped: bool, conn: T.Conn,
                       cuts: nat, heard: string)

  function Fresh(at: nat): Link {
    Link("", "", "", false, T.Opened(at), 0, "")
  }

  /** What happens to the handler's read. */
  datatype Input = Take | Silence | Break | Close

  predicate CanServe(link: Link, input: Input) {
    && link.conn.end == None
    && match input
       case Take => link.inbox != ""
       case Close => link.dropped && link.inbox == ""
       case _ => true
  }

  /** The handler's next step; `written` is how much of a reply a failing write still gets through. */
  function Served(link: Link, input: Input, world: T.World, written: nat): Link
    requires CanServe(link, input)
  {
    match input
    case Take =>
      var c := link.inbox[0];
      var rest := link.(inbox := link.inbox[1..]);
      if c == '\n' then Turned(rest, T.Line(link.line + [c]), world, written) else rest.(line := link.line + [c])
    case Silence =>
      Turned(link, T.TimedOut, world, written).(cuts := link.cuts + if link.line == "" then 0 else 1)
    case Break => Turned(link, T.Failed, world, written)
    case Close => Turned(link, if link.line == "" then T.Eof else T.Line(link.line), world, written)
  }

  /** One turn of `handle_connection`, with what it puts on the wire. */
  function Turned(link: Link, event: T.Event, world: T.World, written: nat): Link {
    var conn := T.React(link.conn, event, world);
    var out := if conn.writes == link.conn.writes || !event.Line? then ""
               else if |conn.replies| > |link.conn.replies| then conn.replies[|link.conn.replies|]
               else Cut(Answer(event.text, world.validAddr), written);
    link.(line := "", conn := conn, outbox := link.outbox + out,
          heard := if event.Line? then event.text else link.heard)
  }

  function Cut(text: string, n: nat): string {
    if n < |text| then text[..n] else text
  }

  /** A handler puts at most one reply on the wire per line, and none for anything else: the answer to the
      line, or a part of it when the handler ends. */
  lemma AtMostOneReply(c: T.Conn, event: T.Event, world: T.World)
    requires c.end == None
    ensures var c' := T.React(c, event, world);
            if event.Line? && c'.writes != c.writes
            then c'.writes == c.writes + 1
                 && c'.replies == c.replies + (if c'.end == None then [Answer(event.text, world.validAddr)] else [])
            else c'.writes == c.writes && c'.replies == c.replies
                 && (event.Line? ==> Answer(event.text, world.validAddr) == [] || c'.end.Some?)
  {
    hide Trim, T.Classify;
  }

  lemma TurnedOutput(link: Link, event: T.Event, world: T.World, written: nat)
    requires link.conn.end == None
    ensures var link' := Turned(link, event, world, written);
            if event.Line? then
              exists out :: link'.outbox == link.outbox + out && out <= Answer(event.text, world.validAddr)
                            && (out == Answer(event.text, world.validAddr) || link'.conn.end.Some?)
            else link'.outbox == link.outbox
  {
    hide T.React, Answer;
    AtMostOneReply(link.conn, event, world);
    var link' := Turned(link, event, world, written);
    if event.Line? {
      var out := link'.outbox[|link.outbox|..];
      assert link'.outbox == link.outbox + out;
      assert out <= Answer(event.text, world.validAddr);
    }
  }

  // ----- the threads of the client -----

  /** A thread of the client. From `WantsReader` on it holds the stream lock, from `Sending` to `Releasing`
      the reader lock as well. `since` is the number of cut lines when it began to write. */
  datatype Pc =
    | Idle
    | WantsStream(ask: Ask)
    | WantsReader(ask: Ask)
    | Sending(ask: Ask, rest: string, since: nat)
    | Reading(ask: Ask, buf: string, since: nat)
    | Failing
    | HalfSwapped
    | Releasing
    | Leaving

  /** A completed exchange: what was asked, the line the server heard for it, the reply that was read, and
      whether a read timeout of the server cut the line. */
  datatype Exchange = Exchange(ask: Ask, heard: string, reply: string, interrupted: bool)

  /** Both handles are numbers of connections; `stream` and `reader` are each behind its own mutex. */
  datatype Net = Net(links: seq<Link>, stream: nat, reader: nat, streamLock: Option<nat>, readerLock: Option<nat>,
                     threads: seq<Pc>, log: seq<Exchange>, validAddr: string -> bool)

  function Connected(threads: nat, at: nat, validAddr: string -> bool): Net {
    Net([Fresh(at)], 0, 0, None, None, seq(threads, _ => Idle), [], validAddr)
  }

  datatype Move =
    | Begin(ask: Ask)
    | LockStream
    | LockReader
    | Send                 // one character of the line
    | SendFails
    | Receive              // one character of the reply, or the end of input
    | ReadFails            // the read timeout of five seconds, or an error
    | Reconnect(at: nat)   // `connect` succeeds, and the stream handle is replaced
    | SwapReader           // the reader handle is replaced; the old connection is closed
    | UnlockReader
    | UnlockStream

  datatype Step =
    | Local(t: nat, move: Move)
    | Remote(k: nat, input: Input, world: T.World, written: nat)

  predicate CanMove(n: Net, t: nat, move: Move)
    requires t < |n.threads| && n.stream < |n.links| && n.reader < |n.links|
  {
    var pc := n.threads[t];
    match move
    case Begin(ask) => pc == Idle && Sendable(ask)
    case LockStream => pc.WantsStream? && n.streamLock == None
    case LockReader => pc.WantsReader? && n.readerLock == None
    case Send => pc.Sending?
    case SendFails => pc.Sending?
    case Receive => pc.Reading? && (n.links[n.reader].outbox != "" || n.links[n.reader].conn.end.Some?)
    case ReadFails => pc.Reading?
    case Reconnect(_) => pc == Failing
    case SwapReader => pc == HalfSwapped
    case UnlockReader => pc == Releasing
    case UnlockStream => pc == Leaving
  }

  ghost predicate Possible(n: Net, step: Step) {
    n.stream < |n.links| && n.reader < |n.links|
    && match step
       case Local(t, move) => t < |n.threads| && CanMove(n, t, move)
       case Remote(k, input, world, _) =>
         k < |n.links| && CanServe(n.links[k], input) && world.validAddr == n.validAddr
  }

  ghost function Next(n: Net, step: Step): Net
    requires Possible(n, step)
  {
    match step
    case Local(t, move) => Moved(n, t, move)
    case Remote(k, input, world, written) => n.(links := n.links[k := Served(n.links[k], input, world, written)])
  }

  function Moved(n: Net, t: nat, move: Move): Net
    requires t < |n.threads| && n.stream < |n.links| && n.reader < |n.links| && CanMove(n, t, move)
  {
    var pc := n.threads[t];
    match move
    case Begin(ask) => SetThread(n, t, WantsStream(ask))
    case LockStream => SetThread(n, t, WantsReader(pc.ask)).(streamLock := Some(t))
    case LockReader => SetThread(n, t, Sending(pc.ask, Sent(pc.ask), n.links[n.stream].cuts)).(readerLock := Some(t))
    case Send => Written(n, t)
    case SendFails => SetThread(n, t, Failing)
    case Receive => Received(n, t)
    case ReadFails => SetThread(n, t, Failing)
    case Reconnect(at) => SetThread(n, t, HalfSwapped).(links := n.links + [Fresh(at)], stream := |n.links|)
    case SwapReader =>
      SetThread(n, t, Releasing).(links := n.links[n.reader := n.links[n.reader].(dropped := true)], reader := n.stream)
    case UnlockReader => SetThread(n, t, Leaving).(readerLock := None)
    case UnlockStream => SetThread(n, t, Idle).(streamLock := None)
  }

  function SetThread(n: Net, t: nat, pc: Pc): Net
    requires t < |n.threads|
  {
    n.(threads := n.threads[t := pc])
  }

  /** The next character is written; after the last one the line is flushed and the reply awaited. */
  function Written(n: Net, t: nat): Net
    requires t < |n.threads| && n.stream < |n.links| && n.threads[t].Sending?
  {
    var pc, link := n.threads[t], n.links[n.stream];
    if pc.rest == "" then SetThread(n, t, Reading(pc.ask, "", pc.since))
    else SetThread(SetLink(n, n.stream, link.(inbox := link.inbox + [pc.rest[0]])), t, pc.(rest := pc.rest[1..]))
  }

  /** `read_line` goes on until a newline or the end of input, which is an error if nothing has come. */
  function Received(n: Net, t: nat): Net
    requires t < |n.threads| && n.reader < |n.links| && n.threads[t].Reading?
  {
    var pc, link := n.threads[t], n.links[n.reader];
    if link.outbox == "" then
      if pc.buf == "" then SetThread(n, t, Failing) else Replied(n, t, pc, pc.buf)
    else
      var n' := SetLink(n, n.reader, link.(outbox := link.outbox[1..]));
      if link.outbox[0] == '\n' then Replied(n', t, pc, pc.buf + ['\n'])
      else SetThread(n', t, pc.(buf := pc.buf + [link.outbox[0]]))
  }

  function SetLink(n: Net, k: nat, link: Link): Net
    requires k < |n.links|
  {
    n.(links := n.links[k := link])
  }

  /** `read_line` has returned a reply: the exchange is over, or, for a PING not answered with PONG, failed. */
  function Replied(n: Net, t: nat, pc: Pc, reply: string): Net
    requires t < |n.threads| && n.reader < |n.links| && pc.Reading?
  {
    var link := n.links[n.reader];
    if Accepts(pc.ask, reply)
    then SetThread(n, t, Releasing).(log := n.log + [Exchange(pc.ask, link.heard, reply, link.cuts != pc.since)])
    else SetThread(n, t, Failing)
  }

  // ----- the invariant -----

  predicate HoldsStream(pc: Pc) {
    !pc.Idle? && !pc.WantsStream?
  }

  predicate HoldsReader(pc: Pc) {
    HoldsStream(pc) && !pc.WantsReader? && !pc.Leaving?
  }

  predicate IsSuffix(a: string, b: string) {
    |a| <= |b| && a == b[|b| - |a|..]
  }

  /** Nothing is under way on the connection. */
  predicate Quiet(link: Link) {
    link.inbox == "" && link.line == "" && link.outbox == "" && !link.dropped
  }

  /** What the server has of the line and what is still to come. */
  function Pending(link: Link, rest: string): string {
    link.line + (link.inbox + rest)
  }

  /** The server has not yet read the newline. What it has of the line and what is still to come is the line
      sent, or after a timeout the rest of it. */
  predicate Unanswered(link: Link, rest: string, sent: string, since: nat) {
    && !link.dropped && link.outbox == "" && link.inbox + rest != ""
    && IsSuffix(Pending(link, rest), sent)
    && since <= link.cuts && (link.cuts > since ==> Pending(link, rest) != sent)
    && (link.cuts == since && link.conn.end == None ==> Pending(link, rest) == sent)
  }

  /** The server has heard the line, or the rest of it, and what it put on the wire is the answer, whole
      unless the handler has ended. */
  predicate Answered(link: Link, buf: string, sent: string, since: nat, validAddr: string -> bool) {
    && !link.dropped && link.inbox == "" && link.line == ""
    && IsSuffix(link.heard, sent) && since <= link.cuts && (link.cuts == since <==> link.heard == sent)
    && buf + link.outbox <= Answer(link.heard, validAddr)
    && (buf + link.outbox == Answer(link.heard, validAddr) || link.conn.end.Some?)
  }

  /** How far the thread that holds the stream lock has got. */
  predicate Stage(pc: Pc, link: Link, validAddr: string -> bool) {
    match pc
    case Idle => false
    case WantsStream(_) => false
    case Sending(ask, rest, since) =>
      && Sendable(ask) && IsSuffix(rest, Sent(ask))
      && (Unanswered(link, rest, Sent(ask), since) || (rest == "" && Answered(link, "", Sent(ask), since, validAddr)))
    case Reading(ask, buf, since) =>
      && Sendable(ask)
      && ((buf == "" && Unanswered(link, "", Sent(ask), since)) || Answered(link, buf, Sent(ask), since, validAddr))
    case Failing => !link.dropped
    case WantsReader(ask) => Sendable(ask) && Quiet(link)
    case _ => Quiet(link)
  }

  /** What the reply of a completed exchange is: the answer to the line the server heard, which is the line
      sent if and only if no read timeout of the server cut it, and else a rest of it. Without its newline
      the reply can only be the beginning of that answer. */
  predicate ExchangeOk(e: Exchange, validAddr: string -> bool) {
    && Sendable(e.ask) && IsSuffix(e.heard, Sent(e.ask)) && (!e.interrupted <==> e.heard == Sent(e.ask))
    && e.reply != "" && e.reply <= Answer(e.heard, validAddr)
    && (e.reply[|e.reply| - 1] == '\n' ==> e.reply == Answer(e.heard, validAddr))
    && Accepts(e.ask, e.reply)
  }

  ghost predicate LocksOk(streamLock: Option<nat>, readerLock: Option<nat>, threads: seq<Pc>) {
    && (streamLock.Some? ==> streamLock.value < |threads| && HoldsStream(threads[streamLock.value]))
    && (readerLock.Some? ==> readerLock.value < |threads| && HoldsReader(threads[readerLock.value]))
    && (forall t: nat | t < |threads| :: HoldsStream(threads[t]) ==> streamLock == Some(t))
    && (forall t: nat | t < |threads| :: HoldsReader(threads[t]) ==> readerLock == Some(t))
    && (forall t: nat | t < |threads| && threads[t].WantsStream? :: Sendable(threads[t].ask))
  }

  /** Where the connection in use stands: quiet when the locks are free, else at the stage of their holder. */
  ghost predicate HandlesOk(n: Net) {
    && n.stream < |n.links| && n.reader < |n.links|
    && match n.streamLock
       case None => n.stream == n.reader && Quiet(n.links[n.stream])
       case Some(t) =>
         && t < |n.threads| && Stage(n.threads[t], n.links[n.stream], n.validAddr)
         && (n.stream == n.reader <==> n.threads[t] != HalfSwapped)
  }

  ghost predicate LogOk(log: seq<Exchange>, validAddr: string -> bool) {
    forall i | 0 <= i < |log| :: ExchangeOk(log[i], validAddr)
  }

  ghost predicate NetOk(n: Net) {
    LocksOk(n.streamLock, n.readerLock, n.threads) && HandlesOk(n) && LogOk(n.log, n.validAddr)
  }

  // ----- what the server does to the connection in use -----

  lemma EndsInNewline(ask: Ask)
    requires Sendable(ask)
    ensures Sent(ask) != "" && Sent(ask)[|Sent(ask)| - 1] == '\n'
    ensures forall i | 0 <= i < |Sent(ask)| - 1 :: Sent(ask)[i] != '\n'
  {
  }

  /** Of a suffix of a line, only the last character is the newline. */
  lemma NewlineIsLast(ask: Ask, a: string, c: char, b: string)
    requires Sendable(ask) && IsSuffix(a + ([c] + b), Sent(ask))
    ensures c == '\n' <==> b == ""
  {
    EndsInNewline(ask);
    hide Sent, Sendable;
    var s := a + ([c] + b);
    assert s[|a|] == c;
    assert Sent(ask)[|Sent(ask)| - |s| + |a|] == c;
  }

  lemma SuffixOfSuffix(a: string, b: string, s: string)
    requires IsSuffix(a + b, s)
    ensures IsSuffix(b, s)
  {
    assert b == (a + b)[|a|..];
  }

  lemma QuietServed(link: Link, input: Input, world: T.World, written: nat)
    requires Quiet(link) && CanServe(link, input)
    ensures Quiet(Served(link, input, world, written))
  {
    hide T.React, Answer;
    TurnedOutput(link, if input.Silence? then T.TimedOut else T.Failed, world, written);
  }

  lemma BreakEnds(c: T.Conn, world: T.World)
    ensures T.React(c, T.Failed, world).end.Some?
  {
  }

  lemma UnansweredTakes(link: Link, rest: string, ask: Ask, since: nat, world: T.World, written: nat)
    requires Sendable(ask) && Unanswered(link, rest, Sent(ask), since) && CanServe(link, Take)
    ensures var link' := Served(link, Take, world, written);
            || Unanswered(link', rest, Sent(ask), since)
            || (rest == "" && Answered(link', "", Sent(ask), since, world.validAddr))
  {
    hide T.React, Answer, IsSuffix, Sent, Sendable;
    var c, more := link.inbox[0], link.inbox[1..];
    assert link.inbox + rest == [c] + (more + rest);
    NewlineIsLast(ask, link.line, c, more + rest);
    if c == '\n' {
      assert Pending(link, rest) == link.line + [c];
      TurnedOutput(link.(inbox := more), T.Line(link.line + [c]), world, written);
    } else {
      assert link.line + ([c] + (more + rest)) == (link.line + [c]) + (more + rest);
    }
  }

  /** What is left after part of a line is lost is not the line sent. */
  lemma CutIsShorter(link: Link, rest: string, sent: string)
    requires IsSuffix(Pending(link, rest), sent)
    ensures link.line != "" ==> link.inbox + rest != sent
    ensures link.line == "" ==> Pending(link, rest) == link.inbox + rest
  {
    assert |Pending(link, rest)| == |link.line| + |link.inbox + rest|;
  }

  lemma UnansweredServed(link: Link, rest: string, ask: Ask, since: nat, input: Input, world: T.World, written: nat)
    requires Sendable(ask) && Unanswered(link, rest, Sent(ask), since) && CanServe(link, input)
    ensures var link' := Served(link, input, world, written);
            || Unanswered(link', rest, Sent(ask), since)
            || (rest == "" && Answered(link', "", Sent(ask), since, world.validAddr))
  {
    hide T.React, Answer, IsSuffix, Sent, Sendable, Answered;
    if input.Take? {
      UnansweredTakes(link, rest, ask, since, world, written);
    } else {
      TurnedOutput(link, if input.Silence? then T.TimedOut else T.Failed, world, written);
      BreakEnds(link.conn, world);
      SuffixOfSuffix(link.line, link.inbox + rest, Sent(ask));
      assert Pending(Served(link, input, world, written), rest) == link.inbox + rest;
      CutIsShorter(link, rest, Sent(ask));
    }
  }

  lemma AnsweredServed(link: Link, buf: string, sent: string, since: nat, input: Input, world: T.World, written: nat)
    requires Answered(link, buf, sent, since, world.validAddr) && CanServe(link, input)
    ensures Answered(Served(link, input, world, written), buf, sent, since, world.validAddr)
  {
    hide T.React, Answer, IsSuffix;
    TurnedOutput(link, if input.Silence? then T.TimedOut else T.Failed, world, written);
  }

  lemma StageServed(pc: Pc, link: Link, input: Input, world: T.World, written: nat)
    requires Stage(pc, link, world.validAddr) && CanServe(link, input)
    ensures Stage(pc, Served(link, input, world, written), world.validAddr)
  {
    hide Quiet, Unanswered, Answered, T.React, Sendable, IsSuffix;
    match pc
    case Sending(ask, rest, since) =>
      if Unanswered(link, rest, Sent(ask), since) {
        UnansweredServed(link, rest, ask, since, input, world, written);
      } else {
        AnsweredServed(link, "", Sent(ask), since, input, world, written);
      }
    case Reading(ask, buf, since) =>
      if buf == "" && Unanswered(link, "", Sent(ask), since) {
        UnansweredServed(link, "", ask, since, input, world, written);
      } else {
        AnsweredServed(link, buf, Sent(ask), since, input, world, written);
      }
    case Failing =>
    case _ => QuietServed(link, input, world, written);
  }

  lemma RemoteKeeps(n: Net, k: nat, input: Input, world: T.World, written: nat)
    requires NetOk(n) && Possible(n, Remote(k, input, world, written))
    ensures NetOk(Next(n, Remote(k, input, world, written)))
  {
    hide LocksOk, LogOk, Stage, Quiet, Served, CanServe;
    if k == n.stream {
      if n.streamLock == None {
        QuietServed(n.links[k], input, world, written);
      } else {
        StageServed(n.threads[n.streamLock.value], n.links[k], input, world, written);
      }
    }
  }

  // ----- what the client does -----

  /** Thread `t` moves and changes what it holds, or not. */
  lemma LocksSet(streamLock: Option<nat>, readerLock: Option<nat>, threads: seq<Pc>, t: nat, pc: Pc,
                 streamLock': Option<nat>, readerLock': Option<nat>)
    requires LocksOk(streamLock, readerLock, threads) && t < |threads| && (pc.WantsStream? ==> Sendable(pc.ask))
    requires streamLock' == if HoldsStream(pc) then Some(t) else if HoldsStream(threads[t]) then None else streamLock
    requires readerLock' == if HoldsReader(pc) then Some(t) else if HoldsReader(threads[t]) then None else readerLock
    requires HoldsStream(pc) ==> HoldsStream(threads[t]) || streamLock == None
    requires HoldsReader(pc) ==> HoldsReader(threads[t]) || readerLock == None
    ensures LocksOk(streamLock', readerLock', threads[t := pc])
  {
    hide Sendable;
  }

  lemma HolderIs(n: Net, t: nat)
    requires LocksOk(n.streamLock, n.readerLock, n.threads) && t < |n.threads|
    ensures HoldsStream(n.threads[t]) ==> n.streamLock == Some(t)
    ensures HoldsReader(n.threads[t]) ==> n.readerLock == Some(t)
  {
    hide Sendable;
  }

  lemma LocksMove(n: Net, t: nat, move: Move)
    requires LocksOk(n.streamLock, n.readerLock, n.threads)
    requires t < |n.threads| && n.stream < |n.links| && n.reader < |n.links| && CanMove(n, t, move)
    ensures var n' := Moved(n, t, move); LocksOk(n'.streamLock, n'.readerLock, n'.threads)
  {
    hide LocksOk, Sendable, Sent, Accepts;
    HolderIs(n, t);
    var n' := Moved(n, t, move);
    LocksSet(n.streamLock, n.readerLock, n.threads, t, n'.threads[t], n'.streamLock, n'.readerLock);
  }

  /** An answer ends at its only newline. */
  lemma AnswerLines(heard: string, validAddr: string -> bool, a: string, b: string)
    requires a + b <= Answer(heard, validAddr) && a != ""
    ensures a <= Answer(heard, validAddr)
    ensures a[|a| - 1] == '\n' <==> a == Answer(heard, validAddr)
    ensures a[|a| - 1] == '\n' ==> b == ""
  {
    hide Trim, T.Classify;
    var all := Answer(heard, validAddr);
    assert (a + b)[|a| - 1] == a[|a| - 1] == all[|a| - 1];
    assert |all| > 0 && all[|all| - 1] == '\n' && forall i | 0 <= i < |all| - 1 :: all[i] != '\n';
    assert a == all[..|a|];
  }

  lemma ReceiveChar(link: Link, ask: Ask, buf: string, since: nat, validAddr: string -> bool)
    requires link.outbox != "" && Answered(link, buf, Sent(ask), since, validAddr)
    ensures var c := link.outbox[0];
            var link' := link.(outbox := link.outbox[1..]);
            if c == '\n' then Quiet(link') && buf + [c] == Answer(link.heard, validAddr)
            else Answered(link', buf + [c], Sent(ask), since, validAddr)
  {
    hide IsSuffix, Sent, Answer;
    var c, more := link.outbox[0], link.outbox[1..];
    assert buf + link.outbox == (buf + [c]) + more;
    AnswerLines(link.heard, validAddr, buf + [c], more);
  }

  lemma LogMore(log: seq<Exchange>, validAddr: string -> bool, e: Exchange)
    requires LogOk(log, validAddr) && ExchangeOk(e, validAddr)
    ensures LogOk(log + [e], validAddr)
  {
  }

  /** A reply is accepted: the exchange goes on record. */
  lemma ReplyRecorded(link: Link, ask: Ask, buf: string, since: nat, validAddr: string -> bool, reply: string)
    requires Sendable(ask) && Answered(link, buf, Sent(ask), since, validAddr) && Accepts(ask, reply)
    requires reply != "" && (reply == Answer(link.heard, validAddr) || (reply == buf && link.outbox == ""))
    ensures ExchangeOk(Exchange(ask, link.heard, reply, link.cuts != since), validAddr)
  {
    hide IsSuffix, Sent, Answer, Sendable, Accepts;
    assert buf + "" == buf;
    AnswerLines(link.heard, validAddr, reply, "");
  }

  lemma NeverDropped(pc: Pc, link: Link, validAddr: string -> bool)
    requires Stage(pc, link, validAddr)
    ensures !link.dropped
  {
  }

  /** The thread that holds the stream lock, and the connection it uses. */
  lemma HolderStage(n: Net, t: nat)
    requires NetOk(n) && t < |n.threads|
    ensures n.stream < |n.links| && n.reader < |n.links|
    ensures HoldsStream(n.threads[t]) ==>
              && n.streamLock == Some(t) && Stage(n.threads[t], n.links[n.stream], n.validAddr)
              && (n.stream == n.reader <==> n.threads[t] != HalfSwapped)
    ensures n.threads[t].WantsStream? ==> Sendable(n.threads[t].ask)
    ensures n.streamLock.Some? ==> n.streamLock.value < |n.threads| && HoldsStream(n.threads[n.streamLock.value])
    ensures n.streamLock == None ==> n.stream == n.reader && Quiet(n.links[n.stream])
  {
    hide Stage, Quiet;
  }

  /** What a change of the holder's own link and place must establish. */
  lemma StageSet(n: Net, t: nat, link: Link, pc: Pc)
    requires n.stream < |n.links| && n.stream == n.reader && n.streamLock == Some(t) && t < |n.threads|
    requires Stage(pc, link, n.validAddr) && pc != HalfSwapped
    ensures HandlesOk(SetThread(SetLink(n, n.stream, link), t, pc))
  {
    hide Stage;
  }

  /** The stage after a read, by what was read. */
  lemma ReadStage(link: Link, pc: Pc, validAddr: string -> bool)
    requires pc.Reading? && Stage(pc, link, validAddr) && (link.outbox != "" || link.conn.end.Some?)
    ensures !link.dropped && Sendable(pc.ask)
    ensures link.outbox == "" && pc.buf != "" ==>
              Quiet(link) && Answered(link, pc.buf, Sent(pc.ask), pc.since, validAddr)
    ensures link.outbox != "" ==>
              var c, link' := link.outbox[0], link.(outbox := link.outbox[1..]);
              && Answered(link, pc.buf, Sent(pc.ask), pc.since, validAddr)
              && if c == '\n' then Quiet(link') && pc.buf + [c] == Answer(link.heard, validAddr)
                 else Stage(pc.(buf := pc.buf + [c]), link', validAddr)
  {
    hide IsSuffix, Sendable, Answer, Sent;
    if link.outbox != "" {
      ReceiveChar(link, pc.ask, pc.buf, pc.since, validAddr);
    }
  }

  lemma ReceiveStage(n: Net, t: nat)
    requires NetOk(n) && t < |n.threads| && n.reader < |n.links| && n.threads[t].Reading?
    requires n.links[n.reader].outbox != "" || n.links[n.reader].conn.end.Some?
    ensures HandlesOk(Received(n, t)) && LogOk(Received(n, t).log, n.validAddr)
  {
    hide LocksOk, HandlesOk, IsSuffix, Sendable, Answer, Answered, LogOk, Sent, Accepts, ExchangeOk, Quiet, Unanswered;
    HolderStage(n, t);
    var pc, link := n.threads[t], n.links[n.reader];
    ReadStage(link, pc, n.validAddr);
    var link' := if link.outbox == "" then link else link.(outbox := link.outbox[1..]);
    var reply := if link.outbox == "" then pc.buf else pc.buf + [link.outbox[0]];
    var n' := Received(n, t);
    assert n.links[n.reader := link] == n.links;
    StageSet(n.(log := n'.log), t, link', n'.threads[t]);
    if n'.log != n.log {
      ReplyRecorded(link, pc.ask, pc.buf, pc.since, n.validAddr, reply);
      LogMore(n.log, n.validAddr, Exchange(pc.ask, link.heard, reply, link.cuts != pc.since));
    }
  }

  lemma SendChar(link: Link, rest: string, ask: Ask, since: nat)
    requires Sendable(ask) && IsSuffix(rest, Sent(ask)) && rest != "" && Unanswered(link, rest, Sent(ask), since)
    ensures IsSuffix(rest[1..], Sent(ask))
    ensures Unanswered(link.(inbox := link.inbox + [rest[0]]), rest[1..], Sent(ask), since)
  {
    hide IsSuffix, Sent, Sendable;
    assert link.inbox + rest == (link.inbox + [rest[0]]) + rest[1..];
    assert rest == [rest[0]] + rest[1..];
    SuffixOfSuffix([rest[0]], rest[1..], Sent(ask));
  }

  lemma StartSending(link: Link, ask: Ask)
    requires Sendable(ask) && Quiet(link)
    ensures IsSuffix(Sent(ask), Sent(ask)) && Unanswered(link, Sent(ask), Sent(ask), link.cuts)
  {
    EndsInNewline(ask);
    hide Sent, Sendable;
    assert Pending(link, Sent(ask)) == Sent(ask);
    assert Sent(ask)[0..] == Sent(ask);
  }

  lemma SendStage(n: Net, t: nat)
    requires NetOk(n) && t < |n.threads| && n.stream < |n.links| && n.threads[t].Sending?
    ensures HandlesOk(Written(n, t))
  {
    hide LocksOk, HandlesOk, IsSuffix, Sendable, Sent, Unanswered, Answered, LogOk, Quiet;
    HolderStage(n, t);
    var pc, link := n.threads[t], n.links[n.stream];
    var n' := Written(n, t);
    if pc.rest != "" {
      SendChar(link, pc.rest, pc.ask, pc.since);
    }
    assert n.links[n.stream := link] == n.links;
    StageSet(n, t, n'.links[n.stream], n'.threads[t]);
  }

  lemma OtherStage(n: Net, t: nat, move: Move)
    requires NetOk(n) && t < |n.threads| && n.stream < |n.links| && n.reader < |n.links| && CanMove(n, t, move)
    requires !move.Send? && !move.Receive?
    ensures HandlesOk(Moved(n, t, move))
  {
    hide LocksOk, IsSuffix, Sendable, Sent, LogOk, Unanswered, Answered, Written, Received;
    HolderStage(n, t);
    if move.LockReader? {
      StartSending(n.links[n.stream], n.threads[t].ask);
    }
    if HoldsStream(n.threads[t]) {
      NeverDropped(n.threads[t], n.links[n.stream], n.validAddr);
    }
  }

  lemma LocalKeeps(n: Net, t: nat, move: Move)
    requires NetOk(n) && Possible(n, Local(t, move))
    ensures NetOk(Next(n, Local(t, move)))
  {
    hide HandlesOk, LogOk, LocksOk;
    LocksMove(n, t, move);
    if move.Receive? {
      ReceiveStage(n, t);
    } else if move.Send? {
      SendStage(n, t);
    } else {
      OtherStage(n, t, move);
    }
  }
}
