/** Runs of the interactive client against the server: lockstep, absence of deadlock, what the server hears,
    and exchanges that complete. */
module ClientRuns {
  import opened Defs
  import opened Text
  import opened QuoteClients
  import opened ClientNets
  import P = TcpProtocol
  import T = TcpServers

  // ----- runs -----

  ghost function Run(n: Net, steps: seq<Step>): Option<Net> {
    if steps == [] then Some(n)
    else
      match Run(n, steps[..|steps| - 1])
      case None => None
      case Some(before) =>
        if Possible(before, steps[|steps| - 1]) then Some(Next(before, steps[|steps| - 1])) else None
  }

  lemma ConnectedOk(threads: nat, at: nat, validAddr: string -> bool)
    ensures NetOk(Connected(threads, at, validAddr))
  {
  }

  lemma LogGrows(n: Net, t: nat, move: Move)
    requires t < |n.threads| && n.stream < |n.links| && n.reader < |n.links| && CanMove(n, t, move)
    ensures n.log <= Moved(n, t, move).log && Moved(n, t, move).validAddr == n.validAddr
  {
    hide Sent, Sendable, Accepts;
  }

  lemma StepKeeps(n: Net, step: Step)
    requires NetOk(n) && Possible(n, step)
    ensures NetOk(Next(n, step)) && n.log <= Next(n, step).log && Next(n, step).validAddr == n.validAddr
  {
    hide NetOk, Served, Moved, CanMove;
    match step
    case Local(t, move) =>
      LocalKeeps(n, t, move);
      LogGrows(n, t, move);
    case Remote(k, input, world, written) => RemoteKeeps(n, k, input, world, written);
  }

  lemma {:induction false} RunKeeps(n: Net, steps: seq<Step>, n': Net)
    requires NetOk(n) && Run(n, steps) == Some(n')
    ensures NetOk(n') && n.log <= n'.log && n'.validAddr == n.validAddr
  {
    if steps != [] {
      hide NetOk, Next, Possible;
      var before := Run(n, steps[..|steps| - 1]).value;
      RunKeeps(n, steps[..|steps| - 1], before);
      StepKeeps(before, steps[|steps| - 1]);
    }
  }

  /** Lockstep, over every interleaving of any number of client threads and the server: whenever the locks
      are free both handles belong to the same connection, which carries no unread reply, no unanswered line
      and no unfinished one; and every completed exchange has read the answer to the very line it sent. */
  lemma Lockstep(threads: nat, at: nat, validAddr: string -> bool, steps: seq<Step>, n: Net)
    requires Run(Connected(threads, at, validAddr), steps) == Some(n)
    ensures n.stream < |n.links| && (n.streamLock == None ==> n.stream == n.reader && Quiet(n.links[n.stream]))
    ensures forall i | 0 <= i < |n.log| :: ExchangeOk(n.log[i], validAddr)
  {
    hide NetOk, Quiet;
    ConnectedOk(threads, at, validAddr);
    RunKeeps(Connected(threads, at, validAddr), steps, n);
    LogAndHandles(n);
  }

  lemma LogAndHandles(n: Net)
    requires NetOk(n)
    ensures HandlesOk(n) && LogOk(n.log, n.validAddr)
  {
  }

  // ----- no deadlock -----

  /** Both threads take the stream lock before the reader lock, so nobody ever waits for the reader lock; a
      thread waits only for the stream lock, whose holder can move. Hence while any exchange is under way
      some thread can move: a read that gets nothing times out. */
  lemma NoDeadlock(n: Net, t: nat)
    requires NetOk(n) && t < |n.threads| && n.threads[t] != Idle
    ensures n.threads[t].WantsReader? ==> Possible(n, Local(t, LockReader))
    ensures exists u: nat, move :: u < |n.threads| && Possible(n, Local(u, move)) && !move.Begin?
  {
    hide Stage, Quiet, Sendable;
    HolderStage(n, t);
    if n.streamLock == None {
      assert n.threads[t].WantsStream?;
      assert Possible(n, Local(t, LockStream));
    } else {
      var u := n.streamLock.value;
      HolderStage(n, u);
      var move := match n.threads[u]
        case WantsReader(_) => LockReader
        case Sending(_, _, _) => Send
        case Reading(_, _, _) => ReadFails
        case Failing => Reconnect(0)
        case HalfSwapped => SwapReader
        case Releasing => UnlockReader
        case _ => UnlockStream;
      assert Possible(n, Local(u, move));
    }
  }

  // ----- what is heard -----

  /** The command a line asks for. */
  function Spoken(ask: Ask): string {
    match ask
    case Ping => "PING"
    case Command(text) => text
  }

  lemma HeardAsTyped(ask: Ask)
    requires Sendable(ask)
    ensures Trim(Sent(ask)) == Spoken(ask)
  {
    hide Trim;
    assert "PING\n" == "PING" + ['\n'];
    TrimLine(Spoken(ask));
  }

  /** The reply is the one the command itself calls for exactly when no read timeout of the server has cut the
      line, unless what was left of it happens to have the same answer. */
  lemma RightReply(e: Exchange, validAddr: string -> bool)
    requires ExchangeOk(e, validAddr)
    ensures e.heard == Sent(e.ask) <==> !e.interrupted
    ensures e.ask.Ping? ==> Trim(e.reply) == "PONG"
    ensures var request := T.Classify(Spoken(e.ask), validAddr);
            && (!e.interrupted ==> !request.BadStream? && e.reply <= P.ReplyTo(request))
            && (e.reply[|e.reply| - 1] == '\n' ==>
                  (!request.BadStream? && e.reply == P.ReplyTo(request) <==>
                     !e.interrupted || Answer(e.heard, validAddr) == Answer(Sent(e.ask), validAddr)))
  {
    hide Trim, T.Classify, Sendable;
    HeardAsTyped(e.ask);
    SpokenIsSomething(e.ask);
  }

  lemma SpokenIsSomething(ask: Ask)
    requires Sendable(ask)
    ensures Spoken(ask) != ""
  {
  }

  // ----- progress -----

  ghost predicate Leads(n: Net, n': Net) {
    exists steps :: Run(n, steps) == Some(n')
  }

  lemma LeadsOne(n: Net, step: Step)
    requires Possible(n, step)
    ensures Leads(n, Next(n, step))
  {
    hide Possible, Next;
    assert [step][..0] == [];
    assert Run(n, []) == Some(n);
    assert Run(n, [step]) == Some(Next(n, step));
  }

  lemma {:induction false} RunConcat(n: Net, a: seq<Step>, b: seq<Step>)
    requires Run(n, a).Some?
    ensures Run(n, a + b) == Run(Run(n, a).value, b)
  {
    hide Possible, Next;
    if b == [] {
      assert a + b == a;
    } else {
      RunConcat(n, a, b[..|b| - 1]);
      assert (a + b)[..|a + b| - 1] == a + b[..|b| - 1];
    }
  }

  lemma LeadsTrans(a: Net, b: Net, c: Net)
    requires Leads(a, b) && Leads(b, c)
    ensures Leads(a, c)
  {
    hide Run;
    var x :| Run(a, x) == Some(b);
    var y :| Run(b, y) == Some(c);
    RunConcat(a, x, y);
  }

  /** Both handles belong to connection `k`, and thread `t` exists. */
  predicate Uses(n: Net, t: nat, k: nat) {
    t < |n.threads| && n.stream == n.reader == k < |n.links|
  }

  lemma {:induction false} SendRest(n: Net, t: nat, k: nat) returns (n': Net)
    requires Uses(n, t, k) && n.threads[t].Sending?
    ensures Leads(n, n')
    ensures var pc, link := n.threads[t], n.links[k];
            n' == SetThread(SetLink(n, k, link.(inbox := link.inbox + pc.rest)), t, Reading(pc.ask, "", pc.since))
    decreases |n.threads[t].rest|
  {
    hide Leads, Sent;
    var pc, link := n.threads[t], n.links[k];
    var next := Moved(n, t, Send);
    LeadsOne(n, Local(t, Send));
    if pc.rest == "" {
      n' := next;
      assert link.inbox + pc.rest == link.inbox;
      assert n.links[k := link] == n.links;
    } else {
      n' := SendRest(next, t, k);
      LeadsTrans(n, next, n');
      assert link.inbox + [pc.rest[0]] + pc.rest[1..] == link.inbox + pc.rest;
    }
  }

  lemma {:induction false} TakeLine(n: Net, k: nat, body: string, world: T.World) returns (n': Net)
    requires k < |n.links| && n.stream < |n.links| && n.reader < |n.links| && world.validAddr == n.validAddr
    requires n.links[k].conn.end == None && n.links[k].inbox == body + "\n" && '\n' !in body
    ensures Leads(n, n')
    ensures n' == SetLink(n, k, Turned(n.links[k].(inbox := ""), T.Line(n.links[k].line + body + "\n"), world, 0))
    decreases |body|
  {
    hide Leads, T.React, Answer;
    var link := n.links[k];
    var step := Remote(k, Take, world, 0);
    LeadsOne(n, step);
    if body == "" {
      n' := Next(n, step);
      assert link.line + body + "\n" == link.line + [link.inbox[0]];
      assert link.inbox[1..] == "";
    } else {
      var next := Next(n, step);
      assert link.inbox[0] == body[0] && body[0] in body;
      assert link.inbox[1..] == body[1..] + "\n";
      n' := TakeLine(next, k, body[1..], world);
      LeadsTrans(n, next, n');
      assert link.line + [body[0]] + body[1..] == link.line + body;
    }
  }

  lemma {:induction false} ReceiveLine(n: Net, t: nat, k: nat, body: string) returns (n': Net)
    requires Uses(n, t, k) && n.threads[t].Reading? && n.links[k].outbox == body + "\n" && '\n' !in body
    ensures Leads(n, n')
    ensures n' == Replied(SetLink(n, k, n.links[k].(outbox := "")), t, n.threads[t], n.threads[t].buf + body + "\n")
    decreases |body|
  {
    hide Leads, Accepts;
    var pc, link := n.threads[t], n.links[k];
    var next := Moved(n, t, Receive);
    LeadsOne(n, Local(t, Receive));
    if body == "" {
      n' := next;
      assert link.outbox[1..] == "" && pc.buf + body == pc.buf;
    } else {
      assert link.outbox[0] == body[0] && body[0] in body;
      assert link.outbox[1..] == body[1..] + "\n";
      n' := ReceiveLine(next, t, k, body[1..]);
      LeadsTrans(n, next, n');
      assert pc.buf + [body[0]] + body[1..] == pc.buf + body;
    }
  }

  /** A live handler whose writes and binds succeed puts the whole answer on the wire. */
  lemma WholeAnswer(link: Link, text: string, world: T.World)
    requires link.conn.end == None && P.Smooth(world) && Answer(text, world.validAddr) != ""
    ensures var link' := Turned(link, T.Line(text), world, 0);
            link'.outbox == link.outbox + Answer(text, world.validAddr) && link'.conn.end == None
            && link'.line == "" && link'.inbox == link.inbox && link'.heard == text
            && link'.cuts == link.cuts && link'.dropped == link.dropped
  {
    hide Trim, T.Classify;
    AtMostOneReply(link.conn, T.Line(text), world);
  }

  /** A line without its newline, and the same for an answer. */
  lemma BodyOf(s: string)
    requires s != "" && s[|s| - 1] == '\n' && forall i | 0 <= i < |s| - 1 :: s[i] != '\n'
    ensures s == s[..|s| - 1] + "\n" && '\n' !in s[..|s| - 1]
  {
  }

  /** Thread `t` takes both locks and starts to write. */
  lemma Locks(n: Net, t: nat, ask: Ask) returns (n': Net)
    requires NetOk(n) && t < |n.threads| && n.threads[t] == Idle && Sendable(ask) && n.streamLock == None
    ensures n.stream == n.reader < |n.links| && Quiet(n.links[n.stream]) && Leads(n, n')
    ensures n' == n.(threads := n.threads[t := Sending(ask, Sent(ask), n.links[n.stream].cuts)],
                     streamLock := Some(t), readerLock := Some(t))
  {
    hide Leads, Sent, Sendable, Quiet, LogOk;
    var a := Moved(n, t, Begin(ask));
    LeadsOne(n, Local(t, Begin(ask)));
    var b := Moved(a, t, LockStream);
    LeadsOne(a, Local(t, LockStream));
    n' := Moved(b, t, LockReader);
    LeadsOne(b, Local(t, LockReader));
    LeadsTrans(n, a, b);
    LeadsTrans(n, b, n');
  }

  lemma Unlocks(n: Net, t: nat) returns (n': Net)
    requires t < |n.threads| && n.threads[t] == Releasing && n.stream < |n.links| && n.reader < |n.links|
    ensures Leads(n, n') && n' == n.(threads := n.threads[t := Idle], streamLock := None, readerLock := None)
  {
    hide Leads;
    var a := Moved(n, t, UnlockReader);
    LeadsOne(n, Local(t, UnlockReader));
    n' := Moved(a, t, UnlockStream);
    LeadsOne(a, Local(t, UnlockStream));
    LeadsTrans(n, a, n');
  }

  /** The line crosses and is served. */
  lemma LineCrosses(n: Net, t: nat, k: nat, ask: Ask, world: T.World) returns (n': Net)
    requires Uses(n, t, k) && Sendable(ask) && Quiet(n.links[k]) && n.links[k].conn.end == None
    requires n.threads[t] == Sending(ask, Sent(ask), n.links[k].cuts) && world.validAddr == n.validAddr
    ensures Leads(n, n')
    ensures n' == n.(threads := n.threads[t := Reading(ask, "", n.links[k].cuts)],
                     links := n.links[k := Turned(n.links[k], T.Line(Sent(ask)), world, 0)])
  {
    hide Leads, Sendable, Sent, Answer, Turned;
    EndsInNewline(ask);
    var link, sent := n.links[k], Sent(ask);
    var written := SendRest(n, t, k);
    assert link.inbox + sent == sent;
    BodyOf(sent);
    n' := TakeLine(written, k, sent[..|sent| - 1], world);
    assert link.line + sent[..|sent| - 1] + "\n" == sent;
    assert link.(inbox := sent).(inbox := "") == link;
    LeadsTrans(n, written, n');
  }

  /** The answer comes back and is taken. */
  lemma AnswerCrosses(n: Net, t: nat, k: nat, ask: Ask, since: nat, reply: string, body: string) returns (n': Net)
    requires Uses(n, t, k) && n.threads[t] == Reading(ask, "", since)
    requires n.links[k].outbox == reply == body + "\n" && '\n' !in body && Accepts(ask, reply)
    ensures Leads(n, n')
    ensures n' == n.(threads := n.threads[t := Releasing],
                     log := n.log + [Exchange(ask, n.links[k].heard, reply, n.links[k].cuts != since)],
                     links := n.links[k := n.links[k].(outbox := "")])
  {
    hide Leads, Accepts;
    n' := ReceiveLine(n, t, k, body);
    assert "" + body + "\n" == reply;
  }

  lemma Crosses(n: Net, t: nat, k: nat, ask: Ask, world: T.World) returns (n': Net)
    requires Uses(n, t, k) && Sendable(ask) && Quiet(n.links[k]) && n.links[k].conn.end == None
    requires n.threads[t] == Sending(ask, Sent(ask), n.links[k].cuts)
    requires P.Smooth(world) && world.validAddr == n.validAddr
    requires Answer(Sent(ask), n.validAddr) != "" && Accepts(ask, Answer(Sent(ask), n.validAddr))
    ensures Leads(n, n')
    ensures var reply := Answer(Sent(ask), n.validAddr);
            n' == n.(threads := n.threads[t := Releasing], log := n.log + [Exchange(ask, Sent(ask), reply, false)],
                     links := n.links[k := Turned(n.links[k], T.Line(Sent(ask)), world, 0).(outbox := "")])
  {
    hide Leads, Sendable, Sent, Answer, Turned, Accepts, P.Smooth;
    var link, reply := n.links[k], Answer(Sent(ask), n.validAddr);
    var answered := LineCrosses(n, t, k, ask, world);
    WholeAnswer(link, Sent(ask), world);
    assert "" + reply == reply;
    AnswerIsLine(Sent(ask), n.validAddr);
    BodyOf(reply);
    n' := AnswerCrosses(answered, t, k, ask, link.cuts, reply, reply[..|reply| - 1]);
    LeadsTrans(n, answered, n');
  }

  lemma AnswerIsLine(heard: string, validAddr: string -> bool)
    requires Answer(heard, validAddr) != ""
    ensures var all := Answer(heard, validAddr);
            all[|all| - 1] == '\n' && forall i | 0 <= i < |all| - 1 :: all[i] != '\n'
  {
    hide Trim, T.Classify;
  }

  lemma PingIsAnswered(validAddr: string -> bool)
    ensures Sent(Ping) == "PING\n" && Answer("PING\n", validAddr) == "PONG\n" && Trim("PONG\n") == "PONG"
  {
    hide Trim;
    HeardAsTyped(Ping);
    TrimLine("PONG");
    assert "PONG\n" == "PONG" + ['\n'];
  }

  lemma AnswerIsAccepted(ask: Ask, validAddr: string -> bool)
    requires Sendable(ask)
    ensures Accepts(ask, Answer(Sent(ask), validAddr))
  {
    hide Trim;
    PingIsAnswered(validAddr);
  }

  /** Whenever the locks are free, any thread can complete any exchange whose command gets an answer from a
      live handler: the reply is recorded, nothing is left under way, and the handler has served that line. */
  lemma ExchangeCompletes(n: Net, t: nat, ask: Ask, world: T.World) returns (n': Net)
    requires NetOk(n) && t < |n.threads| && n.threads[t] == Idle && n.streamLock == None && Sendable(ask)
    requires n.stream < |n.links| && n.links[n.stream].conn.end == None && P.Smooth(world)
             && world.validAddr == n.validAddr
    requires Answer(Sent(ask), n.validAddr) != ""
    ensures Leads(n, n') && n'.threads == n.threads && n'.streamLock == None && n'.stream == n.stream == n'.reader
    ensures n'.log == n.log + [Exchange(ask, Sent(ask), Answer(Sent(ask), n.validAddr), false)]
    ensures |n'.links| == |n.links| && Quiet(n'.links[n.stream])
    ensures n'.links[n.stream].conn == T.React(n.links[n.stream].conn, T.Line(Sent(ask)), world)
  {
    hide Leads, NetOk, Sendable, Sent, Answer, T.React, Accepts, P.Smooth;
    AnswerIsAccepted(ask, n.validAddr);
    var locked := Locks(n, t, ask);
    var crossed := Crosses(locked, t, n.stream, ask, world);
    n' := Unlocks(crossed, t);
    LeadsTrans(n, locked, crossed);
    LeadsTrans(n, crossed, n');
    WholeAnswer(n.links[n.stream], Sent(ask), world);
    assert n.threads[t := n.threads[t]] == n.threads;
  }

  /** Whenever the locks are free a keep-alive with a live handler can succeed: PING is heard, PONG is read. */
  lemma PingCompletes(n: Net, t: nat, world: T.World) returns (n': Net)
    requires NetOk(n) && t < |n.threads| && n.threads[t] == Idle && n.streamLock == None
    requires n.stream < |n.links| && n.links[n.stream].conn.end == None && P.Smooth(world)
             && world.validAddr == n.validAddr
    ensures Leads(n, n') && n'.threads == n.threads && n'.stream == n.stream == n'.reader && |n'.links| == |n.links|
    ensures n'.log == n.log + [Exchange(Ping, "PING\n", "PONG\n", false)]
  {
    hide Leads, NetOk, Sent, Answer, T.React, Accepts, P.Smooth;
    PingIsAnswered(n.validAddr);
    n' := ExchangeCompletes(n, t, Ping, world);
  }

  // ----- cut lines -----

  lemma {:induction false} TakePrefix(n: Net, k: nat, prefix: string, rest: string, world: T.World) returns (n': Net)
    requires k < |n.links| && n.stream < |n.links| && n.reader < |n.links| && world.validAddr == n.validAddr
    requires n.links[k].conn.end == None && n.links[k].inbox == prefix + rest && '\n' !in prefix
    ensures Leads(n, n') && n' == SetLink(n, k, n.links[k].(inbox := rest, line := n.links[k].line + prefix))
    decreases |prefix|
  {
    hide Leads, T.React, Answer;
    var link := n.links[k];
    if prefix == "" {
      n' := n;
      assert Run(n, []) == Some(n);
      assert link.line + prefix == link.line && prefix + rest == rest && n.links[k := link] == n.links;
      LeadsNowhere(n);
    } else {
      var step := Remote(k, Take, world, 0);
      LeadsOne(n, step);
      var next := Next(n, step);
      assert link.inbox[0] == prefix[0] && prefix[0] in prefix;
      assert link.inbox[1..] == prefix[1..] + rest;
      n' := TakePrefix(next, k, prefix[1..], rest, world);
      LeadsTrans(n, next, n');
      assert link.line + [prefix[0]] + prefix[1..] == link.line + prefix;
    }
  }

  lemma LeadsNowhere(n: Net)
    ensures Leads(n, n)
  {
    assert Run(n, []) == Some(n);
  }

  /** A read timeout that comes too early to end the connection loses the part of the line read so far. */
  lemma SilenceCuts(n: Net, k: nat, world: T.World) returns (n': Net)
    requires k < |n.links| && n.stream < |n.links| && n.reader < |n.links| && world.validAddr == n.validAddr
    requires var link := n.links[k];
             link.conn.end == None && link.line != "" && !T.Expired(link.conn.lastPing, world.now(link.conn.turns))
    ensures Leads(n, n')
    ensures var link := n.links[k];
            n' == SetLink(n, k, link.(line := "", cuts := link.cuts + 1,
                                      conn := link.conn.(turns := link.conn.turns + 1)))
  {
    hide Leads;
    var step := Remote(k, Silence, world, 0);
    LeadsOne(n, step);
    n' := Next(n, step);
    assert n.links[k].outbox + "" == n.links[k].outbox;
  }

  function AfterCut(link: Link): Link {
    link.(cuts := link.cuts + 1, conn := link.conn.(turns := link.conn.turns + 1))
  }

  /** The first `cut` characters of a line are lost. */
  lemma LineCut(n: Net, t: nat, k: nat, ask: Ask, cut: nat, world: T.World) returns (n': Net)
    requires Uses(n, t, k) && Sendable(ask) && Quiet(n.links[k]) && n.links[k].conn.end == None
    requires n.threads[t] == Sending(ask, Sent(ask), n.links[k].cuts) && world.validAddr == n.validAddr
    requires 0 < cut < |Sent(ask)| && !T.Expired(n.links[k].conn.lastPing, world.now(n.links[k].conn.turns))
    ensures Leads(n, n')
    ensures n' == n.(threads := n.threads[t := Reading(ask, "", n.links[k].cuts)],
                     links := n.links[k := AfterCut(n.links[k]).(inbox := Sent(ask)[cut..])])
  {
    hide Leads, Sendable, Sent, Answer, T.Expired, T.React;
    EndsInNewline(ask);
    NoEarlyNewline(Sent(ask), cut);
    var link, sent := n.links[k], Sent(ask);
    var written := SendRest(n, t, k);
    var taken := TakePrefix(written, k, sent[..cut], sent[cut..], world);
    n' := SilenceCuts(taken, k, world);
    LeadsTrans(n, written, taken);
    LeadsTrans(n, taken, n');
  }

  lemma NoEarlyNewline(sent: string, cut: nat)
    requires 0 < cut < |sent| && forall i | 0 <= i < |sent| - 1 :: sent[i] != '\n'
    ensures '\n' !in sent[..cut] && sent[..cut] != ""
    ensures "" + sent == sent[..cut] + sent[cut..] && "" + sent[..cut] == sent[..cut]
  {
  }

  /** The line crosses with its first `cut` characters lost. */
  lemma CutLineCrosses(n: Net, t: nat, k: nat, ask: Ask, cut: nat, world: T.World) returns (n': Net)
    requires Uses(n, t, k) && Sendable(ask) && Quiet(n.links[k]) && n.links[k].conn.end == None
    requires n.threads[t] == Sending(ask, Sent(ask), n.links[k].cuts) && world.validAddr == n.validAddr
    requires 0 < cut < |Sent(ask)| && !T.Expired(n.links[k].conn.lastPing, world.now(n.links[k].conn.turns))
    ensures Leads(n, n')
    ensures n' == n.(threads := n.threads[t := Reading(ask, "", n.links[k].cuts)],
                     links := n.links[k := Turned(AfterCut(n.links[k]), T.Line(Sent(ask)[cut..]), world, 0)])
  {
    hide Leads, Sendable, Sent, Answer, Turned, T.Expired;
    EndsInNewline(ask);
    var heard := Sent(ask)[cut..];
    var lost := LineCut(n, t, k, ask, cut, world);
    BodyOf(heard);
    n' := TakeLine(lost, k, heard[..|heard| - 1], world);
    assert "" + heard[..|heard| - 1] + "\n" == heard;
    assert lost.links[k].(inbox := "") == AfterCut(n.links[k]);
    LeadsTrans(n, lost, n');
  }

  lemma CutCrosses(n: Net, t: nat, k: nat, ask: Ask, cut: nat, world: T.World) returns (n': Net)
    requires Uses(n, t, k) && Sendable(ask) && Quiet(n.links[k]) && n.links[k].conn.end == None
    requires n.threads[t] == Sending(ask, Sent(ask), n.links[k].cuts) && world.validAddr == n.validAddr
             && P.Smooth(world)
    requires 0 < cut < |Sent(ask)| && !T.Expired(n.links[k].conn.lastPing, world.now(n.links[k].conn.turns))
    requires var reply := Answer(Sent(ask)[cut..], n.validAddr); reply != "" && Accepts(ask, reply)
    ensures Leads(n, n')
    ensures n' == n.(threads := n.threads[t := Releasing], links := n'.links,
                     log := n.log + [Exchange(ask, Sent(ask)[cut..], Answer(Sent(ask)[cut..], n.validAddr), true)])
    ensures |n'.links| == |n.links|
  {
    hide Leads, Sendable, Sent, Turned, Answer, T.Expired, Accepts, P.Smooth;
    var heard := Sent(ask)[cut..];
    var reply := Answer(heard, n.validAddr);
    var answered := CutLineCrosses(n, t, k, ask, cut, world);
    WholeAnswer(AfterCut(n.links[k]), heard, world);
    assert "" + reply == reply;
    AnswerIsLine(heard, n.validAddr);
    BodyOf(reply);
    n' := AnswerCrosses(answered, t, k, ask, n.links[k].cuts, reply, reply[..|reply| - 1]);
    LeadsTrans(n, answered, n');
  }

  /** Every rest of a line can be what the server hears: whenever the locks are free, an exchange can complete
      with the answer to the command without its first `cut` characters. */
  lemma CutCompletes(n: Net, t: nat, ask: Ask, cut: nat, world: T.World) returns (n': Net)
    requires NetOk(n) && t < |n.threads| && n.threads[t] == Idle && n.streamLock == None && Sendable(ask)
    requires n.stream < |n.links| && n.links[n.stream].conn.end == None && P.Smooth(world)
             && world.validAddr == n.validAddr
    requires var conn := n.links[n.stream].conn; !T.Expired(conn.lastPing, world.now(conn.turns))
    requires 0 < cut < |Sent(ask)|
    requires var reply := Answer(Sent(ask)[cut..], n.validAddr); reply != "" && Accepts(ask, reply)
    ensures Leads(n, n') && n'.threads == n.threads && n'.streamLock == None
    ensures n'.log == n.log + [Exchange(ask, Sent(ask)[cut..], Answer(Sent(ask)[cut..], n.validAddr), true)]
  {
    hide Leads, NetOk, Sendable, Sent, Turned, Answer, T.React, T.Expired, Accepts, P.Smooth;
    var locked := Locks(n, t, ask);
    var crossed := CutCrosses(locked, t, n.stream, ask, cut, world);
    n' := Unlocks(crossed, t);
    LeadsTrans(n, locked, crossed);
    LeadsTrans(n, crossed, n');
    assert n.threads[t := n.threads[t]] == n.threads;
  }

  lemma StoppingCut(validAddr: string -> bool)
    ensures Sendable(Command("STOPPING")) && |Sent(Command("STOPPING"))| == 9
    ensures Sent(Command("STOPPING"))[4..] == "PING\n" && Accepts(Command("STOPPING"), "PONG\n")
    ensures Answer("PING\n", validAddr) == T.PONG && Answer("STOPPING\n", validAddr) == T.STOP_OK
  {
    hide Trim;
    TrimLine("STOPPING");
    HeardAsTyped(Ping);
    HeardAsTyped(Command("STOPPING"));
    assert "STOPPING\n" == "STOPPING" + "\n" && "STOPPING"[0] != "PING"[0] && "STOPPING"[2] != "STREAM "[2];
  }

  /** A cut line can be answered as another command: in some run of client and server, STOPPING, which
      unsubscribes when it arrives whole, is heard as PING and answered PONG. */
  lemma InterruptedIsAnother(validAddr: string -> bool, world: T.World) returns (steps: seq<Step>, n: Net)
    requires P.Smooth(world) && world.validAddr == validAddr && world.now(0) == 0
    ensures Run(Connected(1, 0, validAddr), steps) == Some(n)
    ensures n.log == [Exchange(Command("STOPPING"), "PING\n", "PONG\n", true)]
    ensures Answer("STOPPING\n", validAddr) == "STOP OK\n"
  {
    hide NetOk, Sendable, Sent, Answer, Accepts, P.Smooth, Run;
    StoppingCut(validAddr);
    var start := Connected(1, 0, validAddr);
    ConnectedOk(1, 0, validAddr);
    n := CutCompletes(start, 0, Command("STOPPING"), 4, world);
    steps :| Run(start, steps) == Some(n);
  }
}
