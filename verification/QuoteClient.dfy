/** The interactive client (bins/client/main.rs): sending a line and reading one reply, reconnecting, and
    the command loop. */
module QuoteClients {
  import opened Defs
  import opened Text
  import P = TcpProtocol
  import T = TcpServers

  // ----- one exchange -----

  datatype Ask = Ping | Command(text: string)

  /** What is written for an exchange. */
  function Sent(ask: Ask): string {
    match ask
    case Ping => "PING\n"
    case Command(text) => text + "\n"
  }

  /** What the command loop passes on: a line of standard input without its surrounding white space. */
  predicate Sendable(ask: Ask) {
    match ask
    case Ping => true
    case Command(text) => text != "" && Trim(text) == text && '\n' !in text
  }

  /** `send_ping` takes only PONG for an answer. */
  predicate Accepts(ask: Ask, reply: string) {
    ask.Ping? ==> Trim(reply) == "PONG"
  }

  /** The answer of the server to a line it has heard; a rejected STREAM and a blank line get none. */
  function Answer(heard: string, validAddr: string -> bool): string {
    var msg := Trim(heard);
    if msg == [] || T.Classify(msg, validAddr).BadStream? then [] else P.ReplyTo(T.Classify(msg, validAddr))
  }

  // ----- the command loop -----

  /** What the command loop makes of a line of standard input. `upper` is ASCII upper case. */
  datatype Entry = Nothing | Exit | Say(ask: Ask)

  function Parsed(line: string): Entry {
    var command := Trim(line);
    if command == "" then Nothing else if Upper(command) == "EXIT" then Exit else Say(Command(command))
  }

  function Upper(s: string): string {
    seq(|s|, i requires 0 <= i < |s| => if 'a' <= s[i] <= 'z' then s[i] - 'a' + 'A' else s[i])
  }

  /** A line as `read_line` returns it: a newline can only come last. */
  predicate IsLine(line: string) {
    forall i | 0 <= i < |line| - 1 :: line[i] != '\n'
  }

  lemma TrimIsPart(s: string)
    ensures exists i: nat, j: nat :: i <= j <= |s| && Trim(s) == s[i..j]
    ensures Trim(s) != [] ==> !IsSpace(Trim(s)[0]) && !IsSpace(Trim(s)[|Trim(s)| - 1])
  {
    hide TrimStart, TrimEnd;
    var a := TrimStart(s);
    var b := TrimEnd(a);
    assert b == s[|s| - |a|..|s| - |a| + |b|];
    if b != [] {
      assert b[0] == a[0];
    }
  }

  /** What the command loop passes on fits on one line and is already trimmed. */
  lemma SaidIsSendable(line: string)
    requires IsLine(line) && Parsed(line).Say?
    ensures Sendable(Parsed(line).ask)
  {
    hide Trim;
    TrimIsPart(line);
    var text := Trim(line);
    TrimLine(text);
    var i: nat, j: nat :| i <= j <= |line| && text == line[i..j];
    forall k | 0 <= k < |text| ensures text[k] != '\n' {
      assert text[k] == line[i + k];
      assert k == |text| - 1 ==> !IsSpace(text[k]);
    }
  }

  // ----- the session -----

  datatype IoError = WriteFailed | ReadFailed | ServerClosed | NotPong

  /** How the socket behaves during one exchange: the number of write calls that succeed, and what then
      arrives. Silence is the read timeout of five seconds. */
  datatype Wire = Wire(writes: nat, incoming: seq<T.Item>)

  /** The write calls an exchange makes, flush included. */
  function WritesNeeded(ask: Ask): nat {
    if ask.Ping? then 2 else 3
  }

  /** What has gone out after so many successful write calls. */
  function Transmitted(ask: Ask, writes: nat): string {
    if writes == 0 then ""
    else if ask.Command? && writes == 1 then ask.text
    else Sent(ask)
  }

  /** What an exchange comes to: the first line that arrives, if the server has not closed and no read fails. */
  function Outcome(ask: Ask, wire: Wire): Result<string, IoError> {
    if wire.writes < WritesNeeded(ask) then Err(WriteFailed)
    else
      match T.ReadLine(wire.incoming, []).0
      case Line(reply) => if Accepts(ask, reply) then Ok(reply) else Err(NotPong)
      case Eof => Err(ServerClosed)
      case _ => Err(ReadFailed)
  }

  /** The commands up to EXIT. */
  function Asks(lines: seq<string>): seq<Ask> {
    if lines == [] || Parsed(lines[0]) == Exit then []
    else (if Parsed(lines[0]).Say? then [Parsed(lines[0]).ask] else []) + Asks(lines[1..])
  }

  /** The replies printed for some commands, the n-th on wire `wires(n)`, and how many exchanges failed. */
  function Printed(asks: seq<Ask>, wires: nat -> Wire): seq<string> {
    if asks == [] then []
    else
      var n := |asks| - 1;
      var r := Outcome(asks[n], wires(n));
      Printed(asks[..n], wires) + if r.Ok? then [r.value] else []
  }

  function Failed(asks: seq<Ask>, wires: nat -> Wire): nat {
    if asks == [] then 0
    else
      var n := |asks| - 1;
      Failed(asks[..n], wires) + if Outcome(asks[n], wires(n)).Err? then 1 else 0
  }

  lemma NoAsks(wires: nat -> Wire)
    ensures Asks([]) == [] && Printed([], wires) == [] && Failed([], wires) == 0
  {
  }

  lemma OneMoreAsk(asks: seq<Ask>, ask: Ask, wires: nat -> Wire)
    ensures var r := Outcome(ask, wires(|asks|));
            && Printed(asks + [ask], wires) == Printed(asks, wires) + (if r.Ok? then [r.value] else [])
            && Failed(asks + [ask], wires) == Failed(asks, wires) + (if r.Err? then 1 else 0)
  {
    hide Outcome;
    assert (asks + [ask])[..|asks|] == asks;
  }

  lemma AsksAt(lines: seq<string>, i: nat)
    requires i < |lines|
    ensures Asks(lines[i..]) == match Parsed(lines[i])
                                case Exit => []
                                case Nothing => Asks(lines[i + 1..])
                                case Say(ask) => [ask] + Asks(lines[i + 1..])
  {
    hide Parsed;
    assert lines[i..][1..] == lines[i + 1..];
  }

  /** A line that says EXIT, each letter in either case. */
  predicate SaysExit(line: string) {
    var t := Trim(line);
    && |t| == 4 && (t[0] == 'E' || t[0] == 'e') && (t[1] == 'X' || t[1] == 'x')
    && (t[2] == 'I' || t[2] == 'i') && (t[3] == 'T' || t[3] == 't')
  }

  /** What some lines say: the trimmed texts of those that are not blank. */
  function Commands(lines: seq<string>): seq<string> {
    if lines == [] then []
    else
      var n := |lines| - 1;
      Commands(lines[..n]) + if AllSpace(lines[n]) then [] else [Trim(lines[n])]
  }

  lemma CommandsAppend(lines: seq<string>, line: string)
    ensures Commands([]) == []
    ensures Commands(lines + [line]) == Commands(lines) + if AllSpace(line) then [] else [Trim(line)]
  {
    hide Trim, AllSpace;
    assert (lines + [line])[..|lines|] == lines;
  }

  lemma UpperExit(s: string)
    ensures Upper(s) == "EXIT" <==>
              && |s| == 4 && (s[0] == 'E' || s[0] == 'e') && (s[1] == 'X' || s[1] == 'x')
              && (s[2] == 'I' || s[2] == 'i') && (s[3] == 'T' || s[3] == 't')
  {
    var u := Upper(s);
    if |s| == 4 {
      assert u == [u[0], u[1], u[2], u[3]];
    }
  }

  /** How a line is taken. */
  lemma ParsedIs(line: string)
    ensures Parsed(line) == Exit <==> SaysExit(line)
    ensures Parsed(line) == Nothing <==> AllSpace(line)
    ensures !SaysExit(line) && !AllSpace(line) ==> Parsed(line) == Say(Command(Trim(line)))
  {
    hide Trim, Upper, AllSpace;
    TrimEmpty(line);
    UpperExit(Trim(line));
  }

  /** Replies are printed in the order of the commands: that of the i-th comes after those of the successes before. */
  lemma {:induction false} PrintedInOrder(asks: seq<Ask>, wires: nat -> Wire)
    ensures |Printed(asks, wires)| + Failed(asks, wires) == |asks|
    ensures forall i: nat | i < |asks| && Outcome(asks[i], wires(i)).Ok? ::
              var at := |Printed(asks[..i], wires)|;
              at < |Printed(asks, wires)| && Printed(asks, wires)[at] == Outcome(asks[i], wires(i)).value
  {
    hide Outcome;
    if asks != [] {
      var n := |asks| - 1;
      PrintedInOrder(asks[..n], wires);
      forall i: nat | i < n ensures asks[..n][..i] == asks[..i] {
      }
    }
  }

  /** The two handles, as numbers of connections, and the connections opened so far. */
  class Session {
    var stream: nat
    var reader: nat
    var connections: nat

    /** Both handles belong to the newest connection. */
    predicate Valid()
      reads this
    {
      connections > 0 && stream == reader == connections - 1
    }

    constructor ()
      ensures Valid() && connections == 1
    {
      stream, reader, connections := 0, 0, 1;
    }

    /** `reconnect`, when the first `refused` attempts fail. */
    method Reconnect(refused: nat) returns (handles: (nat, nat), attempts: nat)
      modifies this`connections
      ensures connections == old(connections) + 1 && attempts == refused + 1
      ensures handles == (old(connections), old(connections))
    {
      attempts := 1;
      while attempts <= refused
        invariant 1 <= attempts <= refused + 1
      {
        attempts := attempts + 1;
      }
      handles := (connections, connections);
      connections := connections + 1;
    }

    /** `send_command`; `sent` is what went out on the wire. */
    method SendCommand(command: string, wire: Wire) returns (r: Result<string, IoError>, sent: string)
      ensures r == Outcome(Command(command), wire)
      ensures sent == Transmitted(Command(command), wire.writes)
      ensures sent == if wire.writes == 0 then "" else if wire.writes == 1 then command else command + "\n"
      ensures r == Err(ServerClosed) <==> wire.writes >= 3 && T.ReadLine(wire.incoming, []).0 == T.Eof
      ensures r.Ok? <==> wire.writes >= 3 && T.ReadLine(wire.incoming, []).0.Line?
      ensures r.Ok? ==> r.value == T.ReadLine(wire.incoming, []).0.text
    {
      sent := "";
      if wire.writes < 1 {
        return Err(WriteFailed), sent;
      }
      sent := sent + command;
      if wire.writes < 2 {
        return Err(WriteFailed), sent;
      }
      sent := sent + "\n";
      if wire.writes < 3 {
        return Err(WriteFailed), sent;
      }
      var event, _ := T.ReadLineLoop(wire.incoming);
      match event {
        case Line(reply) => r := Ok(reply);
        case Eof => r := Err(ServerClosed);
        case _ => r := Err(ReadFailed);
      }
    }

    /** `send_ping`. */
    method SendPing(wire: Wire) returns (r: Result<string, IoError>, sent: string)
      ensures r == Outcome(Ping, wire)
      ensures sent == Transmitted(Ping, wire.writes)
      ensures sent == if wire.writes == 0 then "" else "PING\n"
      ensures r == Err(ServerClosed) <==> wire.writes >= 2 && T.ReadLine(wire.incoming, []).0 == T.Eof
      ensures r.Ok? <==> wire.writes >= 2 && T.ReadLine(wire.incoming, []).0.Line?
                         && Trim(T.ReadLine(wire.incoming, []).0.text) == "PONG"
      ensures r == Err(NotPong) <==> wire.writes >= 2 && T.ReadLine(wire.incoming, []).0.Line?
                                     && Trim(T.ReadLine(wire.incoming, []).0.text) != "PONG"
    {
      sent := "";
      if wire.writes < 1 {
        return Err(WriteFailed), sent;
      }
      sent := "PING\n";
      if wire.writes < 2 {
        return Err(WriteFailed), sent;
      }
      var event, _ := T.ReadLineLoop(wire.incoming);
      match event {
        case Line(reply) => r := if Trim(reply) == "PONG" then Ok(reply) else Err(NotPong);
        case Eof => r := Err(ServerClosed);
        case _ => r := Err(ReadFailed);
      }
    }

    /** One exchange under both locks: an error replaces both handles by those of a new connection. */
    method Exchange(ask: Ask, wire: Wire, refused: nat) returns (r: Result<string, IoError>)
      requires Valid()
      modifies this
      ensures Valid() && r == Outcome(ask, wire)
      ensures connections == old(connections) + if r.Err? then 1 else 0
    {
      var sent;
      match ask {
        case Ping => r, sent := SendPing(wire);
        case Command(text) => r, sent := SendCommand(text, wire);
      }
      if r.Err? {
        var handles, _ := Reconnect(refused);
        stream := handles.0;
        reader := handles.1;
      }
    }

    /** The command loop. It stops before the first line that says EXIT, in whatever case; until then every line
        that is not blank is one exchange, with the trimmed text, in order; replies are printed, and every
        failed exchange costs one connection. `said` and `results` record the exchanges. */
    method Interact(lines: seq<string>, wires: nat -> Wire, refused: nat)
      returns (printed: seq<string>, said: seq<string>, results: seq<Result<string, IoError>>, ghost stop: nat)
      requires Valid()
      modifies this
      ensures Valid()
      ensures stop <= |lines| && (forall i | 0 <= i < stop :: !SaysExit(lines[i]))
      ensures stop < |lines| ==> SaysExit(lines[stop])
      ensures said == Commands(lines[..stop])
      ensures |results| == |said| && forall i | 0 <= i < |said| :: results[i] == Outcome(Command(said[i]), wires(i))
      ensures printed == Printed(Asks(lines), wires)
      ensures connections == old(connections) + Failed(Asks(lines), wires)
    {
      hide Parsed, Outcome, Asks, Printed, Failed, SaysExit, Commands, AllSpace, Trim;
      NoAsks(wires);
      CommandsAppend([], []);
      assert lines[0..] == lines && lines[|lines|..] == [];
      printed, said, results, stop := [], [], [], 0;
      ghost var asks := [];
      for i := 0 to |lines|
        invariant Valid() && stop == i && |asks| == |said| == |results| && said == Commands(lines[..i])
        invariant forall j | 0 <= j < i :: !SaysExit(lines[j])
        invariant forall j | 0 <= j < |said| ::
                    asks[j] == Command(said[j]) && results[j] == Outcome(Command(said[j]), wires(j))
        invariant asks + Asks(lines[i..]) == Asks(lines)
        invariant printed == Printed(asks, wires) && connections == old(connections) + Failed(asks, wires)
      {
        AsksAt(lines, i);
        ParsedIs(lines[i]);
        CommandsAppend(lines[..i], lines[i]);
        assert lines[..i + 1] == lines[..i] + [lines[i]];
        match Parsed(lines[i]) {
          case Exit => break;
          case Nothing =>
          case Say(ask) =>
            OneMoreAsk(asks, ask, wires);
            asks := asks + [ask];
            var r := Exchange(ask, wires(|said|), refused);
            said := said + [ask.text];
            results := results + [r];
            if r.Ok? {
              printed := printed + [r.value];
            }
        }
        stop := i + 1;
      }
      assert asks + [] == asks;
      assert lines[..|lines|] == lines;
    }
  }
}
