/** Any number of connections sharing one running server: who owns which client, what is left behind, and that
    every turn can be completed. */
module TcpFleets {
  import opened Defs
  import opened QuoteGenerators
  import opened Text
  import opened Registry
  import opened RegistryInvariants
  import opened RegistryRuns
  import opened RegistryDrain
  import opened RegistryJoin
  import opened TcpRegistry
  import T = TcpServers

  // ----- runs -----

  /** A server just configured, before the first connection. */
  function Launched(table: Table): Fleet {
    Fleet(Init(table), [], [])
  }

  ghost function Sail(f: Fleet, moves: seq<Move>): Option<Fleet> {
    if moves == [] then Some(f)
    else
      match Sail(f, moves[..|moves| - 1])
      case None => None
      case Some(before) =>
        if CanMove(before, moves[|moves| - 1]) then Some(Moved(before, moves[|moves| - 1])) else None
  }

  lemma MoveReaches(f: Fleet, move: Move)
    requires CanMove(f, move)
    ensures Reaches(f.s, Moved(f, move).s) && |f.s.subs| <= |Moved(f, move).s.subs|
  {
    hide Enabled, Apply, InputOf, T.React;
    match move {
      case Accept(at) => StepReaches(f.s, Arrive(Connect));
      case Begin(h, event, world) =>
        match InputOf(f.conns[h], event, world) {
          case None => ReachesSelf(f.s);
          case Some(input) => DeliverReaches(f.s, h, input);
        }
      case End(h) =>
        ReachesSelf(f.s);
        if f.s.handlers[h].pc == Idle {
          DeliverReaches(f.s, h, Quit);
        }
      case Other(step) => StepReaches(f.s, step);
    }
  }

  lemma StepReaches(s: State, step: Step)
    requires Enabled(s, step) || step == Arrive(Connect)
    ensures Enabled(s, step) && Reaches(s, Apply(s, step)) && |s.subs| <= |Apply(s, step).subs|
    ensures step == Arrive(Connect) ==> Apply(s, step) == DoArrive(s, Connect)
  {
    RunOne(s, step);
    SubsGrow(s, step);
  }

  lemma DeliverReaches(s: State, h: nat, input: Input)
    requires HandlerAt(s, h) && CanDeliver(s, h, input)
    ensures Reaches(s, DoDeliver(s, h, input)) && |DoDeliver(s, h, input).subs| == |s.subs|
  {
    StepReaches(s, Deliver(h, input));
  }

  /** Whatever the connections do and however every thread of the server interleaves with them, the registry is
      in a state that a schedule of the transition system reaches, and every handler agrees with its connection:
      between turns it holds the connection's `client_id` or is closed, during one it is on the way through
      the call that the turn makes. */
  lemma {:induction false} FleetIsSchedule(table: Table, moves: seq<Move>, f: Fleet)
    requires TableOk(table) && Sail(Launched(table), moves) == Some(f) && Bounded(f.s)
    ensures Reachable(table, f.s) && FleetInv(f)
  {
    if moves == [] {
      InvInit(table);
      ReachesSelf(f.s);
      assert Claims([], [], []) == [];
      assert forall id :: id in f.s.clients.Keys <==> Among([], id);
    } else {
      hide FleetInv, CanMove, Moved, Reaches;
      var n := |moves| - 1;
      var before := Sail(Launched(table), moves[..n]).value;
      MoveReaches(before, moves[n]);
      FleetIsSchedule(table, moves[..n], before);
      MoveKeepsFleet(before, moves[n]);
      ReachesTrans(Init(table), before.s, f.s);
    }
  }

  // ----- ownership -----

  /** A live connection between turns. */
  predicate Quiet(f: Fleet, h: nat) {
    h < |f.conns| && h < |f.turns| && f.conns[h].end == None && f.turns[h] == None
  }

  lemma ClaimsAt(f: Fleet, h: nat)
    requires FleetInv(f) && h < |f.conns|
    ensures |f.conns| == |f.turns| == |f.s.handlers|
    ensures Phase(f.s.handlers[h], f.conns[h], f.turns[h])
    ensures Claims(f.s.handlers, f.conns, f.turns)[h] == Claim(f.s.handlers[h], f.conns[h], f.turns[h])
  {
  }

  /** In every state of server and connections: the registered clients are exactly those some connection answers
      for, no client is answered for by two, and a live connection between turns answers for what it has added
      and not removed, its own `client_id` included. */
  lemma FleetAccounting(table: Table, moves: seq<Move>, f: Fleet)
    requires TableOk(table) && Sail(Launched(table), moves) == Some(f) && Bounded(f.s)
    ensures |f.conns| == |f.turns| == |f.s.handlers|
    ensures Partition(Claims(f.s.handlers, f.conns, f.turns), f.s.clients.Keys)
    ensures forall h: nat | h < |f.conns| && f.turns[h] == None ::
              && Mirrors(f.s.handlers[h], f.conns[h])
              && Claims(f.s.handlers, f.conns, f.turns)[h] == Balance(f.conns[h])
              && Ids(f.conns[h].clientId) <= Balance(f.conns[h]) <= f.s.clients.Keys
  {
    FleetIsSchedule(table, moves, f);
    hide Inv, Partition, Claims, Claim, Phase, PhasesOk, Sail;
    forall h: nat | h < |f.conns| && f.turns[h] == None
      ensures |f.conns| == |f.turns| == |f.s.handlers|
      ensures Mirrors(f.s.handlers[h], f.conns[h])
      ensures Claims(f.s.handlers, f.conns, f.turns)[h] == Balance(f.conns[h])
      ensures Ids(f.conns[h].clientId) <= Balance(f.conns[h]) <= f.s.clients.Keys
    {
      ClaimsAt(f, h);
      QuietClaim(f.s.handlers[h], f.conns[h]);
      ClaimedIsKey(Claims(f.s.handlers, f.conns, f.turns), f.s.clients.Keys, h);
    }
    SameLengths(f);
  }

  lemma SameLengths(f: Fleet)
    requires FleetInv(f)
    ensures |f.conns| == |f.turns| == |f.s.handlers|
    ensures Partition(Claims(f.s.handlers, f.conns, f.turns), f.s.clients.Keys)
  {
  }

  lemma QuietClaim(k: Handler, c: T.Conn)
    requires Phase(k, c, None)
    ensures Mirrors(k, c) && Claim(k, c, None) == Balance(c) && Ids(c.clientId) <= Balance(c)
  {
  }

  lemma ClaimedIsKey(claims: seq<set<nat>>, keys: set<nat>, h: nat)
    requires Partition(claims, keys) && h < |claims|
    ensures claims[h] <= keys
  {
    forall id | id in claims[h] ensures id in keys {
      assert Among(claims, id);
    }
  }

  // ----- what is left behind -----

  /** Clients of a connection that nobody will remove any more: not the one its live handler remembers. */
  ghost function Abandoned(c: T.Conn): set<nat> {
    Balance(c) - if c.end == None then Ids(c.clientId) else {}
  }

  /** A turn makes at most one call: it registers and remembers the new id, or removes and forgets the old. */
  ghost predicate OneCallAtMost(c: T.Conn, c': T.Conn, more: seq<T.Call>, id: nat) {
    && c'.calls == c.calls + more
    && (|| (more == [] && c'.adds == c.adds && c'.clientId == c.clientId)
        || (|more| == 1 && more[0].AddCall? && more[0].id == id && c'.adds == c.adds + 1 && c'.clientId == Some(id))
        || (c.clientId.Some? && more == [T.RemoveCall(c.clientId.value)] && c'.adds == c.adds && c'.clientId == None))
  }

  lemma TurnCalls(c: T.Conn, event: T.Event, world: T.World)
    ensures var c' := T.React(c, event, world);
            c.calls <= c'.calls && OneCallAtMost(c, c', c'.calls[|c.calls|..], world.ids(c.adds))
  {
    hide Trim, T.Classify;
  }

  lemma CallEffect(c: T.Conn, c': T.Conn, more: seq<T.Call>, id: nat)
    requires OneCallAtMost(c, c', more, id)
    ensures Balance(c') == if c'.adds > c.adds then Balance(c) + {id}
                           else if more != [] then Balance(c) - Ids(c.clientId) else Balance(c)
  {
    if more != [] {
      assert more == [more[0]];
      CallsAppend({}, c.calls, more[0]);
    } else {
      assert c.calls + more == c.calls;
    }
  }

  lemma AbandonedBy(c: T.Conn, c': T.Conn, more: seq<T.Call>, id: nat)
    requires c.end == None && Ids(c.clientId) <= Balance(c) && id !in Balance(c) && OneCallAtMost(c, c', more, id)
    ensures Abandoned(c') == Abandoned(c) + (if c'.adds > c.adds then Ids(c.clientId) else {})
                             + (if c'.end.Some? then Ids(c'.clientId) else {})
  {
    CallEffect(c, c', more, id);
    hide Balance, AfterCalls;
  }

  /** A turn abandons a client in exactly two cases: a STREAM while subscribed abandons the old one, and a
      handler that returns while subscribed abandons the current one. */
  lemma AbandonedExactly(c: T.Conn, event: T.Event, world: T.World)
    requires c.end == None && Ids(c.clientId) <= Balance(c) && world.ids(c.adds) !in Balance(c)
    ensures var c' := T.React(c, event, world);
            Abandoned(c') == Abandoned(c) + (if c'.adds > c.adds then Ids(c.clientId) else {})
                             + (if c'.end.Some? then Ids(c'.clientId) else {})
  {
    hide T.React, Abandoned, OneCallAtMost;
    var c' := T.React(c, event, world);
    TurnCalls(c, event, world);
    AbandonedBy(c, c', c'.calls[|c.calls|..], world.ids(c.adds));
  }

  /** Which ends are ends while subscribed: an expired keep-alive and a read error leave no subscription;
      the end of input, a rejected STREAM and a failed bind leave the one there was; a failed write leaves the
      new one after a STREAM, none after a STOP that removed one, and else the one there was. */
  lemma EndsWhileSubscribed(c: T.Conn, event: T.Event, world: T.World)
    requires c.end == None && T.React(c, event, world).end.Some?
    ensures var c' := T.React(c, event, world);
            match c'.end.value
            case KeepAliveExpired => event == T.TimedOut && c'.clientId == None
            case ReadError => event == T.Failed && c'.clientId == None
            case PeerClosed => event == T.Eof && c'.clientId == c.clientId
            case BadCommand => c'.clientId == c.clientId
            case BindError => c'.clientId == c.clientId
            case WriteError => c'.clientId == if c'.adds > c.adds then Some(world.ids(c.adds))
                                              else if |c'.calls| > |c.calls| then None else c.clientId
  {
    hide Trim, T.Classify;
  }

  /** The handlers between turns, and the registry they share. */
  ghost predicate AllQuiet(handlers: seq<Handler>, conns: seq<T.Conn>, claims: seq<set<nat>>, keys: set<nat>,
                           orphans: set<nat>) {
    && |handlers| == |conns| == |claims| && Partition(claims, keys) && orphans <= keys
    && (forall h: nat | h < |conns| ::
          && Mirrors(handlers[h], conns[h]) && claims[h] == Balance(conns[h])
          && Ids(conns[h].clientId) <= Balance(conns[h]))
    && (forall id | id in keys :: id in orphans <==> !HeldBySome(id, handlers))
  }

  lemma AbandonedIsOrphan(handlers: seq<Handler>, conns: seq<T.Conn>, claims: seq<set<nat>>, keys: set<nat>,
                          orphans: set<nat>, h: nat, id: nat)
    requires AllQuiet(handlers, conns, claims, keys, orphans) && h < |conns| && id in Abandoned(conns[h])
    ensures id in orphans
  {
    hide Balance, Partition;
    assert Mirrors(handlers[h], conns[h]) && id in claims[h];
    ClaimedIsKey(claims, keys, h);
    if HeldBySome(id, handlers) {
      var g: nat :| g < |handlers| && id in Held(handlers[g]);
      assert Mirrors(handlers[g], conns[g]) && id in claims[g];
      DisjointClaims(claims, keys, g, h);
    }
  }

  lemma OrphanIsAbandoned(handlers: seq<Handler>, conns: seq<T.Conn>, claims: seq<set<nat>>, keys: set<nat>,
                          orphans: set<nat>, id: nat) returns (h: nat)
    requires AllQuiet(handlers, conns, claims, keys, orphans) && id in orphans
    ensures h < |conns| && id in Abandoned(conns[h])
  {
    hide Balance;
    assert Among(claims, id);
    h :| h < |claims| && id in claims[h];
    assert Mirrors(handlers[h], conns[h]);
    SomeHolds(handlers, h, id);
  }

  lemma SomeHolds(handlers: seq<Handler>, h: nat, id: nat)
    requires h < |handlers|
    ensures id in Held(handlers[h]) ==> HeldBySome(id, handlers)
  {
  }

  lemma QuietFleet(table: Table, moves: seq<Move>, f: Fleet)
    requires TableOk(table) && Sail(Launched(table), moves) == Some(f) && Bounded(f.s)
    requires forall h: nat | h < |f.turns| :: f.turns[h] == None
    ensures |f.conns| == |f.turns| == |f.s.handlers|
    ensures AllQuiet(f.s.handlers, f.conns, Claims(f.s.handlers, f.conns, f.turns), f.s.clients.Keys, f.s.orphans)
  {
    hide FleetInv, Balance, Reachable, Sail, Mirrors, Partition, Claims, HeldBySome;
    FleetIsSchedule(table, moves, f);
    FleetAccounting(table, moves, f);
    Accounting(table, f.s);
    forall id | id in f.s.clients.Keys ensures id in f.s.orphans <==> !HeldBySome(id, f.s.handlers) {
      assert id in HeldIds(f.s) <==> HeldBySome(id, f.s.handlers);
    }
  }

  /** When no turn is under way, the orphans of the registry are exactly what the connections have abandoned. */
  lemma OrphansAreAbandoned(table: Table, moves: seq<Move>, f: Fleet, id: nat)
    requires TableOk(table) && Sail(Launched(table), moves) == Some(f) && Bounded(f.s)
    requires forall h: nat | h < |f.turns| :: f.turns[h] == None
    ensures id in f.s.orphans <==> exists h: nat :: h < |f.conns| && id in Abandoned(f.conns[h])
  {
    hide Sail, AllQuiet, Abandoned, Claims;
    QuietFleet(table, moves, f);
    var claims := Claims(f.s.handlers, f.conns, f.turns);
    if h: nat :| h < |f.conns| && id in Abandoned(f.conns[h]) {
      AbandonedIsOrphan(f.s.handlers, f.conns, claims, f.s.clients.Keys, f.s.orphans, h, id);
    }
    if id in f.s.orphans {
      var h := OrphanIsAbandoned(f.s.handlers, f.conns, claims, f.s.clients.Keys, f.s.orphans, id);
    }
  }

  lemma DisjointClaims(claims: seq<set<nat>>, keys: set<nat>, g: nat, h: nat)
    requires Partition(claims, keys) && g < |claims| && h < |claims|
    ensures g != h ==> claims[g] !! claims[h]
  {
  }

  // ----- every turn can be completed -----

  ghost predicate Leads(f: Fleet, f': Fleet) {
    exists moves :: Sail(f, moves) == Some(f')
  }

  lemma {:induction false} SailConcat(f: Fleet, a: seq<Move>, b: seq<Move>)
    requires Sail(f, a).Some?
    ensures Sail(f, a + b) == Sail(Sail(f, a).value, b)
  {
    hide CanMove, Moved;
    if b == [] {
      assert a + b == a;
    } else {
      SailConcat(f, a, b[..|b| - 1]);
      assert (a + b)[..|a + b| - 1] == a + b[..|b| - 1];
    }
  }

  lemma LeadsTrans(a: Fleet, b: Fleet, c: Fleet)
    requires Leads(a, b) && Leads(b, c)
    ensures Leads(a, c)
  {
    hide Sail;
    var x :| Sail(a, x) == Some(b);
    var y :| Sail(b, y) == Some(c);
    SailConcat(a, x, y);
  }

  lemma LeadsOne(f: Fleet, move: Move)
    requires CanMove(f, move)
    ensures Leads(f, Moved(f, move))
  {
    hide CanMove, Moved;
    assert [move][..0] == [];
    assert Sail(f, []) == Some(f);
    assert Sail(f, [move]) == Some(Moved(f, move));
  }

  /** What the server's own threads can do, they can do while the connections stand still. */
  lemma {:induction false} OthersGoOn(f: Fleet, steps: seq<Step>, s': State)
    requires AllInternal(steps) && Run(f.s, steps) == Some(s')
    ensures Leads(f, f.(s := s'))
  {
    hide Leads, Enabled, Apply;
    if steps == [] {
      assert Sail(f, []) == Some(f);
      NoMove(f);
    } else {
      var n := |steps| - 1;
      var before := Run(f.s, steps[..n]).value;
      OthersGoOn(f, steps[..n], before);
      assert Internal(steps[n]);
      LeadsOne(f.(s := before), Other(steps[n]));
      LeadsTrans(f, f.(s := before), f.(s := s'));
    }
  }

  lemma NoMove(f: Fleet)
    ensures Leads(f, f)
  {
    assert Sail(f, []) == Some(f);
  }

  lemma CallReturns(f: Fleet, h: nat) returns (f': Fleet)
    requires FleetInv(f) && |f.s.subs| + 2 <= U64_BOUND && h < |f.conns|
    ensures Leads(f, f') && f' == f.(s := f'.s) && HandlerAt(f'.s, h) && Resting(f'.s.handlers[h]) && Bounded(f'.s)
  {
    SameLengths(f);
    hide Inv, Leads, PhasesOk, Partition, Claims;
    var s' := HandlerCanEnd(f.s, h);
    var steps :| AllInternal(steps) && Run(f.s, steps) == Some(s');
    OthersGoOn(f, steps, s');
    f' := f.(s := s');
  }

  /** In every state, whatever the other threads are doing, a live connection between turns can take any turn:
      the registry carries out its call, and the connection ends up as `handle_connection` leaves it, with the
      id that the registry has really given out. */
  lemma TurnCompletes(f: Fleet, h: nat, event: T.Event, world: T.World) returns (f': Fleet, id: nat)
    requires FleetInv(f) && |f.s.subs| + 2 <= U64_BOUND && Quiet(f, h)
    ensures Leads(f, f') && FleetInv(f') && f'.turns == f.turns
    ensures f'.conns == f.conns[h := T.React(f.conns[h], event, Numbered(world, id))]
  {
    hide FleetInv, Leads, InputOf, T.React, Moved;
    BeginIsPossible(f, h, event, world);
    LeadsOne(f, Begin(h, event, world));
    var begun := Began(f, h, event, world);
    MoveKeepsFleet(f, Begin(h, event, world));
    if InputOf(f.conns[h], event, world) == None {
      f', id := begun, 0;
    } else {
      var returned := CallReturns(begun, h);
      LeadsTrans(f, begun, returned);
      f', id := Finished(returned, h);
      LeadsOne(returned, End(h));
      LeadsTrans(f, returned, f');
      assert f.turns[h := Some(Turn(event, world))][h := None] == f.turns;
      LeadsKeeps(begun, returned);
      MoveKeepsFleet(returned, End(h));
    }
  }

  lemma Began(f: Fleet, h: nat, event: T.Event, world: T.World) returns (f': Fleet)
    requires CanMove(f, Begin(h, event, world)) && Bounded(f.s)
    ensures f' == Moved(f, Begin(h, event, world)) && |f'.s.subs| == |f.s.subs| && Bounded(f'.s)
    ensures InputOf(f.conns[h], event, world) == None ==>
              f' == f.(conns := f.conns[h := T.React(f.conns[h], event, Numbered(world, 0))])
    ensures InputOf(f.conns[h], event, world) != None ==>
              f'.conns == f.conns && f'.turns == f.turns[h := Some(Turn(event, world))]
  {
    hide InputOf, T.React;
    TurnResult(f.conns[h], event, world, 0);
    f' := Moved(f, Begin(h, event, world));
  }

  lemma Finished(f: Fleet, h: nat) returns (f': Fleet, id: nat)
    requires CanMove(f, End(h))
    ensures f' == Moved(f, End(h)) && f'.turns == f.turns[h := None] && |f'.s.subs| == |f.s.subs|
    ensures f'.conns == f.conns[h := T.React(f.conns[h], f.turns[h].value.event, Numbered(f.turns[h].value.world, id))]
  {
    hide T.React;
    var k := f.s.handlers[h];
    id := if k.clientId.Some? then k.clientId.value else 0;
    f' := Moved(f, End(h));
  }

  lemma LeadsKeeps(f: Fleet, f': Fleet)
    requires FleetInv(f) && Leads(f, f') && Bounded(f'.s)
    ensures FleetInv(f')
  {
    hide FleetInv;
    var moves :| Sail(f, moves) == Some(f');
    SailKeeps(f, moves, f');
  }

  lemma {:induction false} SailKeeps(f: Fleet, moves: seq<Move>, f': Fleet)
    requires FleetInv(f) && Sail(f, moves) == Some(f') && Bounded(f'.s)
    ensures FleetInv(f')
  {
    if moves != [] {
      hide FleetInv, CanMove, Moved;
      var before := Sail(f, moves[..|moves| - 1]).value;
      MoveReaches(before, moves[|moves| - 1]);
      SailKeeps(f, moves[..|moves| - 1], before);
      MoveKeepsFleet(before, moves[|moves| - 1]);
    }
  }
}
