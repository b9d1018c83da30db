/** Connections and the registry together: any number of connection handlers take turns while every thread of
    the server goes on, each in its own small steps. */
module TcpRegistry {
  import opened Defs
  import opened Text
  import opened Registry
  import opened RegistryInvariants
  import opened RegistryJoin
  import T = TcpServers

  // ----- the calls of one connection -----

  /** The registered ids after some calls. */
  ghost function AfterCalls(ids: set<nat>, calls: seq<T.Call>): set<nat> {
    if calls == [] then ids
    else
      var n := |calls| - 1;
      if calls[n].AddCall? then AfterCalls(ids, calls[..n]) + {calls[n].id}
      else AfterCalls(ids, calls[..n]) - {calls[n].id}
  }

  lemma CallsAppend(ids: set<nat>, calls: seq<T.Call>, call: T.Call)
    ensures AfterCalls(ids, calls + [call]) ==
            if call.AddCall? then AfterCalls(ids, calls) + {call.id} else AfterCalls(ids, calls) - {call.id}
  {
    assert (calls + [call])[..|calls|] == calls;
  }

  /** The clients a connection has added and not removed. */
  ghost function Balance(c: T.Conn): set<nat> {
    AfterCalls({}, c.calls)
  }

  // ----- turns -----

  /** What an event asks of the registry, if anything: the call that a turn of the handler makes, or the end of
      the handler without a call. */
  function InputOf(c: T.Conn, event: T.Event, world: T.World): Option<Input> {
    match event
    case Line(text) =>
      if Trim(text) == [] then None else RequestInput(c, T.Classify(Trim(text), world.validAddr), world)
    case TimedOut => if T.Expired(c.lastPing, world.now(c.turns)) then Some(Drop) else None
    case Failed => Some(Drop)
    case Eof => Some(Quit)
  }

  function RequestInput(c: T.Conn, request: T.Request, world: T.World): Option<Input> {
    match request
    case Stream(tickers) => Some(if world.bindOk(c.adds) then Input.Stream(tickers) else Quit)
    case BadStream => Some(Quit)
    case Stop => if c.clientId.Some? then Some(Input.Stop) else if world.writeOk(c.writes) then None else Some(Quit)
    case _ => if world.writeOk(c.writes) then None else Some(Quit)
  }

  /** A turn that waits for its call to return. */
  datatype Turn = Turn(event: T.Event, world: T.World)

  /** The server, every connection ever accepted, and the turns under way. */
  datatype Fleet = Fleet(s: State, conns: seq<T.Conn>, turns: seq<Option<Turn>>)

  datatype Move =
    | Accept(at: nat)
    | Begin(h: nat, event: T.Event, world: T.World)
    | End(h: nat)
    | Other(step: Step)   // any step of any thread of the server

  ghost predicate CanMove(f: Fleet, move: Move) {
    match move
    case Accept(_) => true
    case Begin(h, event, world) =>
      && h < |f.conns| && h < |f.turns| && f.conns[h].end == None && f.turns[h] == None
      && var input := InputOf(f.conns[h], event, world);
         input.Some? ==> HandlerAt(f.s, h) && CanDeliver(f.s, h, input.value)
    case End(h) => h < |f.conns| && h < |f.turns| && HandlerAt(f.s, h) && f.turns[h].Some? && Resting(f.s.handlers[h])
    case Other(step) => Enabled(f.s, step) && !step.Deliver? && step != Arrive(Connect)
  }

  ghost function Moved(f: Fleet, move: Move): Fleet
    requires CanMove(f, move)
  {
    match move
    case Accept(at) => Fleet(DoArrive(f.s, Connect), f.conns + [T.Opened(at)], f.turns + [None])
    case Begin(h, event, world) =>
      (match InputOf(f.conns[h], event, world)
       case None => f.(conns := f.conns[h := T.React(f.conns[h], event, world)])
       case Some(input) => f.(s := DoDeliver(f.s, h, input), turns := f.turns[h := Some(Turn(event, world))]))
    case End(h) =>
      var c := Ended(f.s.handlers[h], f.conns[h], f.turns[h].value);
      var s := if c.end.Some? && f.s.handlers[h].pc == Idle then DoDeliver(f.s, h, Quit) else f.s;
      Fleet(s, f.conns[h := c], f.turns[h := None])
    case Other(step) => f.(s := Apply(f.s, step))
  }

  /** The connection after its turn, with the id that the registry has really returned. */
  ghost function Ended(k: Handler, c: T.Conn, turn: Turn): T.Conn {
    T.React(c, turn.event, Numbered(turn.world, if k.clientId.Some? then k.clientId.value else 0))
  }

  /** The world in which a registration returns `id`. */
  ghost function Numbered(world: T.World, id: nat): T.World {
    world.(ids := _ => id)
  }

  /** How a turn ends, by what it asks of the registry. */
  lemma TurnResult(c: T.Conn, event: T.Event, world: T.World, id: nat)
    requires c.end == None
    ensures InputOf(c, event, Numbered(world, id)) == InputOf(c, event, world)
    ensures var c' := T.React(c, event, Numbered(world, id));
            match InputOf(c, event, world)
            case None => c'.end == None && c'.calls == c.calls && c'.clientId == c.clientId
            case Some(Stream(tickers)) => c'.calls == c.calls + [T.AddCall(tickers, id)] && c'.clientId == Some(id)
            case Some(Stop) =>
              && c.clientId.Some? && c'.calls == c.calls + [T.RemoveCall(c.clientId.value)]
              && c'.clientId == None
            case Some(Drop) => c'.end.Some? && c'.calls == T.Unsubscribe(c).calls && c'.clientId == None
            case Some(Quit) => c'.end.Some? && c'.calls == c.calls && c'.clientId == c.clientId
    ensures InputOf(c, event, world) == None ==>
              T.React(c, event, Numbered(world, id)) == T.React(c, event, world)
  {
    hide Trim, T.Classify;
  }

  // ----- where a handler stands -----

  /** Between turns a handler of the registry is in the place of its connection; one that has returned has
      forgotten its id. */
  predicate Mirrors(k: Handler, c: T.Conn) {
    k == if c.end == None then Handler(c.clientId, Idle) else Handler(None, Closed)
  }

  /** During a turn it is on the way through the call. */
  predicate Busy(k: Handler, id: Option<nat>, input: Input) {
    match input
    case Stream(tickers) =>
      || (k.clientId == id && (k.pc == AddWaiting(tickers) || k.pc == AddHolding(tickers) || k.pc.Added?))
      || (k.clientId.Some? && k.pc == Idle)
    case Stop => id.Some? && k.clientId == None && Removing(k.pc, id.value, false)
    case Drop => k.clientId == None && if id.Some? then Removing(k.pc, id.value, true) else k.pc == Closed
    case Quit => k == Handler(None, Closed)
  }

  predicate Removing(pc: HandlerPc, id: nat, closing: bool) {
    || pc == RemWaiting(id, closing) || pc == RemHolding(id, closing)
    || (pc.Joining? && pc.id == id && pc.closing == closing) || pc == AfterRemove(closing)
  }

  ghost predicate Phase(k: Handler, c: T.Conn, turn: Option<Turn>) {
    && Ids(c.clientId) <= Balance(c)
    && match turn
       case None => Mirrors(k, c)
       case Some(Turn(event, world)) =>
         var input := InputOf(c, event, world);
         c.end == None && input.Some? && Busy(k, c.clientId, input.value)
  }

  /** The registered clients a connection answers for: those it has added and not removed, the call under way
      counted as soon as the registry has carried it out. */
  ghost function Claim(k: Handler, c: T.Conn, turn: Option<Turn>): set<nat> {
    match turn
    case None => Balance(c)
    case Some(Turn(event, world)) =>
      match InputOf(c, event, world)
      case Some(Stream(_)) =>
        Balance(c) + (if k.pc.Added? then {k.pc.id} else if k.pc == Idle then Ids(k.clientId) else {})
      case Some(Stop) => Balance(c) - (if k.pc.Joining? || Resting(k) then Ids(c.clientId) else {})
      case Some(Drop) => Balance(c) - (if k.pc.Joining? || Resting(k) then Ids(c.clientId) else {})
      case _ => Balance(c)
  }

  ghost predicate PhasesOk(handlers: seq<Handler>, conns: seq<T.Conn>, turns: seq<Option<Turn>>) {
    && |handlers| == |conns| == |turns|
    && forall h: nat | h < |conns| :: Phase(handlers[h], conns[h], turns[h])
  }

  ghost function Claims(handlers: seq<Handler>, conns: seq<T.Conn>, turns: seq<Option<Turn>>): (claims: seq<set<nat>>)
    requires |handlers| == |conns| == |turns|
    ensures |claims| == |conns|
  {
    seq(|conns|, h requires 0 <= h < |conns| => Claim(handlers[h], conns[h], turns[h]))
  }

  // ----- sets of ids that share nothing -----

  ghost predicate Among(claims: seq<set<nat>>, id: nat) {
    exists h: nat :: h < |claims| && id in claims[h]
  }

  /** The keys are the disjoint union of the claims. */
  ghost predicate Partition(claims: seq<set<nat>>, keys: set<nat>) {
    && (forall h: nat, k: nat | h < k < |claims| :: claims[h] !! claims[k])
    && (forall id :: id in keys <==> Among(claims, id))
  }

  lemma AmongSet(claims: seq<set<nat>>, h: nat, claim: set<nat>, id: nat)
    requires h < |claims|
    ensures Among(claims[h := claim], id) <==> id in claim || exists k: nat :: k < |claims| && k != h && id in claims[k]
  {
    var claims' := claims[h := claim];
    if id in claim {
      assert id in claims'[h];
    }
    if k: nat :| k < |claims| && k != h && id in claims[k] {
      assert id in claims'[k];
    }
    if k: nat :| k < |claims| && id in claims'[k] {
      assert k == h || id in claims[k];
    }
  }

  /** One claim grows by an unclaimed id or shrinks by an id of its own, and the keys with it. */
  lemma PartitionSet(claims: seq<set<nat>>, keys: set<nat>, h: nat, more: set<nat>, less: set<nat>)
    requires Partition(claims, keys) && h < |claims| && more !! keys && less <= claims[h]
    ensures Partition(claims[h := claims[h] + more - less], keys + more - less)
  {
    hide Among;
    var claim := claims[h] + more - less;
    assert claims[h := claims[h]] == claims;
    forall id ensures id in keys + more - less <==> Among(claims[h := claim], id) {
      AmongSet(claims, h, claim, id);
      AmongSet(claims, h, claims[h], id);
      if k: nat :| k < |claims| && k != h && id in claims[k] {
        assert claims[k] !! claims[h];
      }
    }
    forall k: nat | k < |claims| && k != h ensures claim !! claims[k] {
      assert claims[k] !! claims[h];
      forall id | id in claims[k] ensures id in keys {
        AmongSet(claims, k, claims[k], id);
        assert claims[k := claims[k]] == claims;
      }
    }
  }

  lemma PartitionAppend(claims: seq<set<nat>>, keys: set<nat>)
    requires Partition(claims, keys)
    ensures Partition(claims + [{}], keys)
  {
    forall id ensures Among(claims + [{}], id) <==> Among(claims, id) {
      if h: nat :| h < |claims| && id in claims[h] {
        assert id in (claims + [{}])[h];
      }
    }
  }

  // ----- the invariant -----

  ghost predicate FleetInv(f: Fleet) {
    && Inv(f.s) && Bounded(f.s) && PhasesOk(f.s.handlers, f.conns, f.turns)
    && Partition(Claims(f.s.handlers, f.conns, f.turns), f.s.clients.Keys)
  }

  /** One connection moves; its claim grows by `more` or shrinks by `less`, and the registry with it. */
  lemma OneMoves(handlers: seq<Handler>, conns: seq<T.Conn>, turns: seq<Option<Turn>>, keys: set<nat>,
                 h: nat, k: Handler, c: T.Conn, turn: Option<Turn>, more: set<nat>, less: set<nat>)
    requires PhasesOk(handlers, conns, turns) && Partition(Claims(handlers, conns, turns), keys) && h < |conns|
    requires Phase(k, c, turn) && more !! keys && less <= Claim(handlers[h], conns[h], turns[h])
    requires Claim(k, c, turn) == Claim(handlers[h], conns[h], turns[h]) + more - less
    ensures PhasesOk(handlers[h := k], conns[h := c], turns[h := turn])
    ensures Partition(Claims(handlers[h := k], conns[h := c], turns[h := turn]), keys + more - less)
  {
    hide Phase, Claim, Partition;
    var claims := Claims(handlers, conns, turns);
    assert Claims(handlers[h := k], conns[h := c], turns[h := turn]) == claims[h := Claim(k, c, turn)];
    PartitionSet(claims, keys, h, more, less);
  }

  // ----- steps of the registry -----

  /** How a step of a handler's call moves it; `id` is the id given out by an insertion. */
  predicate Steps(k: Handler, serve: Serve, k': Handler, id: nat) {
    match serve
    case LockRegistry =>
      || (k.pc.AddWaiting? && k' == k.(pc := AddHolding(k.pc.wanted)))
      || (k.pc.RemWaiting? && k' == k.(pc := RemHolding(k.pc.id, k.pc.closing)))
    case Insert => k.pc.AddHolding? && k' == k.(pc := Added(id))
    case FinishAdd => k.pc.Added? && k' == Handler(Some(k.pc.id), Idle)
    case Take => k.pc.RemHolding? && k' == k.(pc := Joining(k.pc.id, k.pc.id, k.pc.closing))
    case FinishRemove => k.pc.Joining? && k' == Handler(k.clientId, AfterRemove(k.pc.closing))
  }

  /** The ids a step registers, and those it removes. */
  function Adds(serve: Serve, id: nat): set<nat> {
    if serve.Insert? then {id} else {}
  }

  function Removes(serve: Serve, k: Handler): set<nat> {
    if serve.Take? && k.pc.RemHolding? then {k.pc.id} else {}
  }

  lemma TakeMoves(s: State, h: nat)
    requires Inv(s) && HandlerAt(s, h) && CanServe(s, h, Take)
    ensures var k := s.handlers[h];
            && DoTake(s, h).handlers == s.handlers[h := k.(pc := Joining(k.pc.id, k.pc.id, k.pc.closing))]
            && DoTake(s, h).clients == s.clients - {k.pc.id}
  {
    hide Inv;
    TakeFindsClient(s, h);
  }

  lemma InsertMoves(s: State, h: nat)
    requires Inv(s) && HandlerAt(s, h) && CanServe(s, h, Insert) && Bounded(DoInsert(s, h))
    ensures DoInsert(s, h).handlers == s.handlers[h := s.handlers[h].(pc := Added(s.count))]
    ensures s.count !in s.clients && DoInsert(s, h).clients.Keys == s.clients.Keys + {s.count}
  {
    FreshId(s);
    hide Inv;
  }

  /** What a handler's own step does to its place and to the registered ids. */
  lemma ServeMoves(s: State, h: nat, serve: Serve) returns (k: Handler)
    requires Inv(s) && HandlerAt(s, h) && CanServe(s, h, serve) && Bounded(DoServe(s, h, serve))
    ensures DoServe(s, h, serve).handlers == s.handlers[h := k] && Steps(s.handlers[h], serve, k, s.count)
    ensures Adds(serve, s.count) !! s.clients.Keys
    ensures DoServe(s, h, serve).clients.Keys ==
            s.clients.Keys + Adds(serve, s.count) - Removes(serve, s.handlers[h])
  {
    hide Inv, DoTake, DoInsert;
    if serve.Insert? {
      InsertMoves(s, h);
    }
    if serve.Take? {
      TakeMoves(s, h);
    }
    k := DoServe(s, h, serve).handlers[h];
  }

  lemma BusySteps(k: Handler, serve: Serve, k': Handler, id: nat, own: Option<nat>, input: Input)
    requires Busy(k, own, input) && Steps(k, serve, k', id)
    ensures Busy(k', own, input)
    ensures Removes(serve, k) <= Ids(own)
    ensures !input.Stream? ==> Adds(serve, id) == {}
    ensures input.Stream? ==> Removes(serve, k) == {}
  {
  }

  /** That step keeps the phase; it changes the claim exactly as it changes the registry. */
  lemma ServePhase(k: Handler, serve: Serve, k': Handler, id: nat, c: T.Conn, turn: Option<Turn>)
    requires Phase(k, c, turn) && Steps(k, serve, k', id)
    ensures Phase(k', c, turn) && Removes(serve, k) <= Claim(k, c, turn)
    ensures Claim(k', c, turn) == Claim(k, c, turn) + Adds(serve, id) - Removes(serve, k)
  {
    hide Balance, InputOf, Busy, Removing;
    if turn.Some? {
      var input := InputOf(c, turn.value.event, turn.value.world).value;
      BusySteps(k, serve, k', id, c.clientId, input);
      ClaimSteps(k, serve, k', id, c, turn.value, input);
    }
  }

  lemma ClaimSteps(k: Handler, serve: Serve, k': Handler, id: nat, c: T.Conn, turn: Turn, input: Input)
    requires Ids(c.clientId) <= Balance(c) && InputOf(c, turn.event, turn.world) == Some(input)
    requires Busy(k, c.clientId, input) && Steps(k, serve, k', id)
    ensures Removes(serve, k) <= Claim(k, c, Some(turn))
    ensures Claim(k', c, Some(turn)) == Claim(k, c, Some(turn)) + Adds(serve, id) - Removes(serve, k)
  {
    hide Balance, InputOf;
    if input.Stream? {
      assert Claim(k, c, Some(turn)) == Balance(c) + if k.pc.Added? then {k.pc.id} else {};
    } else {
      BusySteps(k, serve, k', id, c.clientId, input);
    }
  }

  lemma ServeKeepsFleet(f: Fleet, h: nat, serve: Serve)
    requires FleetInv(f) && CanMove(f, Other(Handling(h, serve))) && Bounded(Moved(f, Other(Handling(h, serve))).s)
    ensures FleetInv(Moved(f, Other(Handling(h, serve))))
  {
    hide Inv, Phase, Claim, Claims, Partition, DoServe, CanServe, Steps, Adds, Removes;
    var k := ServeMoves(f.s, h, serve);
    ServePhase(f.s.handlers[h], serve, k, f.s.count, f.conns[h], f.turns[h]);
    OneMoves(f.s.handlers, f.conns, f.turns, f.s.clients.Keys, h, k, f.conns[h], f.turns[h],
             Adds(serve, f.s.count), Removes(serve, f.s.handlers[h]));
    assert f.conns[h := f.conns[h]] == f.conns && f.turns[h := f.turns[h]] == f.turns;
    InvStep(f.s, Handling(h, serve));
  }

  lemma TickKeepsRegistry(s: State, t: nat, tick: Tick)
    requires TickerAt(s, t) && CanTick(s, t, tick)
    ensures DoTick(s, t, tick).handlers == s.handlers && DoTick(s, t, tick).clients == s.clients
  {
  }

  lemma CallKeepsRegistry(s: State, c: nat, call: Call)
    requires CallerAt(s, c) && CanCall(s, c, call)
    ensures DoCall(s, c, call).handlers == s.handlers && DoCall(s, c, call).clients == s.clients
  {
  }

  /** Every step of every thread of the server. */
  lemma OtherKeepsFleet(f: Fleet, step: Step)
    requires FleetInv(f) && CanMove(f, Other(step)) && Bounded(Moved(f, Other(step)).s)
    ensures FleetInv(Moved(f, Other(step)))
  {
    hide Inv, Phase, PhasesOk, Claims, Partition, CanTick, DoTick, CanServe, DoServe, CanCall, DoCall, CanAdvance;
    InvStep(f.s, step);
    match step {
      case Handling(h, serve) => ServeKeepsFleet(f, h, serve);
      case Ticking(t, tick) => TickKeepsRegistry(f.s, t, tick);
      case Calling(c, call) => CallKeepsRegistry(f.s, c, call);
      case Arrive(arrival) =>
      case Advance(w) =>
    }
  }

  // ----- beginning and ending a turn -----

  /** Between turns the handler can always begin one. */
  lemma BeginIsPossible(f: Fleet, h: nat, event: T.Event, world: T.World)
    requires FleetInv(f) && h < |f.conns| && f.conns[h].end == None && f.turns[h] == None
    ensures CanMove(f, Begin(h, event, world))
  {
    hide Inv, Claims, Partition, Trim, T.Classify;
    assert Phase(f.s.handlers[h], f.conns[h], f.turns[h]);
  }

  /** Where an input puts a waiting handler. */
  function Started(k: Handler, input: Input): Handler
    requires input.Stop? ==> k.clientId.Some?
  {
    match input
    case Stream(tickers) => k.(pc := AddWaiting(tickers))
    case Stop => Handler(None, RemWaiting(k.clientId.value, false))
    case Drop => if k.clientId.Some? then Handler(None, RemWaiting(k.clientId.value, true)) else Handler(None, Closed)
    case Quit => Handler(None, Closed)
  }

  lemma DeliverMoves(s: State, h: nat, input: Input)
    requires HandlerAt(s, h) && CanDeliver(s, h, input)
    ensures DoDeliver(s, h, input).handlers == s.handlers[h := Started(s.handlers[h], input)]
    ensures DoDeliver(s, h, input).clients == s.clients
  {
  }

  lemma BeginPhase(k: Handler, c: T.Conn, turn: Turn, input: Input)
    requires Phase(k, c, None) && c.end == None && InputOf(c, turn.event, turn.world) == Some(input)
    requires input.Stop? ==> k.clientId.Some?
    ensures Phase(Started(k, input), c, Some(turn))
    ensures Claim(Started(k, input), c, Some(turn)) == Claim(k, c, None)
  {
    hide Balance, InputOf;
  }

  lemma BeginKeepsFleet(f: Fleet, h: nat, event: T.Event, world: T.World)
    requires FleetInv(f) && CanMove(f, Begin(h, event, world))
    ensures FleetInv(Moved(f, Begin(h, event, world)))
  {
    hide Inv, Claims, Claim, Partition, InputOf, T.React, Phase, Started, DoDeliver;
    var k, c := f.s.handlers[h], f.conns[h];
    var keys := f.s.clients.Keys;
    match InputOf(c, event, world) {
      case None =>
        QuietPhase(k, c, event, world);
        OneMoves(f.s.handlers, f.conns, f.turns, keys, h, k, T.React(c, event, world), None, {}, {});
        assert f.s.handlers[h := k] == f.s.handlers && f.turns[h := None] == f.turns && keys + {} - {} == keys;
      case Some(input) =>
        BeginPhase(k, c, Turn(event, world), input);
        DeliverMoves(f.s, h, input);
        OneMoves(f.s.handlers, f.conns, f.turns, keys, h, Started(k, input), c, Some(Turn(event, world)), {}, {});
        assert f.conns[h := c] == f.conns && keys + {} - {} == keys;
        DeliverKeepsInv(f.s, h, input);
    }
  }

  lemma DeliverKeepsInv(s: State, h: nat, input: Input)
    requires Inv(s) && Bounded(s) && HandlerAt(s, h) && CanDeliver(s, h, input)
    ensures Inv(DoDeliver(s, h, input)) && Bounded(DoDeliver(s, h, input))
  {
    hide Inv;
    InvStep(s, Deliver(h, input));
  }

  lemma QuietPhase(k: Handler, c: T.Conn, event: T.Event, world: T.World)
    requires Phase(k, c, None) && c.end == None && InputOf(c, event, world) == None
    ensures Phase(k, T.React(c, event, world), None)
    ensures Claim(k, T.React(c, event, world), None) == Claim(k, c, None)
  {
    TurnResult(c, event, world, 0);
    hide T.React, InputOf;
  }

  /** A turn whose call has returned: the connection takes up exactly the id that the handler has got. */
  lemma EndPhase(k: Handler, c: T.Conn, turn: Turn, k': Handler)
    requires Phase(k, c, Some(turn)) && Resting(k)
    requires k' == if Ended(k, c, turn).end.Some? && k.pc == Idle then Handler(None, Closed) else k
    ensures Phase(k', Ended(k, c, turn), None)
    ensures Claim(k', Ended(k, c, turn), None) == Claim(k, c, Some(turn))
  {
    hide T.React, InputOf, AfterCalls;
    var id := if k.clientId.Some? then k.clientId.value else 0;
    TurnResult(c, turn.event, turn.world, id);
    match InputOf(c, turn.event, turn.world).value {
      case Stream(tickers) => CallsAppend({}, c.calls, T.AddCall(tickers, id));
      case Stop => CallsAppend({}, c.calls, T.RemoveCall(c.clientId.value));
      case Drop =>
        if c.clientId.Some? {
          CallsAppend({}, c.calls, T.RemoveCall(c.clientId.value));
        }
      case Quit =>
    }
  }

  lemma EndKeepsFleet(f: Fleet, h: nat)
    requires FleetInv(f) && CanMove(f, End(h)) && Bounded(Moved(f, End(h)).s)
    ensures FleetInv(Moved(f, End(h)))
  {
    hide Inv, Claims, Claim, Partition, Phase, Ended;
    var f' := Moved(f, End(h));
    var k, c, turn := f.s.handlers[h], f.conns[h], f.turns[h].value;
    var k' := f'.s.handlers[h];
    var keys := f.s.clients.Keys;
    EndPhase(k, c, turn, k');
    OneMoves(f.s.handlers, f.conns, f.turns, keys, h, k', Ended(k, c, turn), None, {}, {});
    assert f.s.handlers[h := k] == f.s.handlers && keys + {} - {} == keys;
    if f'.s != f.s {
      InvStep(f.s, Deliver(h, Quit));
    }
  }

  lemma AcceptKeepsFleet(f: Fleet, at: nat)
    requires FleetInv(f)
    ensures FleetInv(Moved(f, Accept(at)))
  {
    hide Inv;
    var f' := Moved(f, Accept(at));
    InvStep(f.s, Arrive(Connect));
    assert Balance(T.Opened(at)) == {};
    assert Claims(f'.s.handlers, f'.conns, f'.turns) == Claims(f.s.handlers, f.conns, f.turns) + [{}];
    PartitionAppend(Claims(f.s.handlers, f.conns, f.turns), f.s.clients.Keys);
    hide Phase, Partition;
  }

  /** Every move keeps the invariant: handlers agree with their connections between turns, and the registered
      ids are the disjoint union of what the connections answer for. */
  lemma MoveKeepsFleet(f: Fleet, move: Move)
    requires FleetInv(f) && CanMove(f, move) && Bounded(Moved(f, move).s)
    ensures FleetInv(Moved(f, move))
  {
    hide FleetInv, CanMove, Moved;
    match move
    case Accept(at) => AcceptKeepsFleet(f, at);
    case Begin(h, event, world) => BeginKeepsFleet(f, h, event, world);
    case End(h) => EndKeepsFleet(f, h);
    case Other(step) => OtherKeepsFleet(f, step);
  }
}
