/** The subscription registry as a transition system: ticker threads, start and shutdown callers,
    connection handlers and client threads over the shared state of `QuoteServer`
    (src/quote_server.rs, src/client.rs, the registry side of src/tcp_server.rs). */
module Registry {
  import opened Defs
  import opened QuoteGenerators
  import opened Workers

  // ----- threads -----

  /** A background thread of `QuoteServer::start`. `Writing` holds the write lock, with entries still to do
      and whether a clock has failed; `Notifying` holds the clients mutex and has `pending` clients to notify. */
  datatype TickerPc =
    | Checking
    | Sleeping
    | Trying(elapsed: nat)
    | Writing(todo: set<string>, failed: bool)
    | WantsClients
    | Notifying(pending: set<nat>)
    | Stopped

  /** `entered` and `completed` count tick bodies. */
  datatype Ticker = Ticker(pc: TickerPc, entered: nat, completed: nat)

  /** A call of `start` or of `shutdown`. */
  datatype CallerPc =
    | StartWaiting
    | StartHolding
    | Storing
    | TakeWaiting
    | TakeHolding
    | JoiningTicker(ticker: nat)
    | Returned(joined: Option<nat>)

  /** A connection handler, reduced to what it does to the registry. From `AddHolding`, `RemHolding`,
      `Added` and `Joining` on it holds the clients mutex; `closing` says that it returns afterwards. */
  datatype HandlerPc =
    | Idle
    | AddWaiting(wanted: seq<string>)
    | AddHolding(wanted: seq<string>)
    | Added(id: nat)
    | RemWaiting(id: nat, closing: bool)
    | RemHolding(id: nat, closing: bool)
    | Joining(id: nat, sub: nat, closing: bool)
    | Closed

  datatype Handler = Handler(clientId: Option<nat>, pc: HandlerPc)

  /** A client thread with its bookkeeping: the table version current at each successful send of an
      Update, the notification rounds begun before insertion and before removal, and whether its
      handle has been joined. */
  datatype Sub = Sub(worker: Worker, sentAt: seq<nat>, since: nat, until: Option<nat>, joined: bool)

  datatype Holder = Free | Notifier(ticker: nat) | Serving(handler: nat)

  datatype State = State(
    table: Table, history: seq<Table>, writer: Option<nat>, readers: set<nat>,
    mutex: Holder, clients: map<nat, nat>, count: nat, rounds: nat, orphans: set<nat>,
    slotLock: Option<nat>, slot: Option<nat>, flag: bool,
    tickers: seq<Ticker>, callers: seq<CallerPc>, handlers: seq<Handler>, subs: seq<Sub>)

  function Init(table: Table): State {
    State(table, [table], None, {}, Free, map[], 0, 0, {}, None, None, false, [], [], [], [])
  }

  /** The number of the last published table. Every release of the write lock publishes one. */
  function Version(s: State): int {
    |s.history| - 1
  }

  function CurrentView(s: State): View
    requires |s.history| > 0
  {
    View(s.table, Version(s))
  }

  // ----- steps -----

  datatype Arrival = Connect | CallStart | CallShutdown

  /** What a connection delivers to its handler while that waits for a line. */
  datatype Input =
    | Stream(wanted: seq<string>)  // a valid STREAM command
    | Stop                         // STOP while subscribed
    | Drop                         // keep-alive timeout or read error
    | Quit                         // end of input, or an error exit of the dispatch

  /** `QuoteServer::start`'s loop with `update_quotes` and `notify_clients`. */
  datatype Tick =
    | Check
    | Wake(delay: nat)
    | Retry(delay: nat)
    | GiveUp
    | LockTable
    | WriteOne(key: string, draw: Sample)
    | UnlockTable
    | LockClients
    | SendUpdate(id: nat)
    | UnlockClients

  /** `QuoteServer::start` and `shutdown`. */
  datatype Call = LockSlot | SpawnTicker | StoreFlag | TakeHandle | JoinTicker

  /** `QuoteServer::add_client` and `remove_client`. */
  datatype Serve = LockRegistry | Insert | FinishAdd | Take | FinishRemove

  datatype Step =
    | Arrive(arrival: Arrival)
    | Deliver(h: nat, input: Input)
    | Ticking(t: nat, tick: Tick)
    | Calling(c: nat, call: Call)
    | Handling(h: nat, serve: Serve)
    | Advance(w: nat)

  predicate TickerAt(s: State, t: nat) { t < |s.tickers| }
  predicate CallerAt(s: State, c: nat) { c < |s.callers| }
  predicate HandlerAt(s: State, h: nat) { h < |s.handlers| }
  predicate SubAt(s: State, w: nat) { w < |s.subs| }

  /** Whether a step can be taken: thread at the right place, lock available, joined thread finished. */
  predicate Enabled(s: State, step: Step) {
    match step
    case Arrive(_) => true
    case Deliver(h, input) => HandlerAt(s, h) && CanDeliver(s, h, input)
    case Ticking(t, tick) => TickerAt(s, t) && CanTick(s, t, tick)
    case Calling(c, call) => CallerAt(s, c) && CanCall(s, c, call)
    case Handling(h, serve) => HandlerAt(s, h) && CanServe(s, h, serve)
    case Advance(w) => SubAt(s, w) && CanAdvance(s, w)
  }

  function Apply(s: State, step: Step): State
    requires Enabled(s, step)
  {
    match step
    case Arrive(arrival) => DoArrive(s, arrival)
    case Deliver(h, input) => DoDeliver(s, h, input)
    case Ticking(t, tick) => DoTick(s, t, tick)
    case Calling(c, call) => DoCall(s, c, call)
    case Handling(h, serve) => DoServe(s, h, serve)
    case Advance(w) => DoAdvance(s, w)
  }

  function DoArrive(s: State, arrival: Arrival): State {
    match arrival
    case Connect => s.(handlers := s.handlers + [Handler(None, Idle)])
    case CallStart => s.(callers := s.callers + [StartWaiting])
    case CallShutdown => s.(callers := s.callers + [Storing])
  }

  predicate CanDeliver(s: State, h: nat, input: Input)
    requires HandlerAt(s, h)
  {
    s.handlers[h].pc == Idle && (input.Stop? ==> s.handlers[h].clientId.Some?)
  }

  function DoDeliver(s: State, h: nat, input: Input): State
    requires HandlerAt(s, h) && CanDeliver(s, h, input)
  {
    var k := s.handlers[h];
    match input
    case Stream(wanted) => SetHandler(s, h, k.(pc := AddWaiting(wanted)))
    case Stop => SetHandler(s, h, Handler(None, RemWaiting(k.clientId.value, false)))
    case Drop =>
      SetHandler(s, h, if k.clientId.Some? then Handler(None, RemWaiting(k.clientId.value, true))
                       else Handler(None, Closed))
    case Quit => SetHandler(s, h, Handler(None, Closed)).(orphans := s.orphans + Ids(k.clientId))
  }

  predicate CanTick(s: State, t: nat, tick: Tick)
    requires TickerAt(s, t)
  {
    var pc := s.tickers[t].pc;
    match tick
    case Check => pc == Checking
    case Wake(_) => pc == Sleeping
    case Retry(delay) =>
      && pc.Trying? && pc.elapsed < WRITE_TIMEOUT_MS && !(s.writer == None && s.readers == {})
      && delay >= QUOTE_UPDATE_RETRY_PERIOD_MSEC
    case GiveUp => pc.Trying? && pc.elapsed >= WRITE_TIMEOUT_MS
    case LockTable => pc.Trying? && pc.elapsed < WRITE_TIMEOUT_MS && s.writer == None && s.readers == {}
    case WriteOne(key, _) => pc.Writing? && key in pc.todo && key in s.table
    case UnlockTable => pc.Writing? && (pc.failed || pc.todo == {})
    case LockClients => pc == WantsClients && s.mutex == Free
    case SendUpdate(id) => pc.Notifying? && id in pc.pending && id in s.clients && SubAt(s, s.clients[id])
    case UnlockClients => pc == Notifying({})
  }

  function DoTick(s: State, t: nat, tick: Tick): State
    requires TickerAt(s, t) && CanTick(s, t, tick)
  {
    var k := s.tickers[t];
    match tick
    case Check => SetTicker(s, t, if s.flag then k.(pc := Stopped) else k.(pc := Sleeping, entered := k.entered + 1))
    case Wake(delay) => SetTicker(s, t, k.(pc := Trying(delay)))
    case Retry(delay) => SetTicker(s, t, k.(pc := Trying(k.pc.elapsed + delay)))
    case GiveUp => SetTicker(s, t, k.(pc := WantsClients))
    case LockTable => SetTicker(s, t, k.(pc := Writing(s.table.Keys, false))).(writer := Some(t))
    case WriteOne(key, draw) =>
      SetTicker(s, t, k.(pc := Writing(k.pc.todo - {key}, k.pc.failed || draw.now == None)))
      .(table := s.table[key := Refresh(s.table[key], draw)])
    case UnlockTable =>
      SetTicker(s, t, k.(pc := WantsClients)).(writer := None, history := s.history + [s.table])
    case LockClients =>
      SetTicker(s, t, k.(pc := Notifying(s.clients.Keys))).(mutex := Notifier(t), rounds := s.rounds + 1)
    case SendUpdate(id) =>
      var s' := SetTicker(s, t, k.(pc := Notifying(k.pc.pending - {id})));
      SetSub(s', s.clients[id], Notified(s.subs[s.clients[id]], Version(s)))
    case UnlockClients => SetTicker(s, t, k.(pc := Checking, completed := k.completed + 1)).(mutex := Free)
  }

  /** `client.send(Update)`: fails without effect when the client thread is gone. */
  function Notified(e: Sub, version: int): Sub {
    if e.worker.pc.Exited? || version < 0 then e
    else e.(worker := e.worker.(queue := e.worker.queue + [Update]), sentAt := e.sentAt + [version])
  }

  predicate CanCall(s: State, c: nat, call: Call)
    requires CallerAt(s, c)
  {
    var pc := s.callers[c];
    match call
    case LockSlot => (pc == StartWaiting || pc == TakeWaiting) && s.slotLock == None
    case SpawnTicker => pc == StartHolding
    case StoreFlag => pc == Storing
    case TakeHandle => pc == TakeHolding
    case JoinTicker => pc.JoiningTicker? && TickerAt(s, pc.ticker) && s.tickers[pc.ticker].pc == Stopped
  }

  function DoCall(s: State, c: nat, call: Call): State
    requires CallerAt(s, c) && CanCall(s, c, call)
  {
    match call
    case LockSlot =>
      SetCaller(s, c, if s.callers[c] == StartWaiting then StartHolding else TakeHolding).(slotLock := Some(c))
    case SpawnTicker =>
      var s' := SetCaller(s, c, Returned(None)).(slotLock := None);
      if s.slot.Some? then s'
      else s'.(tickers := s.tickers + [Ticker(Checking, 0, 0)], slot := Some(|s.tickers|))
    case StoreFlag => SetCaller(s, c, TakeWaiting).(flag := true)
    case TakeHandle =>
      var s' := s.(slotLock := None, slot := None);
      SetCaller(s', c, if s.slot.Some? then JoiningTicker(s.slot.value) else Returned(None))
    case JoinTicker => SetCaller(s, c, Returned(Some(s.callers[c].ticker)))
  }

  predicate CanServe(s: State, h: nat, serve: Serve)
    requires HandlerAt(s, h)
  {
    var pc := s.handlers[h].pc;
    match serve
    case LockRegistry => (pc.AddWaiting? || pc.RemWaiting?) && s.mutex == Free
    case Insert => pc.AddHolding?
    case FinishAdd => pc.Added?
    case Take => pc.RemHolding? && (pc.id in s.clients ==> SubAt(s, s.clients[pc.id]))
    case FinishRemove => pc.Joining? && SubAt(s, pc.sub) && s.subs[pc.sub].worker.pc.Exited?
  }

  function DoServe(s: State, h: nat, serve: Serve): State
    requires HandlerAt(s, h) && CanServe(s, h, serve)
  {
    match serve
    case LockRegistry => DoLockRegistry(s, h)
    case Insert => DoInsert(s, h)
    case FinishAdd => DoFinishAdd(s, h)
    case Take => DoTake(s, h)
    case FinishRemove => DoFinishRemove(s, h)
  }

  function DoLockRegistry(s: State, h: nat): State
    requires HandlerAt(s, h) && CanServe(s, h, LockRegistry)
  {
    var k := s.handlers[h];
    var pc := if k.pc.AddWaiting? then AddHolding(k.pc.wanted) else RemHolding(k.pc.id, k.pc.closing);
    SetHandler(s, h, k.(pc := pc)).(mutex := Serving(h))
  }

  /** Start the thread, advance the 64-bit counter, insert: none of it is visible without the mutex. */
  function DoInsert(s: State, h: nat): State
    requires HandlerAt(s, h) && CanServe(s, h, Insert)
  {
    var k := s.handlers[h];
    SetHandler(s, h, k.(pc := Added(s.count)))
    .(subs := s.subs + [Sub(NewWorker(k.pc.wanted), [], s.rounds, None, false)],
      clients := s.clients[s.count := |s.subs|], count := (s.count + 1) % U64_BOUND)
  }

  /** The new id overwrites the handler's old one, whose client stays registered. */
  function DoFinishAdd(s: State, h: nat): State
    requires HandlerAt(s, h) && CanServe(s, h, FinishAdd)
  {
    var k := s.handlers[h];
    SetHandler(s, h, Handler(Some(k.pc.id), Idle)).(mutex := Free, orphans := s.orphans + Ids(k.clientId))
  }

  /** Take the client out of the map and send it Shutdown; an unknown id is only logged, and a failing
      send drops (and so joins) the client and ends the handler with the error. */
  function DoTake(s: State, h: nat): State
    requires HandlerAt(s, h) && CanServe(s, h, Take)
  {
    var k := s.handlers[h];
    if k.pc.id !in s.clients then
      SetHandler(s, h, Handler(k.clientId, AfterRemove(k.pc.closing))).(mutex := Free)
    else
      var w := s.clients[k.pc.id];
      var e := s.subs[w];
      var s' := s.(clients := s.clients - {k.pc.id});
      if e.worker.pc.Exited? then
        SetSub(SetHandler(s', h, Handler(k.clientId, Closed)), w, e.(until := Some(s.rounds), joined := true))
        .(mutex := Free)
      else
        SetSub(SetHandler(s', h, k.(pc := Joining(k.pc.id, w, k.pc.closing))), w, Dismissed(e, s.rounds))
  }

  function Dismissed(e: Sub, rounds: nat): Sub {
    e.(worker := e.worker.(queue := e.worker.queue + [Shutdown]), until := Some(rounds))
  }

  function DoFinishRemove(s: State, h: nat): State
    requires HandlerAt(s, h) && CanServe(s, h, FinishRemove)
  {
    var k := s.handlers[h];
    var e := s.subs[k.pc.sub];
    SetSub(SetHandler(s, h, Handler(k.clientId, AfterRemove(k.pc.closing))), k.pc.sub,
           e.(joined := true, worker := e.worker.(open := false)))
    .(mutex := Free)
  }

  predicate CanAdvance(s: State, w: nat)
    requires SubAt(s, w)
  {
    Runnable(s.subs[w].worker) && |s.history| > 0 && (s.subs[w].worker.pc.WantsRead? ==> s.writer == None)
  }

  function DoAdvance(s: State, w: nat): State
    requires SubAt(s, w) && CanAdvance(s, w)
  {
    var worker := Act(s.subs[w].worker, CurrentView(s));
    SetSub(s, w, s.subs[w].(worker := worker))
    .(readers := if worker.pc.Reading? then s.readers + {w} else s.readers - {w})
  }

  function SetTicker(s: State, t: nat, k: Ticker): State
    requires TickerAt(s, t)
  {
    s.(tickers := s.tickers[t := k])
  }

  function SetCaller(s: State, c: nat, k: CallerPc): State
    requires CallerAt(s, c)
  {
    s.(callers := s.callers[c := k])
  }

  function SetHandler(s: State, h: nat, k: Handler): State
    requires HandlerAt(s, h)
  {
    s.(handlers := s.handlers[h := k])
  }

  function SetSub(s: State, w: nat, e: Sub): State
    requires SubAt(s, w)
  {
    s.(subs := s.subs[w := e])
  }

  function Ids(id: Option<nat>): set<nat> {
    if id.Some? then {id.value} else {}
  }

  function AfterRemove(closing: bool): HandlerPc {
    if closing then Closed else Idle
  }

  // ----- runs -----

  /** A schedule: the state it ends in, or None when some step is not enabled when its turn comes. */
  function Run(s: State, steps: seq<Step>): Option<State> {
    if steps == [] then Some(s)
    else
      var n := |steps| - 1;
      match Run(s, steps[..n])
      case None => None
      case Some(before) => if Enabled(before, steps[n]) then Some(Apply(before, steps[n])) else None
  }

  ghost predicate Reaches(s: State, s': State) {
    exists steps :: Run(s, steps) == Some(s')
  }

  lemma {:induction false} RunConcat(s: State, a: seq<Step>, b: seq<Step>)
    requires Run(s, a).Some?
    ensures Run(s, a + b) == Run(Run(s, a).value, b)
  {
    if b == [] {
      assert a + b == a;
    } else {
      var n := |b| - 1;
      RunConcat(s, a, b[..n]);
      assert (a + b)[..|a + b| - 1] == a + b[..n];
    }
  }

  lemma RunOne(s: State, step: Step)
    requires Enabled(s, step)
    ensures Run(s, [step]) == Some(Apply(s, step))
  {
    assert [step][..0] == [];
    assert Run(s, []) == Some(s);
  }

  lemma ReachesSelf(s: State)
    ensures Reaches(s, s)
  {
    assert Run(s, []) == Some(s);
  }

  lemma ReachesTrans(a: State, b: State, c: State)
    requires Reaches(a, b) && Reaches(b, c)
    ensures Reaches(a, c)
  {
    var x :| Run(a, x) == Some(b);
    var y :| Run(b, y) == Some(c);
    RunConcat(a, x, y);
  }
}
