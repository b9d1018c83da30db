/** Progress of the registry: no deadlock, a bounded join inside `remove_client`, and a shutdown after
    which every thread comes to rest. */
module RegistryLiveness {
  import opened Defs
  import opened QuoteGenerators
  import opened Workers
  import opened Registry
  import opened RegistryInvariants
  import opened RegistryRuns

  // ----- who waits for whom -----

  datatype Actor =
    | TickerThread(t: nat)
    | CallerThread(c: nat)
    | HandlerThread(h: nat)
    | ClientThread(w: nat)

  predicate Alive(s: State, a: Actor) {
    match a
    case TickerThread(t) => TickerAt(s, t)
    case CallerThread(c) => CallerAt(s, c)
    case HandlerThread(h) => HandlerAt(s, h)
    case ClientThread(w) => SubAt(s, w)
  }

  /** Nothing left to do, unless the environment brings a new command or a notification comes. */
  predicate AtRest(s: State, a: Actor)
    requires Alive(s, a)
  {
    match a
    case TickerThread(t) => s.tickers[t].pc.Stopped?
    case CallerThread(c) => s.callers[c].Returned?
    case HandlerThread(h) => s.handlers[h].pc.Idle? || s.handlers[h].pc.Closed?
    case ClientThread(w) => !Runnable(s.subs[w].worker)
  }

  function MutexOwner(mutex: Holder): Option<Actor> {
    match mutex
    case Free => None
    case Notifier(t) => Some(TickerThread(t))
    case Serving(h) => Some(HandlerThread(h))
  }

  /** The thread this one is blocked by: a lock owner or a thread being joined. */
  function WaitsFor(s: State, a: Actor): Option<Actor>
    requires Alive(s, a)
  {
    match a
    case TickerThread(t) => if s.tickers[t].pc.WantsClients? then MutexOwner(s.mutex) else None
    case CallerThread(c) =>
      (match s.callers[c]
       case StartWaiting => SlotOwner(s.slotLock)
       case TakeWaiting => SlotOwner(s.slotLock)
       case JoiningTicker(t) => if TickerAt(s, t) && !s.tickers[t].pc.Stopped? then Some(TickerThread(t)) else None
       case _ => None)
    case HandlerThread(h) =>
      (match s.handlers[h].pc
       case AddWaiting(_) => MutexOwner(s.mutex)
       case RemWaiting(_, _) => MutexOwner(s.mutex)
       case Joining(_, w, _) => if SubAt(s, w) && !s.subs[w].worker.pc.Exited? then Some(ClientThread(w)) else None
       case _ => None)
    case ClientThread(w) =>
      if s.subs[w].worker.pc.WantsRead? && s.writer.Some? then Some(TickerThread(s.writer.value)) else None
  }

  function SlotOwner(slotLock: Option<nat>): Option<Actor> {
    if slotLock.Some? then Some(CallerThread(slotLock.value)) else None
  }

  /** The wait order: callers, then threads that want the clients mutex, then a joining handler, then a
      client thread that wants the read lock, then threads that are not waiting. */
  function Rank(s: State, a: Actor): nat
    requires Alive(s, a)
  {
    match a
    case TickerThread(t) => if s.tickers[t].pc.WantsClients? then 3 else 0
    case CallerThread(c) =>
      (match s.callers[c]
       case StartWaiting => 5
       case TakeWaiting => 5
       case JoiningTicker(_) => 4
       case _ => 0)
    case HandlerThread(h) =>
      (match s.handlers[h].pc
       case AddWaiting(_) => 3
       case RemWaiting(_, _) => 3
       case Joining(_, _, _) => 2
       case _ => 0)
    case ClientThread(w) => if s.subs[w].worker.pc.WantsRead? then 1 else 0
  }

  lemma CallerIsOk(s: State, c: nat)
    requires Inv(s) && CallerAt(s, c)
    ensures s.callers[c].JoiningTicker? ==> TickerAt(s, s.callers[c].ticker)
  {
    assert CallerOk(s.flag, s.tickers, s.callers[c]);
  }

  lemma MutexOwnerWorks(s: State)
    requires MutexInv(s.mutex, s.tickers, s.handlers) && s.mutex != Free
    ensures var b := MutexOwner(s.mutex).value; Alive(s, b) && !AtRest(s, b) && Rank(s, b) <= 2
  {
  }

  lemma CallerWait(s: State, c: nat)
    requires SlotLockInv(s.slotLock, s.callers) && CallerAt(s, c) && WaitsFor(s, CallerThread(c)).Some?
    ensures var b := WaitsFor(s, CallerThread(c)).value;
            Alive(s, b) && !AtRest(s, b) && Rank(s, b) < Rank(s, CallerThread(c))
  {
  }

  lemma ClientWait(s: State, w: nat)
    requires TableLockInv(s.writer, s.readers, s.tickers, s.subs) && SubAt(s, w) && WaitsFor(s, ClientThread(w)).Some?
    ensures var b := WaitsFor(s, ClientThread(w)).value;
            Alive(s, b) && !AtRest(s, b) && Rank(s, b) < Rank(s, ClientThread(w))
  {
  }

  /** The thread being joined has its Shutdown, or has exited: it is never left waiting for a command. */
  lemma JoinedThreadRuns(s: State, h: nat)
    requires Inv(s) && HandlerAt(s, h) && s.handlers[h].pc.Joining?
    ensures SubAt(s, s.handlers[h].pc.sub)
    ensures var worker := s.subs[s.handlers[h].pc.sub].worker; !worker.pc.Exited? ==> Runnable(worker)
  {
    JoiningIsFirst(s, h);
    CountAt(s, s.handlers[h].pc.sub);
  }

  /** Every wait goes down the order, and never to a thread that is at rest. */
  lemma WaitIsOrdered(s: State, a: Actor)
    requires Inv(s) && Alive(s, a) && WaitsFor(s, a).Some?
    ensures var b := WaitsFor(s, a).value; Alive(s, b) && !AtRest(s, b) && Rank(s, b) < Rank(s, a)
  {
    hide OwnerInv, DeliveryInv, SnapshotInv, TableInv, TickerInv, JoinInv, RegistryInv, MutexInv, TableLockInv,
         SlotLockInv;
    match a
    case CallerThread(c) => CallerWait(s, c);
    case ClientThread(w) => ClientWait(s, w);
    case HandlerThread(h) =>
      if s.handlers[h].pc.Joining? {
        JoinedThreadRuns(s, h);
      } else {
        MutexOwnerWorks(s);
      }
    case TickerThread(t) => MutexOwnerWorks(s);
  }

  /** Consecutive threads of a wait chain wait for one another. */
  ghost predicate WaitChain(s: State, chain: seq<Actor>) {
    && (forall i: nat | i < |chain| :: Alive(s, chain[i]))
    && forall i: nat | 0 < i < |chain| :: Waits(s, chain, i)
  }

  ghost predicate Waits(s: State, chain: seq<Actor>, i: nat)
    requires 0 < i < |chain| && Alive(s, chain[i - 1])
  {
    WaitsFor(s, chain[i - 1]) == Some(chain[i])
  }

  lemma {:induction false} ChainDescends(s: State, chain: seq<Actor>)
    requires Inv(s) && WaitChain(s, chain) && |chain| >= 2
    ensures Rank(s, chain[|chain| - 1]) < Rank(s, chain[0])
  {
    hide Inv, WaitsFor, Rank;
    var n := |chain| - 1;
    assert Waits(s, chain, n);
    WaitIsOrdered(s, chain[n - 1]);
    if n > 1 {
      forall i: nat | 0 < i < n ensures Waits(s, chain[..n], i) {
        assert Waits(s, chain, i);
      }
      ChainDescends(s, chain[..n]);
    }
  }

  /** No reachable state has a wait cycle. */
  lemma NoWaitCycle(table: Table, s: State, chain: seq<Actor>)
    requires Reachable(table, s) && WaitChain(s, chain) && |chain| >= 2
    ensures chain[0] != chain[|chain| - 1]
  {
    hide Inv;
    ReachableInv(table, s);
    ChainDescends(s, chain);
  }

  /** The end of a thread's wait chain. */
  ghost function Unblocker(s: State, a: Actor): (b: Actor)
    requires Inv(s) && Alive(s, a)
    ensures Alive(s, b) && WaitsFor(s, b) == None
    ensures AtRest(s, b) ==> b == a
    decreases Rank(s, a)
  {
    if WaitsFor(s, a) == None then a
    else
      WaitIsOrdered(s, a);
      Unblocker(s, WaitsFor(s, a).value)
  }

  ghost predicate StepOf(a: Actor, step: Step) {
    match step
    case Ticking(t, _) => a == TickerThread(t)
    case Calling(c, _) => a == CallerThread(c)
    case Handling(h, _) => a == HandlerThread(h)
    case Advance(w) => a == ClientThread(w)
    case _ => false
  }

  ghost predicate CanStep(s: State, a: Actor) {
    exists step :: StepOf(a, step) && Enabled(s, step)
  }

  const IDLE_DRAW: Sample := Draw(1.0, 0.0, None)

  lemma WriterCanStep(s: State, t: nat)
    requires TableInv(s.table, s.history, s.writer, s.tickers) && TickerAt(s, t) && s.tickers[t].pc.Writing?
    ensures exists tick :: CanTick(s, t, tick)
  {
    TodoAt(s, t);
    var todo := s.tickers[t].pc.todo;
    if todo == {} {
      assert CanTick(s, t, UnlockTable);
    } else {
      var key :| key in todo;
      assert CanTick(s, t, WriteOne(key, IDLE_DRAW));
    }
  }

  lemma NotifierCanStep(s: State, t: nat)
    requires Inv(s) && TickerAt(s, t) && s.tickers[t].pc.Notifying?
    ensures exists tick :: CanTick(s, t, tick)
  {
    hide Inv, RegistryInv;
    PendingBelongs(s, t);
    var pending := s.tickers[t].pc.pending;
    if pending == {} {
      assert CanTick(s, t, UnlockClients);
    } else {
      var id :| id in pending;
      RegisteredAt(s, id);
      assert CanTick(s, t, SendUpdate(id));
    }
  }

  lemma PendingBelongs(s: State, t: nat)
    requires Inv(s) && TickerAt(s, t) && s.tickers[t].pc.Notifying?
    ensures s.tickers[t].pc.pending <= s.clients.Keys
  {
    PendingAt(s, t);
  }

  lemma OtherTickCanStep(s: State, t: nat)
    requires TickerAt(s, t) && !s.tickers[t].pc.Stopped? && WaitsFor(s, TickerThread(t)) == None
    requires !s.tickers[t].pc.Writing? && !s.tickers[t].pc.Notifying?
    ensures exists tick :: CanTick(s, t, tick)
  {
    var tick := match s.tickers[t].pc
      case Checking => Check
      case Sleeping => Wake(0)
      case Trying(elapsed) =>
        if elapsed >= WRITE_TIMEOUT_MS then GiveUp
        else if s.writer == None && s.readers == {} then LockTable else Retry(QUOTE_UPDATE_RETRY_PERIOD_MSEC)
      case _ => LockClients;
    assert CanTick(s, t, tick);
  }

  lemma TickerCanStep(s: State, t: nat)
    requires Inv(s) && TickerAt(s, t) && !s.tickers[t].pc.Stopped? && WaitsFor(s, TickerThread(t)) == None
    ensures CanStep(s, TickerThread(t))
  {
    hide OwnerInv, DeliveryInv, SnapshotInv, TableInv, TickerInv, JoinInv, RegistryInv, LockInv, CanTick;
    if s.tickers[t].pc.Writing? {
      WriterCanStep(s, t);
    } else if s.tickers[t].pc.Notifying? {
      NotifierCanStep(s, t);
    } else {
      OtherTickCanStep(s, t);
    }
    var tick :| CanTick(s, t, tick);
    assert StepOf(TickerThread(t), Ticking(t, tick));
    assert Enabled(s, Ticking(t, tick));
  }

  lemma CallerCanStep(s: State, c: nat)
    requires Inv(s) && CallerAt(s, c) && !s.callers[c].Returned? && WaitsFor(s, CallerThread(c)) == None
    ensures CanStep(s, CallerThread(c))
  {
    hide Inv;
    CallerIsOk(s, c);
    var call := match s.callers[c]
      case StartHolding => SpawnTicker
      case Storing => StoreFlag
      case TakeHolding => TakeHandle
      case JoiningTicker(_) => JoinTicker
      case _ => LockSlot;
    assert StepOf(CallerThread(c), Calling(c, call));
    assert Enabled(s, Calling(c, call));
  }

  lemma HandlerCanStep(s: State, h: nat)
    requires Inv(s) && HandlerAt(s, h) && !AtRest(s, HandlerThread(h)) && WaitsFor(s, HandlerThread(h)) == None
    ensures CanStep(s, HandlerThread(h))
  {
    hide Inv;
    var pc := s.handlers[h].pc;
    if pc.Joining? {
      JoiningIsFirst(s, h);
    }
    if pc.RemHolding? && pc.id in s.clients {
      RegisteredAt(s, pc.id);
    }
    var serve := match pc
      case AddHolding(_) => Insert
      case Added(_) => FinishAdd
      case RemHolding(_, _) => Take
      case Joining(_, _, _) => FinishRemove
      case _ => LockRegistry;
    assert StepOf(HandlerThread(h), Handling(h, serve));
    assert Enabled(s, Handling(h, serve));
  }

  lemma ClientCanStep(s: State, w: nat)
    requires Inv(s) && SubAt(s, w) && Runnable(s.subs[w].worker) && WaitsFor(s, ClientThread(w)) == None
    ensures CanStep(s, ClientThread(w))
  {
    HistoryStarted(s);
    hide Inv;
    assert StepOf(ClientThread(w), Advance(w));
    assert Enabled(s, Advance(w));
  }

  lemma UnblockedCanStep(s: State, a: Actor)
    requires Inv(s) && Alive(s, a) && !AtRest(s, a) && WaitsFor(s, a) == None
    ensures CanStep(s, a)
  {
    hide Inv, CanStep;
    match a
    case TickerThread(t) => TickerCanStep(s, t);
    case CallerThread(c) => CallerCanStep(s, c);
    case HandlerThread(h) => HandlerCanStep(s, h);
    case ClientThread(w) => ClientCanStep(s, w);
  }

  /** Deadlock freedom: in every reachable state, the wait chain of every thread that has work left ends
      in a thread that can take a step. */
  lemma NoDeadlock(table: Table, s: State, a: Actor)
    requires Reachable(table, s) && Alive(s, a) && !AtRest(s, a)
    ensures Inv(s) && Alive(s, Unblocker(s, a)) && CanStep(s, Unblocker(s, a))
  {
    hide Inv, AtRest, CanStep;
    ReachableInv(table, s);
    UnblockedCanStep(s, Unblocker(s, a));
  }

  // ----- the join inside remove_client -----

  function AdvancesIn(steps: seq<Step>, w: nat): nat {
    if steps == [] then 0
    else
      var n := |steps| - 1;
      AdvancesIn(steps[..n], w) + if steps[n] == Advance(w) then 1 else 0
  }

  /** A dismissed client thread is sent nothing more; only its own actions change what it has left to do. */
  ghost predicate DismissedStep(s: State, step: Step, w: nat, s': State)
    requires SubAt(s, w)
  {
    && SubAt(s', w) && s'.subs[w].until.Some? && s'.subs[w].sentAt == s.subs[w].sentAt
    && Work(s'.subs[w].worker) + (if step == Advance(w) then 1 else 0) == Work(s.subs[w].worker)
  }

  lemma DismissedServe(s: State, h: nat, serve: Serve, w: nat)
    requires Inv(s) && HandlerAt(s, h) && CanServe(s, h, serve) && SubAt(s, w) && s.subs[w].until.Some?
    ensures DismissedStep(s, Handling(h, serve), w, DoServe(s, h, serve))
  {
    hide Inv;
    match serve
    case Take => TakeFindsClient(s, h);
    case FinishRemove => JoiningIsFirst(s, h);
    case _ =>
  }

  lemma DismissedTick(s: State, t: nat, tick: Tick, w: nat)
    requires Inv(s) && TickerAt(s, t) && CanTick(s, t, tick) && SubAt(s, w) && s.subs[w].until.Some?
    ensures DismissedStep(s, Ticking(t, tick), w, DoTick(s, t, tick))
  {
    hide Inv;
    if tick.SendUpdate? {
      SendFindsClient(s, t, tick.id);
    }
  }

  lemma DismissedAdvance(s: State, v: nat, w: nat)
    requires Inv(s) && SubAt(s, v) && CanAdvance(s, v) && SubAt(s, w) && s.subs[w].until.Some?
    ensures DismissedStep(s, Advance(v), w, DoAdvance(s, v))
  {
    hide Inv;
    JoinedHasExited(s, w);
    if v == w {
      StepAccounting(s.subs[w].worker, CurrentView(s));
    }
  }

  lemma DismissedEveryStep(s: State, step: Step, w: nat)
    requires Inv(s) && Enabled(s, step) && SubAt(s, w) && s.subs[w].until.Some?
    ensures DismissedStep(s, step, w, Apply(s, step))
  {
    hide Inv;
    match step
    case Ticking(t, tick) => DismissedTick(s, t, tick, w);
    case Handling(h, serve) => DismissedServe(s, h, serve, w);
    case Advance(v) => DismissedAdvance(s, v, w);
    case Calling(c, call) =>
    case _ =>
  }

  lemma {:induction false} DismissedRun(s: State, steps: seq<Step>, s': State, w: nat)
    requires Inv(s) && Run(s, steps) == Some(s') && Bounded(s') && SubAt(s, w) && s.subs[w].until.Some?
    ensures SubAt(s', w) && s'.subs[w].until.Some? && s'.subs[w].sentAt == s.subs[w].sentAt
    ensures Work(s'.subs[w].worker) + AdvancesIn(steps, w) == Work(s.subs[w].worker)
  {
    hide Inv, Enabled;
    if steps != [] {
      var n := |steps| - 1;
      var before := Run(s, steps[..n]).value;
      SubsGrow(before, steps[n]);
      DismissedRun(s, steps[..n], before, w);
      InvRun(s, steps[..n], before);
      DismissedEveryStep(before, steps[n], w);
    }
  }

  /** The join in `remove_client` is bounded: from the moment a handler joins a client thread, that thread
      takes at most `Work` further actions in any schedule, nothing more is queued for it, and it has
      exited exactly when it has taken them all. */
  lemma JoinIsBounded(table: Table, s: State, h: nat, steps: seq<Step>, s': State)
    requires Reachable(table, s) && HandlerAt(s, h) && s.handlers[h].pc.Joining?
    requires Run(s, steps) == Some(s') && Bounded(s')
    ensures var w := s.handlers[h].pc.sub;
            && SubAt(s, w) && SubAt(s', w) && s'.subs[w].sentAt == s.subs[w].sentAt
            && AdvancesIn(steps, w) <= Work(s.subs[w].worker)
            && (AdvancesIn(steps, w) == Work(s.subs[w].worker) <==> s'.subs[w].worker.pc.Exited?)
  {
    hide Inv;
    Continues(table, s, steps, s');
    JoiningIsFirst(s, h);
    var w := s.handlers[h].pc.sub;
    DismissedRun(s, steps, s', w);
    JoinedHasExited(s', w);
    WorkLeft(s'.subs[w].worker);
  }
}
