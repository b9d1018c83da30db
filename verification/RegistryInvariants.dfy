/** What every step of the registry keeps. */
module RegistryInvariants {
  import opened Defs
  import opened QuoteGenerators
  import opened Workers
  import opened Registry

  // ----- locks -----

  predicate HoldsMutex(pc: HandlerPc) {
    pc.AddHolding? || pc.Added? || pc.RemHolding? || pc.Joining?
  }

  /** The write lock belongs to the one ticker that is writing; readers and a writer exclude each other. */
  ghost predicate TableLockInv(writer: Option<nat>, readers: set<nat>, tickers: seq<Ticker>, subs: seq<Sub>) {
    && (writer.Some? ==> writer.value < |tickers| && tickers[writer.value].pc.Writing? && readers == {})
    && (forall t: nat | t < |tickers| :: tickers[t].pc.Writing? ==> writer == Some(t))
    && (forall w: nat | w < |subs| :: subs[w].worker.pc.Reading? <==> w in readers)
    && (forall w | w in readers :: w < |subs|)
  }

  /** The clients mutex belongs to the one ticker or handler that is inside its critical section. */
  ghost predicate MutexInv(mutex: Holder, tickers: seq<Ticker>, handlers: seq<Handler>) {
    && (mutex.Notifier? ==> mutex.ticker < |tickers| && tickers[mutex.ticker].pc.Notifying?)
    && (mutex.Serving? ==> mutex.handler < |handlers| && HoldsMutex(handlers[mutex.handler].pc))
    && (forall t: nat | t < |tickers| :: tickers[t].pc.Notifying? ==> mutex == Notifier(t))
    && (forall h: nat | h < |handlers| :: HoldsMutex(handlers[h].pc) ==> mutex == Serving(h))
  }

  /** The `bg_thread` mutex belongs to the one caller that is inside its critical section. */
  ghost predicate SlotLockInv(slotLock: Option<nat>, callers: seq<CallerPc>) {
    && (slotLock.Some? ==> slotLock.value < |callers| && HoldsSlot(callers[slotLock.value]))
    && (forall c: nat | c < |callers| :: HoldsSlot(callers[c]) ==> slotLock == Some(c))
  }

  predicate HoldsSlot(pc: CallerPc) {
    pc == StartHolding || pc == TakeHolding
  }

  ghost predicate LockInv(s: State) {
    && TableLockInv(s.writer, s.readers, s.tickers, s.subs)
    && MutexInv(s.mutex, s.tickers, s.handlers)
    && SlotLockInv(s.slotLock, s.callers)
  }

  // ----- the quote table -----

  /** Every published table and the one being written satisfy the table invariant over the same keys;
      while no writer is at work the current table is the last published one. */
  ghost predicate TableInv(table: Table, history: seq<Table>, writer: Option<nat>, tickers: seq<Ticker>) {
    && |history| > 0
    && TableOk(table) && table.Keys == history[0].Keys
    && (forall v: nat | v < |history| :: TableOk(history[v]) && history[v].Keys == history[0].Keys)
    && (writer == None ==> table == history[|history| - 1])
    && (forall t: nat | t < |tickers| :: tickers[t].pc.Writing? ==> tickers[t].pc.todo <= table.Keys)
  }

  // ----- start and shutdown -----

  predicate InBody(pc: TickerPc) {
    !pc.Checking? && !pc.Stopped?
  }

  /** At most the first ticker ever enters a tick body, and an emptied slot means the flag is up. */
  ghost predicate TickerInv(flag: bool, slot: Option<nat>, tickers: seq<Ticker>, callers: seq<CallerPc>) {
    && (slot.Some? ==> slot.value < |tickers|)
    && (|tickers| >= 1 && slot == None ==> flag)
    && (|tickers| >= 2 ==> flag)
    && (forall t: nat | t < |tickers| :: TickerOk(flag, t, tickers[t]))
    && (forall c: nat | c < |callers| :: CallerOk(flag, tickers, callers[c]))
  }

  predicate TickerOk(flag: bool, t: nat, k: Ticker) {
    && k.entered == k.completed + (if InBody(k.pc) then 1 else 0)
    && (k.pc.Stopped? ==> flag)
    && (t >= 1 ==> k.entered == 0)
  }

  predicate CallerOk(flag: bool, tickers: seq<Ticker>, pc: CallerPc) {
    match pc
    case TakeWaiting => flag
    case TakeHolding => flag
    case JoiningTicker(t) => flag && t < |tickers|
    case Returned(Some(t)) => flag && t < |tickers| && tickers[t].pc.Stopped?
    case _ => true
  }

  // ----- the registry -----

  /** At most 2^64 clients were ever added, so the counter has not come round to a used id. */
  predicate Bounded(s: State) {
    |s.subs| <= U64_BOUND
  }

  /** Ids are issued in order; exactly the threads not yet asked to stop are registered. */
  ghost predicate RegistryInv(count: nat, clients: map<nat, nat>, subs: seq<Sub>, tickers: seq<Ticker>) {
    && count == |subs| % U64_BOUND
    && (forall id | id in clients :: clients[id] == id && id < |subs| && subs[id].until == None)
    && (forall w: nat | w < |subs| :: subs[w].until == None ==> w in clients)
    && (forall t: nat | t < |tickers| :: tickers[t].pc.Notifying? ==> tickers[t].pc.pending <= clients.Keys)
  }

  /** The ids a handler answers for: its subscription and those of a call in flight. */
  function Held(k: Handler): set<nat> {
    Ids(k.clientId) + InFlight(k.pc)
  }

  function InFlight(pc: HandlerPc): set<nat> {
    match pc
    case Added(id) => {id}
    case RemWaiting(id, _) => {id}
    case RemHolding(id, _) => {id}
    case _ => {}
  }

  /** Every registered id is held by one live handler or orphaned, and nothing else is. */
  ghost predicate OwnerInv(orphans: set<nat>, ids: set<nat>, handlers: seq<Handler>) {
    && orphans <= ids
    && (forall h: nat | h < |handlers| :: HandlerOk(handlers[h]) && Held(handlers[h]) <= ids - orphans)
    && (forall h: nat, k: nat | h < |handlers| && k < |handlers| && h != k :: Held(handlers[h]) !! Held(handlers[k]))
    && (forall id | id in ids && id !in orphans :: HeldBySome(id, handlers))
  }

  ghost predicate HeldBySome(id: nat, handlers: seq<Handler>) {
    exists h: nat :: h < |handlers| && id in Held(handlers[h])
  }

  predicate HandlerOk(k: Handler) {
    match k.pc
    case Added(id) => k.clientId != Some(id)
    case RemWaiting(_, _) => k.clientId == None
    case RemHolding(_, _) => k.clientId == None
    case Joining(_, _, _) => k.clientId == None
    case Closed => k.clientId == None
    case _ => true
  }

  /** A handler that is joining a client thread has taken exactly that thread out of the registry. */
  ghost predicate JoinInv(handlers: seq<Handler>, subs: seq<Sub>) {
    forall h: nat | h < |handlers| && handlers[h].pc.Joining? ::
      var pc := handlers[h].pc;
      pc.id == pc.sub && pc.sub < |subs| && subs[pc.sub].until.Some? && !subs[pc.sub].joined
  }

  // ----- delivery -----

  /** 1 while a notification round is on and has not reached this client. */
  ghost function Unsent(mutex: Holder, tickers: seq<Ticker>, w: nat): nat {
    if mutex.Notifier? && mutex.ticker < |tickers| && tickers[mutex.ticker].pc.Notifying?
       && w in tickers[mutex.ticker].pc.pending
    then 1 else 0
  }

  ghost predicate BeingJoined(mutex: Holder, handlers: seq<Handler>, w: nat) {
    && mutex.Serving? && mutex.handler < |handlers|
    && handlers[mutex.handler].pc.Joining? && handlers[mutex.handler].pc.sub == w
  }

  /** Conservation of Updates for one client thread, and its place in the notification rounds. */
  ghost predicate CountOk(e: Sub, rounds: nat, unsent: nat, beingJoined: bool) {
    && WellFormed(e.worker)
    && Accepted(e.worker) == |e.sentAt|
    && match e.until
       case None =>
         && e.worker.open && Shutdown !in e.worker.queue && !e.worker.pc.Exited? && !e.joined
         && e.since + |e.sentAt| + unsent == rounds
       case Some(end) =>
         && e.since + |e.sentAt| == end && end <= rounds
         && (e.worker.pc.Exited? || Shutdown in e.worker.queue)
         && (if e.joined then e.worker.pc.Exited? else beingJoined)
  }

  ghost predicate DeliveryInv(subs: seq<Sub>, rounds: nat, mutex: Holder, tickers: seq<Ticker>,
                              handlers: seq<Handler>) {
    forall w: nat | w < |subs| ::
      CountOk(subs[w], rounds, Unsent(mutex, tickers, w), BeingJoined(mutex, handlers, w))
  }

  /** A finished batch shows one published table, no older than the table its Update was sent under. */
  ghost predicate BatchOk(history: seq<Table>, tickers: seq<string>, batch: Batch, sentAt: nat) {
    && sentAt <= batch.version < |history|
    && batch.messages == Wanted(tickers, history[batch.version])
  }

  ghost predicate SnapshotOk(e: Sub, history: seq<Table>, table: Table) {
    && |e.worker.done| <= |e.sentAt|
    && (forall k: nat | k < |e.worker.done| :: BatchOk(history, e.worker.tickers, e.worker.done[k], e.sentAt[k]))
    && (forall j: nat, k: nat | j < k < |e.worker.done| :: e.worker.done[j].version <= e.worker.done[k].version)
    && (forall k: nat | k < |e.sentAt| :: e.sentAt[k] < |history|)
    && ReadingOk(e, history, table)
  }

  ghost predicate ReadingOk(e: Sub, history: seq<Table>, table: Table) {
    match e.worker.pc
    case Reading(version, next, messages) =>
      && version == |history| - 1 && next <= |e.worker.tickers|
      && messages == Wanted(e.worker.tickers[..next], table)
    case _ => true
  }

  ghost predicate SnapshotInv(subs: seq<Sub>, history: seq<Table>, table: Table) {
    forall w: nat | w < |subs| :: SnapshotOk(subs[w], history, table)
  }

  ghost predicate Inv(s: State) {
    && LockInv(s)
    && TableInv(s.table, s.history, s.writer, s.tickers)
    && TickerInv(s.flag, s.slot, s.tickers, s.callers)
    && RegistryInv(s.count, s.clients, s.subs, s.tickers)
    && OwnerInv(s.orphans, s.clients.Keys, s.handlers)
    && JoinInv(s.handlers, s.subs)
    && DeliveryInv(s.subs, s.rounds, s.mutex, s.tickers, s.handlers)
    && SnapshotInv(s.subs, s.history, s.table)
  }

  // ----- changing one handler -----

  /** One handler giving up some of its ids, to the orphans or out of the registry, or gaining fresh ones. */
  lemma OwnerChange(orphans: set<nat>, ids: set<nat>, orphans': set<nat>, ids': set<nat>,
                    handlers: seq<Handler>, h: nat, k: Handler)
    requires OwnerInv(orphans, ids, handlers) && h < |handlers| && HandlerOk(k)
    requires orphans' <= ids'
    requires ids' - orphans' == ids - orphans - Held(handlers[h]) + Held(k)
    requires Held(k) <= Held(handlers[h]) || (Held(k) - Held(handlers[h])) !! ids
    ensures OwnerInv(orphans', ids', handlers[h := k])
  {
    var after := handlers[h := k];
    forall id | id in ids' && id !in orphans'
      ensures HeldBySome(id, after)
    {
      if id in Held(k) {
        assert id in Held(after[h]);
      } else {
        assert HeldBySome(id, handlers);
        var g: nat :| g < |handlers| && id in Held(handlers[g]);
        assert id in Held(after[g]);
      }
    }
  }

  lemma MutexChange(mutex: Holder, mutex': Holder, tickers: seq<Ticker>, handlers: seq<Handler>, h: nat, k: Handler)
    requires MutexInv(mutex, tickers, handlers) && h < |handlers|
    requires if HoldsMutex(handlers[h].pc) then mutex' == (if HoldsMutex(k.pc) then mutex else Free)
             else if HoldsMutex(k.pc) then mutex == Free && mutex' == Serving(h)
             else mutex' == mutex
    ensures MutexInv(mutex', tickers, handlers[h := k])
  {
  }

  lemma OwnerAt(orphans: set<nat>, ids: set<nat>, handlers: seq<Handler>, h: nat)
    requires OwnerInv(orphans, ids, handlers) && h < |handlers|
    ensures orphans <= ids && HandlerOk(handlers[h]) && Held(handlers[h]) <= ids - orphans
  {
  }

  lemma MutexAt(s: State, h: nat)
    requires MutexInv(s.mutex, s.tickers, s.handlers) && HandlerAt(s, h) && HoldsMutex(s.handlers[h].pc)
    ensures s.mutex == Serving(h)
  {
  }

  lemma NoneHolds(tickers: seq<Ticker>, handlers: seq<Handler>)
    requires MutexInv(Free, tickers, handlers)
    ensures forall h: nat | h < |handlers| :: !HoldsMutex(handlers[h].pc)
  {
  }

  lemma JoinAt(s: State, h: nat)
    requires JoinInv(s.handlers, s.subs) && HandlerAt(s, h)
    ensures JoinOk(s.handlers[h], s.subs)
  {
  }

  predicate JoinOk(k: Handler, subs: seq<Sub>) {
    k.pc.Joining? ==>
      k.pc.id == k.pc.sub && k.pc.sub < |subs| && subs[k.pc.sub].until.Some? && !subs[k.pc.sub].joined
  }

  lemma JoinChange(handlers: seq<Handler>, subs: seq<Sub>, h: nat, k: Handler)
    requires JoinInv(handlers, subs) && h < |handlers| && JoinOk(k, subs)
    ensures JoinInv(handlers[h := k], subs)
  {
  }

  /** Mutex hand-overs among handlers do not disturb the delivery counts. */
  lemma DeliveryChange(subs: seq<Sub>, rounds: nat, mutex: Holder, mutex': Holder, tickers: seq<Ticker>,
                       handlers: seq<Handler>, h: nat, k: Handler)
    requires DeliveryInv(subs, rounds, mutex, tickers, handlers) && h < |handlers|
    requires (!mutex.Notifier? && !mutex'.Notifier?) || mutex' == mutex
    requires mutex == Serving(h) ==> !handlers[h].pc.Joining? || (mutex' == mutex && k == handlers[h])
    requires mutex.Serving? && mutex.handler != h ==> mutex' == mutex
    ensures DeliveryInv(subs, rounds, mutex', tickers, handlers[h := k])
  {
  }

  // ----- changing or adding one client thread -----

  lemma TableLockSub(writer: Option<nat>, readers: set<nat>, tickers: seq<Ticker>, subs: seq<Sub>, w: nat, e: Sub)
    requires TableLockInv(writer, readers, tickers, subs) && w < |subs|
    requires e.worker.pc.Reading? && !subs[w].worker.pc.Reading? ==> writer == None
    ensures TableLockInv(writer, if e.worker.pc.Reading? then readers + {w} else readers - {w}, tickers, subs[w := e])
  {
  }

  lemma TableLockSame(writer: Option<nat>, readers: set<nat>, tickers: seq<Ticker>, subs: seq<Sub>, w: nat, e: Sub)
    requires TableLockInv(writer, readers, tickers, subs) && w < |subs| && e.worker.pc == subs[w].worker.pc
    ensures TableLockInv(writer, readers, tickers, subs[w := e])
  {
  }

  lemma TableLockAppend(writer: Option<nat>, readers: set<nat>, tickers: seq<Ticker>, subs: seq<Sub>, e: Sub)
    requires TableLockInv(writer, readers, tickers, subs) && !e.worker.pc.Reading?
    ensures TableLockInv(writer, readers, tickers, subs + [e])
  {
  }

  lemma SnapshotChange(subs: seq<Sub>, history: seq<Table>, table: Table, w: nat, e: Sub)
    requires SnapshotInv(subs, history, table) && w < |subs|
    requires SnapshotOk(subs[w], history, table) ==> SnapshotOk(e, history, table)
    ensures SnapshotInv(subs[w := e], history, table)
  {
    hide SnapshotOk;
  }

  /** Commands queued or flags set on a client thread do not touch what it has delivered. */
  lemma SnapshotSame(subs: seq<Sub>, history: seq<Table>, table: Table, w: nat, e: Sub)
    requires SnapshotInv(subs, history, table) && w < |subs| && e.sentAt == subs[w].sentAt
    requires e.worker == subs[w].worker.(queue := e.worker.queue, open := e.worker.open)
    ensures SnapshotInv(subs[w := e], history, table)
  {
    SnapshotChange(subs, history, table, w, e);
  }

  lemma SnapshotAppend(subs: seq<Sub>, history: seq<Table>, table: Table, e: Sub)
    requires SnapshotInv(subs, history, table) && e.worker.done == [] && e.sentAt == [] && e.worker.pc == Receiving
    ensures SnapshotInv(subs + [e], history, table)
  {
    assert SnapshotOk(e, history, table);
    hide SnapshotOk;
  }

  lemma JoinSub(handlers: seq<Handler>, subs: seq<Sub>, w: nat, e: Sub)
    requires JoinInv(handlers, subs) && w < |subs|
    requires subs[w].until.Some? ==> e.until.Some?
    requires e.joined ==>
               subs[w].joined || forall h: nat | h < |handlers| && handlers[h].pc.Joining? :: handlers[h].pc.sub != w
    ensures JoinInv(handlers, subs[w := e])
  {
  }

  lemma JoinAppend(handlers: seq<Handler>, subs: seq<Sub>, e: Sub)
    requires JoinInv(handlers, subs)
    ensures JoinInv(handlers, subs + [e])
  {
  }

  lemma RegistrySub(count: nat, clients: map<nat, nat>, subs: seq<Sub>, tickers: seq<Ticker>, w: nat, e: Sub)
    requires RegistryInv(count, clients, subs, tickers) && w < |subs| && e.until == subs[w].until
    ensures RegistryInv(count, clients, subs[w := e], tickers)
  {
  }

  lemma CountAt(s: State, w: nat)
    requires DeliveryInv(s.subs, s.rounds, s.mutex, s.tickers, s.handlers) && SubAt(s, w)
    ensures CountOk(s.subs[w], s.rounds, Unsent(s.mutex, s.tickers, w), BeingJoined(s.mutex, s.handlers, w))
  {
  }

  lemma DeliverySub(subs: seq<Sub>, rounds: nat, mutex: Holder, tickers: seq<Ticker>, handlers: seq<Handler>, w: nat,
                    e: Sub)
    requires DeliveryInv(subs, rounds, mutex, tickers, handlers) && w < |subs|
    requires CountOk(e, rounds, Unsent(mutex, tickers, w), BeingJoined(mutex, handlers, w))
    ensures DeliveryInv(subs[w := e], rounds, mutex, tickers, handlers)
  {
    hide CountOk, Unsent, BeingJoined;
  }

  // ----- registry calls -----

  lemma InvLockRegistry(s: State, h: nat)
    requires Inv(s) && HandlerAt(s, h) && CanServe(s, h, LockRegistry)
    ensures Inv(DoLockRegistry(s, h))
  {
    hide SnapshotInv, RegistryInv, TickerInv, TableInv, TableLockInv, SlotLockInv, MutexInv, OwnerInv, JoinInv,
         DeliveryInv;
    var s' := DoLockRegistry(s, h);
    var k := s'.handlers[h];
    OwnerAt(s.orphans, s.clients.Keys, s.handlers, h);
    assert Held(k) == Held(s.handlers[h]);
    OwnerChange(s.orphans, s.clients.Keys, s'.orphans, s'.clients.Keys, s.handlers, h, k);
    MutexChange(s.mutex, s'.mutex, s.tickers, s.handlers, h, k);
    JoinChange(s.handlers, s.subs, h, k);
    DeliveryChange(s.subs, s.rounds, s.mutex, s'.mutex, s.tickers, s.handlers, h, k);
  }

  lemma InvFinishAdd(s: State, h: nat)
    requires Inv(s) && HandlerAt(s, h) && CanServe(s, h, FinishAdd)
    ensures Inv(DoFinishAdd(s, h))
  {
    hide SnapshotInv, RegistryInv, TickerInv, TableInv, TableLockInv, SlotLockInv, MutexInv, OwnerInv, JoinInv,
         DeliveryInv;
    MutexAt(s, h);
    var s' := DoFinishAdd(s, h);
    var k := s'.handlers[h];
    OwnerAt(s.orphans, s.clients.Keys, s.handlers, h);
    OwnerChange(s.orphans, s.clients.Keys, s'.orphans, s'.clients.Keys, s.handlers, h, k);
    MutexChange(s.mutex, s'.mutex, s.tickers, s.handlers, h, k);
    JoinChange(s.handlers, s.subs, h, k);
    DeliveryChange(s.subs, s.rounds, s.mutex, s'.mutex, s.tickers, s.handlers, h, k);
  }

  lemma FreshId(s: State)
    requires RegistryInv(s.count, s.clients, s.subs, s.tickers) && |s.subs| < U64_BOUND
    ensures s.count == |s.subs| && s.count !in s.clients
  {
  }

  lemma RegistryInsert(s: State, e: Sub)
    requires RegistryInv(s.count, s.clients, s.subs, s.tickers) && |s.subs| < U64_BOUND && e.until == None
    ensures RegistryInv((s.count + 1) % U64_BOUND, s.clients[s.count := |s.subs|], s.subs + [e], s.tickers)
  {
  }

  lemma DeliveryInsert(s: State, h: nat)
    requires DeliveryInv(s.subs, s.rounds, s.mutex, s.tickers, s.handlers) && s.mutex == Serving(h)
    requires HandlerAt(s, h) && CanServe(s, h, Insert)
    ensures var s' := DoInsert(s, h); DeliveryInv(s'.subs, s'.rounds, s'.mutex, s'.tickers, s'.handlers)
  {
  }

  lemma InvInsert(s: State, h: nat)
    requires Inv(s) && HandlerAt(s, h) && CanServe(s, h, Insert) && Bounded(DoInsert(s, h))
    ensures Inv(DoInsert(s, h))
  {
    hide SnapshotInv, RegistryInv, TickerInv, TableInv, TableLockInv, SlotLockInv, MutexInv, OwnerInv, JoinInv,
         DeliveryInv;
    FreshId(s);
    MutexAt(s, h);
    var s' := DoInsert(s, h);
    var k, e := s'.handlers[h], s'.subs[|s.subs|];
    OwnerAt(s.orphans, s.clients.Keys, s.handlers, h);
    OwnerChange(s.orphans, s.clients.Keys, s'.orphans, s'.clients.Keys, s.handlers, h, k);
    MutexChange(s.mutex, s'.mutex, s.tickers, s.handlers, h, k);
    JoinChange(s.handlers, s.subs, h, k);
    JoinAppend(s'.handlers, s.subs, e);
    RegistryInsert(s, e);
    TableLockAppend(s.writer, s.readers, s.tickers, s.subs, e);
    SnapshotAppend(s.subs, s.history, s.table, e);
    DeliveryInsert(s, h);
  }

  /** Under the invariant a removal always finds its client, and the client thread is still there. */
  lemma TakeFindsClient(s: State, h: nat)
    requires Inv(s) && HandlerAt(s, h) && CanServe(s, h, Take)
    ensures var id := s.handlers[h].pc.id;
            && id in s.clients && s.clients[id] == id && SubAt(s, id) && s.subs[id].until == None
            && !s.subs[id].worker.pc.Exited? && !s.subs[id].joined && s.mutex == Serving(h)
            && s.handlers[h].clientId == None
  {
    var id := s.handlers[h].pc.id;
    OwnerAt(s.orphans, s.clients.Keys, s.handlers, h);
    assert id in Held(s.handlers[h]);
    CountAt(s, id);
  }

  lemma RegistryTake(s: State, id: nat, e: Sub)
    requires RegistryInv(s.count, s.clients, s.subs, s.tickers) && id in s.clients && id < |s.subs|
    requires MutexInv(s.mutex, s.tickers, s.handlers) && s.mutex.Serving? && e.until.Some?
    ensures RegistryInv(s.count, s.clients - {id}, s.subs[id := e], s.tickers)
  {
  }

  lemma DeliveryTake(s: State, h: nat, id: nat)
    requires DeliveryInv(s.subs, s.rounds, s.mutex, s.tickers, s.handlers) && s.mutex == Serving(h)
    requires HandlerAt(s, h) && s.handlers[h].pc.RemHolding? && SubAt(s, id) && s.subs[id].until == None
    ensures var handlers' := s.handlers[h := s.handlers[h].(pc := Joining(id, id, s.handlers[h].pc.closing))];
            DeliveryInv(s.subs[id := Dismissed(s.subs[id], s.rounds)], s.rounds, s.mutex, s.tickers, handlers')
  {
    CountAt(s, id);
    PendingPush(s.subs[id].worker.queue, Shutdown);
  }

  lemma InvTake(s: State, h: nat)
    requires Inv(s) && HandlerAt(s, h) && CanServe(s, h, Take)
    ensures Inv(DoTake(s, h))
  {
    hide SnapshotInv, RegistryInv, TickerInv, TableInv, TableLockInv, SlotLockInv, MutexInv, OwnerInv, JoinInv,
         DeliveryInv;
    TakeFindsClient(s, h);
    var s' := DoTake(s, h);
    var id, k := s.handlers[h].pc.id, s'.handlers[h];
    var e := s'.subs[id];
    OwnerAt(s.orphans, s.clients.Keys, s.handlers, h);
    OwnerChange(s.orphans, s.clients.Keys, s'.orphans, s'.clients.Keys, s.handlers, h, k);
    MutexChange(s.mutex, s'.mutex, s.tickers, s.handlers, h, k);
    JoinSub(s.handlers, s.subs, id, e);
    JoinChange(s.handlers, s'.subs, h, k);
    RegistryTake(s, id, e);
    TableLockSame(s.writer, s.readers, s.tickers, s.subs, id, e);
    SnapshotSame(s.subs, s.history, s.table, id, e);
    DeliveryTake(s, h, id);
  }

  lemma DeliveryFinishRemove(s: State, h: nat)
    requires DeliveryInv(s.subs, s.rounds, s.mutex, s.tickers, s.handlers) && s.mutex == Serving(h)
    requires HandlerAt(s, h) && CanServe(s, h, FinishRemove) && s.subs[s.handlers[h].pc.sub].until.Some?
    ensures var s' := DoFinishRemove(s, h); DeliveryInv(s'.subs, s'.rounds, s'.mutex, s'.tickers, s'.handlers)
  {
  }

  lemma InvFinishRemove(s: State, h: nat)
    requires Inv(s) && HandlerAt(s, h) && CanServe(s, h, FinishRemove)
    ensures Inv(DoFinishRemove(s, h))
  {
    hide SnapshotInv, RegistryInv, TickerInv, TableInv, TableLockInv, SlotLockInv, MutexInv, OwnerInv, JoinInv,
         DeliveryInv;
    JoinAt(s, h);
    MutexAt(s, h);
    var s' := DoFinishRemove(s, h);
    var w, k := s.handlers[h].pc.sub, s'.handlers[h];
    var e := s'.subs[w];
    OwnerAt(s.orphans, s.clients.Keys, s.handlers, h);
    OwnerChange(s.orphans, s.clients.Keys, s'.orphans, s'.clients.Keys, s.handlers, h, k);
    MutexChange(s.mutex, s'.mutex, s.tickers, s.handlers, h, k);
    JoinChange(s.handlers, s.subs, h, k);
    NoneHolds(s.tickers, s'.handlers);
    JoinSub(s'.handlers, s.subs, w, e);
    RegistrySub(s.count, s.clients, s.subs, s.tickers, w, e);
    TableLockSame(s.writer, s.readers, s.tickers, s.subs, w, e);
    SnapshotSame(s.subs, s.history, s.table, w, e);
    DeliveryFinishRemove(s, h);
  }

  // ----- changing one ticker -----

  lemma TableLockTicker(writer: Option<nat>, writer': Option<nat>, readers: set<nat>, tickers: seq<Ticker>,
                        subs: seq<Sub>,
                        t: nat, k: Ticker)
    requires TableLockInv(writer, readers, tickers, subs) && t < |tickers|
    requires if tickers[t].pc.Writing? then writer' == (if k.pc.Writing? then writer else None)
             else if k.pc.Writing? then writer == None && readers == {} && writer' == Some(t)
             else writer' == writer
    ensures TableLockInv(writer', readers, tickers[t := k], subs)
  {
  }

  lemma MutexTicker(mutex: Holder, mutex': Holder, tickers: seq<Ticker>, handlers: seq<Handler>, t: nat, k: Ticker)
    requires MutexInv(mutex, tickers, handlers) && t < |tickers|
    requires if tickers[t].pc.Notifying? then mutex' == (if k.pc.Notifying? then mutex else Free)
             else if k.pc.Notifying? then mutex == Free && mutex' == Notifier(t)
             else mutex' == mutex
    ensures MutexInv(mutex', tickers[t := k], handlers)
  {
  }

  lemma TableTicker(table: Table, history: seq<Table>, writer: Option<nat>, tickers: seq<Ticker>, t: nat, k: Ticker)
    requires TableInv(table, history, writer, tickers) && t < |tickers|
    requires k.pc.Writing? ==> k.pc.todo <= table.Keys
    ensures TableInv(table, history, writer, tickers[t := k])
  {
  }

  lemma TickerChange(flag: bool, slot: Option<nat>, tickers: seq<Ticker>, callers: seq<CallerPc>, t: nat, k: Ticker)
    requires TickerInv(flag, slot, tickers, callers) && t < |tickers| && TickerOk(flag, t, k)
    requires !tickers[t].pc.Stopped?
    ensures TickerInv(flag, slot, tickers[t := k], callers)
  {
  }

  lemma TickerAtOk(s: State, t: nat)
    requires TickerInv(s.flag, s.slot, s.tickers, s.callers) && TickerAt(s, t)
    ensures TickerOk(s.flag, t, s.tickers[t])
    ensures t >= 1 ==> s.flag
  {
  }

  lemma RegistryTicker(count: nat, clients: map<nat, nat>, subs: seq<Sub>, tickers: seq<Ticker>, t: nat, k: Ticker)
    requires RegistryInv(count, clients, subs, tickers) && t < |tickers|
    requires k.pc.Notifying? ==> k.pc.pending <= clients.Keys
    ensures RegistryInv(count, clients, subs, tickers[t := k])
  {
  }

  lemma DeliveryTicker(subs: seq<Sub>, rounds: nat, mutex: Holder, tickers: seq<Ticker>, handlers: seq<Handler>,
                       t: nat, k: Ticker)
    requires DeliveryInv(subs, rounds, mutex, tickers, handlers) && t < |tickers|
    requires mutex != Notifier(t)
    ensures DeliveryInv(subs, rounds, mutex, tickers[t := k], handlers)
  {
    hide CountOk;
    forall w: nat | w < |subs|
      ensures CountOk(subs[w], rounds, Unsent(mutex, tickers[t := k], w), BeingJoined(mutex, handlers, w))
    {
      assert Unsent(mutex, tickers[t := k], w) == Unsent(mutex, tickers, w);
    }
  }

  lemma NotNotifier(s: State, t: nat)
    requires MutexInv(s.mutex, s.tickers, s.handlers) && TickerAt(s, t)
    ensures s.tickers[t].pc.Notifying? <==> s.mutex == Notifier(t)
  {
  }

  // ----- ticks -----

  /** A tick action outside both critical sections. */
  lemma InvQuietTick(s: State, t: nat, k: Ticker)
    requires Inv(s) && TickerAt(s, t) && TickerOk(s.flag, t, k) && !s.tickers[t].pc.Stopped?
    requires !s.tickers[t].pc.Writing? && !s.tickers[t].pc.Notifying? && !k.pc.Writing? && !k.pc.Notifying?
    ensures Inv(SetTicker(s, t, k))
  {
    hide SnapshotInv, RegistryInv, TickerInv, TableInv, TableLockInv, SlotLockInv, MutexInv, OwnerInv, JoinInv,
         DeliveryInv;
    TableLockTicker(s.writer, s.writer, s.readers, s.tickers, s.subs, t, k);
    MutexTicker(s.mutex, s.mutex, s.tickers, s.handlers, t, k);
    TableTicker(s.table, s.history, s.writer, s.tickers, t, k);
    TickerChange(s.flag, s.slot, s.tickers, s.callers, t, k);
    RegistryTicker(s.count, s.clients, s.subs, s.tickers, t, k);
    NotNotifier(s, t);
    DeliveryTicker(s.subs, s.rounds, s.mutex, s.tickers, s.handlers, t, k);
  }

  lemma InvLockTable(s: State, t: nat)
    requires Inv(s) && TickerAt(s, t) && CanTick(s, t, LockTable)
    ensures Inv(DoTick(s, t, LockTable))
  {
    hide SnapshotInv, RegistryInv, TickerInv, TableInv, TableLockInv, SlotLockInv, MutexInv, OwnerInv, JoinInv,
         DeliveryInv;
    var s' := DoTick(s, t, LockTable);
    var k := s'.tickers[t];
    TickerAtOk(s, t);
    TableLockTicker(s.writer, s'.writer, s.readers, s.tickers, s.subs, t, k);
    MutexTicker(s.mutex, s'.mutex, s.tickers, s.handlers, t, k);
    TableTicker(s.table, s.history, s.writer, s.tickers, t, k);
    TableWriter(s.table, s.history, s'.writer, s'.tickers);
    TickerChange(s.flag, s.slot, s.tickers, s.callers, t, k);
    RegistryTicker(s.count, s.clients, s.subs, s.tickers, t, k);
    NotNotifier(s, t);
    DeliveryTicker(s.subs, s.rounds, s.mutex, s.tickers, s.handlers, t, k);
  }

  lemma TableWriter(table: Table, history: seq<Table>, writer: Option<nat>, tickers: seq<Ticker>)
    requires TableInv(table, history, None, tickers)
    ensures TableInv(table, history, writer, tickers)
  {
  }

  lemma WriterIs(s: State, t: nat)
    requires TableLockInv(s.writer, s.readers, s.tickers, s.subs) && TickerAt(s, t) && s.tickers[t].pc.Writing?
    ensures s.writer == Some(t)
    ensures forall w: nat | w < |s.subs| :: !s.subs[w].worker.pc.Reading?
  {
  }

  lemma TableWrite(table: Table, history: seq<Table>, writer: Option<nat>, tickers: seq<Ticker>, key: string,
                   draw: Sample)
    requires TableInv(table, history, writer, tickers) && writer.Some? && key in table
    ensures TableInv(table[key := Refresh(table[key], draw)], history, writer, tickers)
  {
    RefreshKeepsOk(key, table[key], draw);
    assert table[key := Refresh(table[key], draw)].Keys == table.Keys;
  }

  lemma SnapshotWrite(subs: seq<Sub>, history: seq<Table>, table: Table, table': Table)
    requires SnapshotInv(subs, history, table)
    requires forall w: nat | w < |subs| :: !subs[w].worker.pc.Reading?
    ensures SnapshotInv(subs, history, table')
  {
    hide BatchOk;
  }

  lemma InvWriteOne(s: State, t: nat, key: string, draw: Sample)
    requires Inv(s) && TickerAt(s, t) && CanTick(s, t, WriteOne(key, draw))
    ensures Inv(DoTick(s, t, WriteOne(key, draw)))
  {
    hide SnapshotInv, RegistryInv, TickerInv, TableInv, TableLockInv, SlotLockInv, MutexInv, OwnerInv, JoinInv,
         DeliveryInv;
    var s' := DoTick(s, t, WriteOne(key, draw));
    var k := s'.tickers[t];
    TickerAtOk(s, t);
    WriterIs(s, t);
    TableLockTicker(s.writer, s'.writer, s.readers, s.tickers, s.subs, t, k);
    MutexTicker(s.mutex, s'.mutex, s.tickers, s.handlers, t, k);
    TodoAt(s, t);
    TableTicker(s.table, s.history, s.writer, s.tickers, t, k);
    TableWrite(s.table, s.history, s.writer, s'.tickers, key, draw);
    TickerChange(s.flag, s.slot, s.tickers, s.callers, t, k);
    RegistryTicker(s.count, s.clients, s.subs, s.tickers, t, k);
    NotNotifier(s, t);
    DeliveryTicker(s.subs, s.rounds, s.mutex, s.tickers, s.handlers, t, k);
    SnapshotWrite(s.subs, s.history, s.table, s'.table);
  }

  lemma TodoAt(s: State, t: nat)
    requires TableInv(s.table, s.history, s.writer, s.tickers) && TickerAt(s, t) && s.tickers[t].pc.Writing?
    ensures s.tickers[t].pc.todo <= s.table.Keys
  {
  }

  lemma TablePublish(table: Table, history: seq<Table>, writer: Option<nat>, tickers: seq<Ticker>)
    requires TableInv(table, history, writer, tickers)
    ensures TableInv(table, history + [table], None, tickers)
  {
  }

  lemma SnapshotPublish(subs: seq<Sub>, history: seq<Table>, table: Table)
    requires SnapshotInv(subs, history, table)
    requires forall w: nat | w < |subs| :: !subs[w].worker.pc.Reading?
    ensures SnapshotInv(subs, history + [table], table)
  {
    forall w: nat | w < |subs| ensures SnapshotOk(subs[w], history + [table], table) {
      assert SnapshotOk(subs[w], history, table);
    }
  }

  lemma InvUnlockTable(s: State, t: nat)
    requires Inv(s) && TickerAt(s, t) && CanTick(s, t, UnlockTable)
    ensures Inv(DoTick(s, t, UnlockTable))
  {
    hide SnapshotInv, RegistryInv, TickerInv, TableInv, TableLockInv, SlotLockInv, MutexInv, OwnerInv, JoinInv,
         DeliveryInv;
    var s' := DoTick(s, t, UnlockTable);
    var k := s'.tickers[t];
    TickerAtOk(s, t);
    WriterIs(s, t);
    TableLockTicker(s.writer, s'.writer, s.readers, s.tickers, s.subs, t, k);
    MutexTicker(s.mutex, s'.mutex, s.tickers, s.handlers, t, k);
    TableTicker(s.table, s.history, s.writer, s.tickers, t, k);
    TablePublish(s.table, s.history, s.writer, s'.tickers);
    TickerChange(s.flag, s.slot, s.tickers, s.callers, t, k);
    RegistryTicker(s.count, s.clients, s.subs, s.tickers, t, k);
    NotNotifier(s, t);
    DeliveryTicker(s.subs, s.rounds, s.mutex, s.tickers, s.handlers, t, k);
    SnapshotPublish(s.subs, s.history, s.table);
  }

  lemma DeliveryRound(s: State, t: nat)
    requires DeliveryInv(s.subs, s.rounds, s.mutex, s.tickers, s.handlers)
    requires RegistryInv(s.count, s.clients, s.subs, s.tickers)
    requires TickerAt(s, t) && CanTick(s, t, LockClients)
    ensures var s' := DoTick(s, t, LockClients); DeliveryInv(s'.subs, s'.rounds, s'.mutex, s'.tickers, s'.handlers)
  {
  }

  lemma InvLockClients(s: State, t: nat)
    requires Inv(s) && TickerAt(s, t) && CanTick(s, t, LockClients)
    ensures Inv(DoTick(s, t, LockClients))
  {
    hide SnapshotInv, RegistryInv, TickerInv, TableInv, TableLockInv, SlotLockInv, MutexInv, OwnerInv, JoinInv,
         DeliveryInv;
    var s' := DoTick(s, t, LockClients);
    var k := s'.tickers[t];
    TickerAtOk(s, t);
    TableLockTicker(s.writer, s'.writer, s.readers, s.tickers, s.subs, t, k);
    MutexTicker(s.mutex, s'.mutex, s.tickers, s.handlers, t, k);
    TableTicker(s.table, s.history, s.writer, s.tickers, t, k);
    TickerChange(s.flag, s.slot, s.tickers, s.callers, t, k);
    RegistryTicker(s.count, s.clients, s.subs, s.tickers, t, k);
    DeliveryRound(s, t);
  }

  lemma DeliveryRoundEnd(s: State, t: nat)
    requires DeliveryInv(s.subs, s.rounds, s.mutex, s.tickers, s.handlers) && s.mutex == Notifier(t)
    requires TickerAt(s, t) && CanTick(s, t, UnlockClients)
    ensures var s' := DoTick(s, t, UnlockClients); DeliveryInv(s'.subs, s'.rounds, s'.mutex, s'.tickers, s'.handlers)
  {
  }

  lemma InvUnlockClients(s: State, t: nat)
    requires Inv(s) && TickerAt(s, t) && CanTick(s, t, UnlockClients)
    ensures Inv(DoTick(s, t, UnlockClients))
  {
    hide SnapshotInv, RegistryInv, TickerInv, TableInv, TableLockInv, SlotLockInv, MutexInv, OwnerInv, JoinInv,
         DeliveryInv;
    var s' := DoTick(s, t, UnlockClients);
    var k := s'.tickers[t];
    TickerAtOk(s, t);
    NotNotifier(s, t);
    TableLockTicker(s.writer, s'.writer, s.readers, s.tickers, s.subs, t, k);
    MutexTicker(s.mutex, s'.mutex, s.tickers, s.handlers, t, k);
    TableTicker(s.table, s.history, s.writer, s.tickers, t, k);
    TickerChange(s.flag, s.slot, s.tickers, s.callers, t, k);
    RegistryTicker(s.count, s.clients, s.subs, s.tickers, t, k);
    DeliveryRoundEnd(s, t);
  }

  /** Under the invariant a notification always reaches a live client thread. */
  lemma SendFindsClient(s: State, t: nat, id: nat)
    requires Inv(s) && TickerAt(s, t) && CanTick(s, t, SendUpdate(id))
    ensures s.clients[id] == id && s.subs[id].until == None && !s.subs[id].worker.pc.Exited?
    ensures Shutdown !in s.subs[id].worker.queue && s.mutex == Notifier(t)
  {
    CountAt(s, s.clients[id]);
  }

  lemma DeliverySend(s: State, t: nat, id: nat)
    requires DeliveryInv(s.subs, s.rounds, s.mutex, s.tickers, s.handlers) && s.mutex == Notifier(t)
    requires TickerAt(s, t) && CanTick(s, t, SendUpdate(id)) && s.clients[id] == id && s.subs[id].until == None
    requires |s.history| > 0
    ensures var s' := DoTick(s, t, SendUpdate(id)); DeliveryInv(s'.subs, s'.rounds, s'.mutex, s'.tickers, s'.handlers)
  {
    CountAt(s, id);
    PendingPush(s.subs[id].worker.queue, Update);
  }

  lemma SnapshotSend(e: Sub, history: seq<Table>, table: Table)
    requires SnapshotOk(e, history, table) && |history| > 0
    ensures SnapshotOk(Notified(e, |history| - 1), history, table)
  {
    hide BatchOk;
  }

  lemma HistoryStarted(s: State)
    requires TableInv(s.table, s.history, s.writer, s.tickers)
    ensures |s.history| > 0
  {
  }

  lemma PendingAt(s: State, t: nat)
    requires RegistryInv(s.count, s.clients, s.subs, s.tickers) && TickerAt(s, t) && s.tickers[t].pc.Notifying?
    ensures s.tickers[t].pc.pending <= s.clients.Keys
  {
  }

  lemma InvSendUpdate(s: State, t: nat, id: nat)
    requires Inv(s) && TickerAt(s, t) && CanTick(s, t, SendUpdate(id))
    ensures Inv(DoTick(s, t, SendUpdate(id)))
  {
    hide SnapshotInv, RegistryInv, TickerInv, TableInv, TableLockInv, SlotLockInv, MutexInv, OwnerInv, JoinInv,
         DeliveryInv;
    hide SnapshotOk;
    SendFindsClient(s, t, id);
    HistoryStarted(s);
    PendingAt(s, t);
    var s' := DoTick(s, t, SendUpdate(id));
    var k, e := s'.tickers[t], s'.subs[id];
    TickerAtOk(s, t);
    TableLockTicker(s.writer, s'.writer, s.readers, s.tickers, s.subs, t, k);
    TableLockSame(s.writer, s.readers, s'.tickers, s.subs, id, e);
    MutexTicker(s.mutex, s'.mutex, s.tickers, s.handlers, t, k);
    TableTicker(s.table, s.history, s.writer, s.tickers, t, k);
    TickerChange(s.flag, s.slot, s.tickers, s.callers, t, k);
    RegistryTicker(s.count, s.clients, s.subs, s.tickers, t, k);
    RegistrySub(s.count, s.clients, s.subs, s'.tickers, id, e);
    JoinSub(s.handlers, s.subs, id, e);
    if SnapshotOk(s.subs[id], s.history, s.table) {
      SnapshotSend(s.subs[id], s.history, s.table);
    }
    SnapshotChange(s.subs, s.history, s.table, id, e);
    DeliverySend(s, t, id);
  }

  lemma InvTick(s: State, t: nat, tick: Tick)
    requires Inv(s) && TickerAt(s, t) && CanTick(s, t, tick)
    ensures Inv(DoTick(s, t, tick))
  {
    TickerAtOk(s, t);
    hide Inv;
    match tick
    case LockTable => InvLockTable(s, t);
    case WriteOne(key, draw) => InvWriteOne(s, t, key, draw);
    case UnlockTable => InvUnlockTable(s, t);
    case LockClients => InvLockClients(s, t);
    case SendUpdate(id) => InvSendUpdate(s, t, id);
    case UnlockClients => InvUnlockClients(s, t);
    case _ => InvQuietTick(s, t, DoTick(s, t, tick).tickers[t]);
  }

  // ----- start and shutdown calls -----

  lemma SlotLockCall(s: State, c: nat, call: Call)
    requires SlotLockInv(s.slotLock, s.callers) && CallerAt(s, c) && CanCall(s, c, call)
    ensures var s' := DoCall(s, c, call); SlotLockInv(s'.slotLock, s'.callers)
  {
  }

  lemma TickerCall(s: State, c: nat, call: Call)
    requires TickerInv(s.flag, s.slot, s.tickers, s.callers) && CallerAt(s, c) && CanCall(s, c, call)
    ensures var s' := DoCall(s, c, call); TickerInv(s'.flag, s'.slot, s'.tickers, s'.callers)
  {
  }

  /** A thread that has just been spawned holds nothing. */
  lemma SpawnChange(s: State, tickers': seq<Ticker>)
    requires Inv(s) && tickers' == s.tickers + [Ticker(Checking, 0, 0)]
    ensures TableLockInv(s.writer, s.readers, tickers', s.subs) && MutexInv(s.mutex, tickers', s.handlers)
    ensures TableInv(s.table, s.history, s.writer, tickers') && RegistryInv(s.count, s.clients, s.subs, tickers')
  {
    hide SlotLockInv, TickerInv, OwnerInv, JoinInv, DeliveryInv, SnapshotInv;
  }

  lemma SpawnDelivery(s: State, tickers': seq<Ticker>)
    requires MutexInv(s.mutex, s.tickers, s.handlers) && DeliveryInv(s.subs, s.rounds, s.mutex, s.tickers, s.handlers)
    requires tickers' == s.tickers + [Ticker(Checking, 0, 0)]
    ensures DeliveryInv(s.subs, s.rounds, s.mutex, tickers', s.handlers)
  {
    hide CountOk;
    forall w: nat | w < |s.subs|
      ensures CountOk(s.subs[w], s.rounds, Unsent(s.mutex, tickers', w), BeingJoined(s.mutex, s.handlers, w))
    {
      assert Unsent(s.mutex, tickers', w) == Unsent(s.mutex, s.tickers, w);
    }
  }

  lemma InvCall(s: State, c: nat, call: Call)
    requires Inv(s) && CallerAt(s, c) && CanCall(s, c, call)
    ensures Inv(DoCall(s, c, call))
  {
    hide SnapshotInv, RegistryInv, TickerInv, TableInv, TableLockInv, SlotLockInv, MutexInv, OwnerInv, JoinInv,
         DeliveryInv;
    SlotLockCall(s, c, call);
    TickerCall(s, c, call);
    if call.SpawnTicker? && s.slot == None {
      SpawnChange(s, DoCall(s, c, call).tickers);
      SpawnDelivery(s, DoCall(s, c, call).tickers);
    }
  }

  // ----- connections -----

  lemma InvDeliver(s: State, h: nat, input: Input)
    requires Inv(s) && HandlerAt(s, h) && CanDeliver(s, h, input)
    ensures Inv(DoDeliver(s, h, input))
  {
    hide SnapshotInv, RegistryInv, TickerInv, TableInv, TableLockInv, SlotLockInv, MutexInv, OwnerInv, JoinInv,
         DeliveryInv;
    var s' := DoDeliver(s, h, input);
    var k := s'.handlers[h];
    OwnerAt(s.orphans, s.clients.Keys, s.handlers, h);
    OwnerChange(s.orphans, s.clients.Keys, s'.orphans, s'.clients.Keys, s.handlers, h, k);
    MutexChange(s.mutex, s'.mutex, s.tickers, s.handlers, h, k);
    JoinChange(s.handlers, s.subs, h, k);
    DeliveryChange(s.subs, s.rounds, s.mutex, s'.mutex, s.tickers, s.handlers, h, k);
  }

  lemma OwnerConnect(orphans: set<nat>, ids: set<nat>, handlers: seq<Handler>)
    requires OwnerInv(orphans, ids, handlers)
    ensures OwnerInv(orphans, ids, handlers + [Handler(None, Idle)])
  {
    var after := handlers + [Handler(None, Idle)];
    forall id | id in ids && id !in orphans
      ensures HeldBySome(id, after)
    {
      assert HeldBySome(id, handlers);
      var g: nat :| g < |handlers| && id in Held(handlers[g]);
      assert id in Held(after[g]);
    }
  }

  lemma ConnectChange(s: State, handlers': seq<Handler>)
    requires MutexInv(s.mutex, s.tickers, s.handlers) && JoinInv(s.handlers, s.subs)
    requires DeliveryInv(s.subs, s.rounds, s.mutex, s.tickers, s.handlers)
    requires handlers' == s.handlers + [Handler(None, Idle)]
    ensures MutexInv(s.mutex, s.tickers, handlers') && JoinInv(handlers', s.subs)
    ensures DeliveryInv(s.subs, s.rounds, s.mutex, s.tickers, handlers')
  {
  }

  lemma CallerArrives(s: State, pc: CallerPc)
    requires SlotLockInv(s.slotLock, s.callers) && TickerInv(s.flag, s.slot, s.tickers, s.callers)
    requires pc == StartWaiting || pc == Storing
    ensures SlotLockInv(s.slotLock, s.callers + [pc]) && TickerInv(s.flag, s.slot, s.tickers, s.callers + [pc])
  {
  }

  lemma InvArrive(s: State, arrival: Arrival)
    requires Inv(s)
    ensures Inv(DoArrive(s, arrival))
  {
    hide SnapshotInv, RegistryInv, TickerInv, TableInv, TableLockInv, SlotLockInv, MutexInv, OwnerInv, JoinInv,
         DeliveryInv;
    if arrival.Connect? {
      OwnerConnect(s.orphans, s.clients.Keys, s.handlers);
      ConnectChange(s, s.handlers + [Handler(None, Idle)]);
    } else {
      CallerArrives(s, if arrival.CallStart? then StartWaiting else Storing);
    }
  }

  // ----- client threads -----

  lemma ReaderSees(s: State, w: nat)
    requires TableLockInv(s.writer, s.readers, s.tickers, s.subs) && TableInv(s.table, s.history, s.writer, s.tickers)
    requires SubAt(s, w) && s.subs[w].worker.pc.Reading?
    ensures s.writer == None && s.table == s.history[|s.history| - 1]
  {
  }

  lemma SnapshotAdvance(e: Sub, history: seq<Table>, table: Table)
    requires SnapshotOk(e, history, table) && |history| > 0 && Runnable(e.worker)
    requires e.worker.pc.Reading? ==> table == history[|history| - 1] && |e.worker.done| < |e.sentAt|
    ensures SnapshotOk(e.(worker := Act(e.worker, View(table, |history| - 1))), history, table)
  {
    var w := e.worker;
    if w.pc.Reading? {
      var next := w.pc.next;
      if next < |w.tickers| {
        WantedNext(w.tickers, next, table);
      } else {
        assert w.tickers[..next] == w.tickers;
      }
    }
  }

  lemma CountAdvance(e: Sub, rounds: nat, unsent: nat, beingJoined: bool, view: View)
    requires CountOk(e, rounds, unsent, beingJoined) && Runnable(e.worker)
    ensures CountOk(e.(worker := Act(e.worker, view)), rounds, unsent, beingJoined)
  {
    StepAccounting(e.worker, view);
  }

  lemma InvAdvance(s: State, w: nat)
    requires Inv(s) && SubAt(s, w) && CanAdvance(s, w)
    ensures Inv(DoAdvance(s, w))
  {
    hide SnapshotInv, RegistryInv, TickerInv, TableInv, TableLockInv, SlotLockInv, MutexInv, OwnerInv, JoinInv,
         DeliveryInv;
    hide SnapshotOk;
    var e := s.subs[w];
    var e' := DoAdvance(s, w).subs[w];
    TableLockSub(s.writer, s.readers, s.tickers, s.subs, w, e');
    RegistrySub(s.count, s.clients, s.subs, s.tickers, w, e');
    JoinSub(s.handlers, s.subs, w, e');
    CountAt(s, w);
    CountAdvance(e, s.rounds, Unsent(s.mutex, s.tickers, w), BeingJoined(s.mutex, s.handlers, w), CurrentView(s));
    DeliverySub(s.subs, s.rounds, s.mutex, s.tickers, s.handlers, w, e');
    if SnapshotOk(e, s.history, s.table) {
      if e.worker.pc.Reading? {
        ReaderSees(s, w);
      }
      SnapshotAdvance(e, s.history, s.table);
    }
    SnapshotChange(s.subs, s.history, s.table, w, e');
  }

  // ----- every step and every run -----

  lemma InvServe(s: State, h: nat, serve: Serve)
    requires Inv(s) && HandlerAt(s, h) && CanServe(s, h, serve) && Bounded(DoServe(s, h, serve))
    ensures Inv(DoServe(s, h, serve))
  {
    hide Inv;
    match serve
    case LockRegistry => InvLockRegistry(s, h);
    case Insert => InvInsert(s, h);
    case FinishAdd => InvFinishAdd(s, h);
    case Take => InvTake(s, h);
    case FinishRemove => InvFinishRemove(s, h);
  }

  /** Every step of every thread keeps the invariant. */
  lemma InvStep(s: State, step: Step)
    requires Inv(s) && Enabled(s, step) && Bounded(Apply(s, step))
    ensures Inv(Apply(s, step))
  {
    hide Inv;
    match step
    case Arrive(arrival) => InvArrive(s, arrival);
    case Deliver(h, input) => InvDeliver(s, h, input);
    case Ticking(t, tick) => InvTick(s, t, tick);
    case Calling(c, call) => InvCall(s, c, call);
    case Handling(h, serve) => InvServe(s, h, serve);
    case Advance(w) => InvAdvance(s, w);
  }

  lemma InvInit(table: Table)
    requires TableOk(table)
    ensures Inv(Init(table))
  {
  }

  lemma ServeGrowsSubs(s: State, h: nat, serve: Serve)
    requires HandlerAt(s, h) && CanServe(s, h, serve)
    ensures |s.subs| <= |DoServe(s, h, serve).subs|
  {
  }

  lemma TickKeepsSubs(s: State, t: nat, tick: Tick)
    requires TickerAt(s, t) && CanTick(s, t, tick)
    ensures |s.subs| == |DoTick(s, t, tick).subs|
  {
  }

  lemma SubsGrow(s: State, step: Step)
    requires Enabled(s, step)
    ensures |s.subs| <= |Apply(s, step).subs|
  {
    match step
    case Ticking(t, tick) => TickKeepsSubs(s, t, tick);
    case Handling(h, serve) => ServeGrowsSubs(s, h, serve);
    case _ =>
  }

  /** The invariant holds in every state any schedule reaches. */
  lemma {:induction false} InvRun(s: State, steps: seq<Step>, s': State)
    requires Inv(s) && Run(s, steps) == Some(s') && Bounded(s')
    ensures Inv(s')
  {
    hide Inv;
    if steps != [] {
      var n := |steps| - 1;
      var before := Run(s, steps[..n]).value;
      SubsGrow(before, steps[n]);
      InvRun(s, steps[..n], before);
      InvStep(before, steps[n]);
    }
  }
}
