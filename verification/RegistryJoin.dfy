/** The join inside `remove_client` ends, flag or no flag: while a handler joins a client thread it holds the
    clients mutex, so every ticker can at most finish one update before it has to wait. */
module RegistryJoin {
  import opened Defs
  import opened Workers
  import opened Registry
  import opened RegistryInvariants
  import opened RegistryRuns
  import opened RegistryLiveness
  import opened RegistryDrain

  /** Handler `h` has sent Shutdown and waits for the client thread. */
  ghost predicate Joins(s: State, h: nat) {
    Inv(s) && Bounded(s) && HandlerAt(s, h) && s.handlers[h].pc.Joining?
  }

  /** How far a ticker is from having to wait for the clients mutex. */
  function TickerDistance(k: Ticker): nat {
    match k.pc
    case Checking => 6
    case Sleeping => 5
    case Trying(_) => 4
    case Writing(_, _) => 3
    case WantsClients => 2
    case Notifying(_) => 1
    case Stopped => 0
  }

  function JoinWork(s: State): Measure {
    Measure(Sum(s.callers, CallerWork), Sum(s.tickers, TickerDistance), Sum(s.tickers, LoopWork),
            Sum(s.handlers, HandlerWork), Sum(s.subs, SubWork))
  }

  /** No other thread is inside a critical section of the registry. */
  lemma JoinExcludes(s: State, h: nat)
    requires Joins(s, h)
    ensures s.mutex == Serving(h)
    ensures forall g: nat | HandlerAt(s, g) && g != h :: !HoldsMutex(s.handlers[g].pc)
    ensures forall t: nat | TickerAt(s, t) :: !s.tickers[t].pc.Notifying?
    ensures SubAt(s, s.handlers[h].pc.sub) && s.subs[s.handlers[h].pc.sub].until.Some?
  {
    hide OwnerInv, DeliveryInv, SnapshotInv, TableInv, TickerInv, RegistryInv, TableLockInv, SlotLockInv;
    JoinAt(s, h);
  }

  /** Hence of all handlers only `h` itself can go on, by ending the join. */
  lemma OnlyJoinerServes(s: State, h: nat, g: nat, serve: Serve)
    requires Joins(s, h) && HandlerAt(s, g) && CanServe(s, g, serve)
    ensures g == h && serve == FinishRemove
  {
    hide Inv;
    JoinExcludes(s, h);
  }

  /** Until then the handler stays where it is, and no client is added. */
  lemma JoinPersists(s: State, h: nat, step: Step)
    requires Joins(s, h) && Enabled(s, step) && step != Handling(h, FinishRemove)
    ensures Joins(Apply(s, step), h) && Apply(s, step).handlers[h] == s.handlers[h]
  {
    hide Inv, CanTick, DoTick, CanServe, CanCall, DoCall, CanAdvance, Act;
    match step {
      case Handling(g, serve) => OnlyJoinerServes(s, h, g, serve);
      case Ticking(t, tick) => TickKeepsServed(s, t, tick);
      case Calling(c, call) => CallKeepsServed(s, c, call);
      case Deliver(g, input) =>
      case Arrive(arrival) =>
      case Advance(w) =>
    }
    InvStep(s, step);
  }

  lemma TickKeepsServed(s: State, t: nat, tick: Tick)
    requires TickerAt(s, t) && CanTick(s, t, tick)
    ensures DoTick(s, t, tick).handlers == s.handlers && |DoTick(s, t, tick).subs| == |s.subs|
  {
  }

  lemma CallKeepsServed(s: State, c: nat, call: Call)
    requires CallerAt(s, c) && CanCall(s, c, call)
    ensures DoCall(s, c, call).handlers == s.handlers && DoCall(s, c, call).subs == s.subs
  {
  }

  lemma TickNears(s: State, h: nat, t: nat, tick: Tick)
    requires Joins(s, h) && TickerAt(s, t) && CanTick(s, t, tick)
    ensures Less(JoinWork(DoTick(s, t, tick)), JoinWork(s))
  {
    hide Sum, Inv;
    JoinExcludes(s, h);
    var k := DoTick(s, t, tick).tickers[t];
    SumChange(s.tickers, t, k, TickerDistance);
    SumChange(s.tickers, t, k, LoopWork);
  }

  lemma CallNears(s: State, c: nat, call: Call)
    requires CallerAt(s, c) && CanCall(s, c, call)
    ensures Less(JoinWork(DoCall(s, c, call)), JoinWork(s))
  {
    hide Sum;
    SumChange(s.callers, c, DoCall(s, c, call).callers[c], CallerWork);
  }

  lemma AdvanceNears(s: State, w: nat)
    requires Inv(s) && SubAt(s, w) && CanAdvance(s, w)
    ensures Less(JoinWork(DoAdvance(s, w)), JoinWork(s))
  {
    hide Sum, Inv;
    JoinedHasExited(s, w);
    StepAccounting(s.subs[w].worker, CurrentView(s));
    SumChange(s.subs, w, DoAdvance(s, w).subs[w], SubWork);
  }

  /** Every step of the server's own threads but the end of the join leaves less to wait for. */
  lemma JoinNears(s: State, h: nat, step: Step)
    requires Joins(s, h) && Enabled(s, step) && Internal(step) && step != Handling(h, FinishRemove)
    ensures Less(JoinWork(Apply(s, step)), JoinWork(s))
  {
    hide Inv, Sum, JoinWork, Less, CanTick, DoTick, CanServe, CanCall, DoCall, CanAdvance, Act;
    match step {
      case Handling(g, serve) => OnlyJoinerServes(s, h, g, serve);
      case Ticking(t, tick) => TickNears(s, h, t, tick);
      case Calling(c, call) => CallNears(s, c, call);
      case Advance(w) => AdvanceNears(s, w);
    }
  }

  ghost predicate ScheduleStep(s: State, step: Step, s': State) {
    Enabled(s, step) && s' == Apply(s, step)
  }

  lemma {:induction false} JoinLasts(states: nat -> State, steps: nat -> Step, h: nat, i: nat)
    requires Joins(states(0), h)
    requires forall j: nat :: ScheduleStep(states(j), steps(j), states(j + 1)) && steps(j) != Handling(h, FinishRemove)
    ensures Joins(states(i), h)
  {
    hide Joins, Enabled;
    if i > 0 {
      JoinLasts(states, steps, h, i - 1);
      assert ScheduleStep(states(i - 1), steps(i - 1), states(i - 1 + 1)) && steps(i - 1) != Handling(h, FinishRemove);
      JoinPersists(states(i - 1), h, steps(i - 1));
    }
  }

  lemma JoinDescends(states: nat -> State, steps: nat -> Step, h: nat, i: nat)
    requires Joins(states(i), h)
    requires forall j: nat :: ScheduleStep(states(j), steps(j), states(j + 1)) && steps(j) != Handling(h, FinishRemove)
    requires forall j: nat | j >= i :: Internal(steps(j))
    ensures false
    decreases JoinWork(states(i)).callers, JoinWork(states(i)).tickers, JoinWork(states(i)).loops,
              JoinWork(states(i)).handlers, JoinWork(states(i)).clients
  {
    hide Joins, Enabled, JoinWork;
    assert ScheduleStep(states(i), steps(i), states(i + 1)) && Internal(steps(i));
    JoinNears(states(i), h, steps(i));
    JoinPersists(states(i), h, steps(i));
    JoinDescends(states, steps, h, i + 1);
  }

  /** The join terminates: in every endless schedule in which only finitely many connections, commands and
      calls arrive, whatever the tickers do meanwhile and whether or not the flag is up, the handler that
      joins a client thread gets its thread and releases the mutex. */
  lemma JoinTerminates(states: nat -> State, steps: nat -> Step, h: nat, quiet: nat)
    requires Joins(states(0), h)
    requires forall j: nat :: ScheduleStep(states(j), steps(j), states(j + 1))
    requires forall j: nat | j >= quiet :: Internal(steps(j))
    ensures exists j: nat :: steps(j) == Handling(h, FinishRemove)
  {
    hide Joins, Enabled;
    if forall j: nat :: steps(j) != Handling(h, FinishRemove) {
      JoinLasts(states, steps, h, quiet);
      JoinDescends(states, steps, h, quiet);
    }
  }

  /** Until the joined thread has exited, some thread other than the joiner can step. */
  lemma JoinedCanStep(s: State, h: nat) returns (step: Step)
    requires Joins(s, h) && !Enabled(s, Handling(h, FinishRemove))
    ensures Enabled(s, step) && Internal(step) && step != Handling(h, FinishRemove)
  {
    hide Inv, WaitsFor;
    JoinedThreadRuns(s, h);
    var a := ClientThread(s.handlers[h].pc.sub);
    UnblockedCanStep(s, Unblocker(s, a));
    step :| StepOf(Unblocker(s, a), step) && Enabled(s, step);
  }

  lemma ClientsStand(s: State, h: nat, step: Step)
    requires Joins(s, h) && Enabled(s, step) && step != Handling(h, FinishRemove)
    ensures Apply(s, step).clients == s.clients
  {
    hide Inv, CanServe, CanCall, DoCall, CanAdvance, Act;
    match step {
      case Handling(g, serve) => OnlyJoinerServes(s, h, g, serve);
      case Ticking(t, tick) => TickKeepsClients(s, t, tick);
      case Calling(c, call) => CallKeepsClients(s, c, call);
      case _ =>
    }
  }

  lemma TickKeepsClients(s: State, t: nat, tick: Tick)
    requires TickerAt(s, t) && CanTick(s, t, tick)
    ensures DoTick(s, t, tick).clients == s.clients
  {
  }

  lemma CallKeepsClients(s: State, c: nat, call: Call)
    requires CallerAt(s, c) && CanCall(s, c, call)
    ensures DoCall(s, c, call).clients == s.clients
  {
  }

  /** Whatever any thread does while a handler joins, commands and connections arriving included, the handler
      stays where it is and the map of clients as it was. */
  lemma {:induction false} JoinWaits(s: State, h: nat, steps: seq<Step>, s': State)
    requires Joins(s, h) && Run(s, steps) == Some(s') && Handling(h, FinishRemove) !in steps
    ensures Joins(s', h) && s'.clients == s.clients && s'.handlers[h] == s.handlers[h]
  {
    if steps != [] {
      hide Joins, Enabled, Apply;
      var n := |steps| - 1;
      var before := Run(s, steps[..n]).value;
      assert steps[n] in steps;
      JoinWaits(s, h, steps[..n], before);
      JoinPersists(before, h, steps[n]);
      ClientsStand(before, h, steps[n]);
    }
  }

  lemma JoinKeeps(s: State, h: nat, step: Step)
    requires Joins(s, h) && Enabled(s, step) && Internal(step) && step != Handling(h, FinishRemove)
    ensures Apply(s, step).handlers == s.handlers && |Apply(s, step).subs| == |s.subs|
  {
    hide Inv, CanTick, DoTick, CanServe, CanCall, DoCall, CanAdvance, Act;
    match step {
      case Handling(g, serve) => OnlyJoinerServes(s, h, g, serve);
      case Ticking(t, tick) => TickKeepsServed(s, t, tick);
      case Calling(c, call) => CallKeepsServed(s, c, call);
      case Advance(w) =>
    }
  }

  /** And it can always be ended by the server's own threads. */
  lemma JoinCanFinish(s: State, h: nat) returns (steps: seq<Step>, s': State)
    requires Joins(s, h)
    ensures AllInternal(steps) && Run(s, steps) == Some(s') && Joins(s', h) && s'.handlers == s.handlers
    ensures Enabled(s', Handling(h, FinishRemove)) && |s'.subs| == |s.subs|
    decreases JoinWork(s).callers, JoinWork(s).tickers, JoinWork(s).loops, JoinWork(s).handlers, JoinWork(s).clients
  {
    hide Inv, Enabled, JoinWork;
    if Enabled(s, Handling(h, FinishRemove)) {
      return [], s;
    }
    var step := JoinedCanStep(s, h);
    JoinNears(s, h, step);
    JoinPersists(s, h, step);
    JoinKeeps(s, h, step);
    var rest;
    rest, s' := JoinCanFinish(Apply(s, step), h);
    steps := [step] + rest;
    RunOne(s, step);
    RunConcat(s, [step], rest);
  }

  // ----- the calls of a handler complete -----

  /** The server's own threads can go from one state to the other. */
  ghost predicate GoesOn(s: State, s': State) {
    && Inv(s') && Bounded(s')
    && exists steps :: AllInternal(steps) && Run(s, steps) == Some(s')
  }

  lemma GoesOnSelf(s: State)
    requires Inv(s) && Bounded(s)
    ensures GoesOn(s, s)
  {
    hide Inv;
    assert AllInternal([]) && Run(s, []) == Some(s);
  }

  lemma GoesOnTrans(a: State, b: State, c: State)
    requires GoesOn(a, b) && GoesOn(b, c)
    ensures GoesOn(a, c)
  {
    hide Inv, Run;
    var x :| AllInternal(x) && Run(a, x) == Some(b);
    var y :| AllInternal(y) && Run(b, y) == Some(c);
    RunConcat(a, x, y);
    assert AllInternal(x + y);
  }

  lemma GoesOnOne(s: State, step: Step)
    requires Inv(s) && Enabled(s, step) && Internal(step) && Bounded(Apply(s, step))
    ensures GoesOn(s, Apply(s, step))
  {
    hide Inv, Enabled, Apply;
    InvStep(s, step);
    RunOne(s, step);
    assert AllInternal([step]) && Run(s, [step]) == Some(Apply(s, step));
  }

  predicate Resting(k: Handler) {
    k.pc.Idle? || k.pc.Closed?
  }

  /** A handler has come to the end of its call and released the mutex; no other handler has moved. */
  ghost predicate CallEnds(s: State, h: nat, s': State) {
    && GoesOn(s, s') && s'.mutex == Free && |s'.subs| <= |s.subs| + 1
    && HandlerAt(s, h) && HandlerAt(s', h) && s'.handlers == s.handlers[h := s'.handlers[h]] && Resting(s'.handlers[h])
  }

  lemma JoinEnds(s: State, h: nat) returns (s': State)
    requires Joins(s, h)
    ensures CallEnds(s, h, s')
  {
    hide Inv, Run, Enabled;
    var steps, last := JoinCanFinish(s, h);
    assert GoesOn(s, last);
    s' := FinishJoin(last, h);
    GoesOnTrans(s, last, s');
  }

  lemma FinishJoin(s: State, h: nat) returns (s': State)
    requires Joins(s, h) && Enabled(s, Handling(h, FinishRemove))
    ensures CallEnds(s, h, s') && |s'.subs| == |s.subs|
  {
    hide Inv, Run;
    s' := Apply(s, Handling(h, FinishRemove));
    GoesOnOne(s, Handling(h, FinishRemove));
  }

  lemma FinishAdding(s: State, h: nat) returns (s': State)
    requires Inv(s) && Bounded(s) && HandlerAt(s, h) && s.handlers[h].pc.Added?
    ensures CallEnds(s, h, s') && |s'.subs| == |s.subs|
  {
    hide Inv, Run;
    s' := Apply(s, Handling(h, FinishAdd));
    GoesOnOne(s, Handling(h, FinishAdd));
  }

  lemma Inserts(s: State, h: nat) returns (s': State)
    requires Inv(s) && |s.subs| < U64_BOUND && HandlerAt(s, h) && s.handlers[h].pc.AddHolding?
    ensures GoesOn(s, s') && HandlerAt(s', h) && s'.handlers[h].pc.Added? && |s'.subs| == |s.subs| + 1
    ensures s'.handlers == s.handlers[h := s'.handlers[h]]
  {
    hide Inv, Run;
    s' := Apply(s, Handling(h, Insert));
    GoesOnOne(s, Handling(h, Insert));
  }

  lemma Takes(s: State, h: nat) returns (s': State)
    requires Inv(s) && Bounded(s) && HandlerAt(s, h) && s.handlers[h].pc.RemHolding?
    ensures GoesOn(s, s') && Joins(s', h) && s'.handlers == s.handlers[h := s'.handlers[h]]
    ensures |s'.subs| == |s.subs|
  {
    hide Inv, Run;
    if s.handlers[h].pc.id in s.clients {
      RegisteredAt(s, s.handlers[h].pc.id);
    }
    TakeFindsClient(s, h);
    s' := Apply(s, Handling(h, Take));
    GoesOnOne(s, Handling(h, Take));
  }

  /** A handler inside its critical section can leave it. */
  lemma ServingEnds(s: State, h: nat) returns (s': State)
    requires Inv(s) && |s.subs| < U64_BOUND && HandlerAt(s, h) && HoldsMutex(s.handlers[h].pc)
    ensures CallEnds(s, h, s')
  {
    hide Inv, GoesOn;
    match s.handlers[h].pc {
      case AddHolding(_) =>
        var added := Inserts(s, h);
        GoesOnHasInv(s, added);
        s' := FinishAdding(added, h);
        GoesOnTrans(s, added, s');
      case Added(_) => s' := FinishAdding(s, h);
      case RemHolding(_, _) =>
        var joining := Takes(s, h);
        s' := JoinEnds(joining, h);
        GoesOnTrans(s, joining, s');
      case Joining(_, _, _) => s' := JoinEnds(s, h);
    }
  }

  lemma GoesOnHasInv(s: State, s': State)
    requires GoesOn(s, s')
    ensures Inv(s') && Bounded(s')
  {
  }

  /** A notification round can be finished. */
  lemma RoundEnds(s: State, t: nat) returns (s': State)
    requires Inv(s) && Bounded(s) && TickerAt(s, t) && s.tickers[t].pc.Notifying?
    ensures GoesOn(s, s') && s'.mutex == Free && s'.handlers == s.handlers && |s'.subs| == |s.subs|
    decreases |s.tickers[t].pc.pending|
  {
    hide Inv, Run;
    var pending := s.tickers[t].pc.pending;
    if pending == {} {
      s' := Apply(s, Ticking(t, UnlockClients));
      GoesOnOne(s, Ticking(t, UnlockClients));
    } else {
      var id :| id in pending;
      PendingBelongs(s, t);
      RegisteredAt(s, id);
      var next := Apply(s, Ticking(t, SendUpdate(id)));
      GoesOnOne(s, Ticking(t, SendUpdate(id)));
      s' := RoundEnds(next, t);
      GoesOnTrans(s, next, s');
    }
  }

  /** Whoever holds the mutex can be made to release it, without handler `h`. */
  lemma MutexFrees(s: State, h: nat) returns (s': State)
    requires Inv(s) && |s.subs| < U64_BOUND && HandlerAt(s, h) && !HoldsMutex(s.handlers[h].pc)
    ensures GoesOn(s, s') && s'.mutex == Free && |s'.subs| <= |s.subs| + 1
    ensures HandlerAt(s', h) && s'.handlers[h] == s.handlers[h]
  {
    MutexHolder(s);
    hide Inv, GoesOn;
    match s.mutex {
      case Free =>
        s' := s;
        GoesOnSelf(s);
      case Notifier(t) => s' := RoundEnds(s, t);
      case Serving(g) => s' := ServingEnds(s, g);
    }
  }

  lemma MutexHolder(s: State)
    requires Inv(s)
    ensures s.mutex.Notifier? ==> TickerAt(s, s.mutex.ticker) && s.tickers[s.mutex.ticker].pc.Notifying?
    ensures s.mutex.Serving? ==> HandlerAt(s, s.mutex.handler) && HoldsMutex(s.handlers[s.mutex.handler].pc)
  {
  }

  lemma LocksRegistry(s: State, h: nat) returns (s': State)
    requires Inv(s) && Bounded(s) && s.mutex == Free && HandlerAt(s, h)
    requires s.handlers[h].pc.AddWaiting? || s.handlers[h].pc.RemWaiting?
    ensures GoesOn(s, s') && HandlerAt(s', h) && HoldsMutex(s'.handlers[h].pc) && |s'.subs| == |s.subs|
  {
    hide Inv, Run;
    s' := Apply(s, Handling(h, LockRegistry));
    GoesOnOne(s, Handling(h, LockRegistry));
  }

  /** In every state every call of a handler can be completed by the server's own threads. */
  lemma HandlerCanEnd(s: State, h: nat) returns (s': State)
    requires Inv(s) && |s.subs| + 2 <= U64_BOUND && HandlerAt(s, h)
    ensures GoesOn(s, s') && HandlerAt(s', h) && Resting(s'.handlers[h])
  {
    hide Inv, GoesOn;
    if Resting(s.handlers[h]) {
      s' := s;
      GoesOnSelf(s);
    } else if HoldsMutex(s.handlers[h].pc) {
      s' := ServingEnds(s, h);
    } else {
      var free := MutexFrees(s, h);
      GoesOnHasInv(s, free);
      var locked := LocksRegistry(free, h);
      GoesOnHasInv(free, locked);
      s' := ServingEnds(locked, h);
      GoesOnTrans(s, free, locked);
      GoesOnTrans(s, locked, s');
    }
  }
}
