/** What holds over whole schedules of the registry: exactly-once delivery, snapshot consistency,
    a single ticker, permanent shutdown, silence after removal, and the accounting of client ids. */
module RegistryRuns {
  import opened Defs
  import opened QuoteGenerators
  import opened Workers
  import opened Registry
  import opened RegistryInvariants

  // ----- what only grows -----

  /** A client thread keeps its past; a joined one never changes again. */
  ghost predicate SubEvolves(e: Sub, e': Sub) {
    && e'.worker.tickers == e.worker.tickers && e'.since == e.since
    && e.sentAt <= e'.sentAt && e.worker.done <= e'.worker.done
    && (e.until.Some? ==> e'.until == e.until)
    && (e.joined ==> e' == e)
  }

  ghost predicate SubsEvolve(subs: seq<Sub>, subs': seq<Sub>) {
    |subs| <= |subs'| && forall w: nat | w < |subs| :: SubEvolves(subs[w], subs'[w])
  }

  /** Once the flag is up no ticker enters another tick body, and a stopped ticker stays stopped. */
  ghost predicate TickerEvolves(flag: bool, k: Ticker, k': Ticker) {
    && k.entered <= k'.entered && k.completed <= k'.completed
    && (flag ==> k'.entered == k.entered)
    && (k.pc.Stopped? ==> k' == k)
  }

  ghost predicate TickersEvolve(flag: bool, tickers: seq<Ticker>, tickers': seq<Ticker>) {
    && |tickers| <= |tickers'|
    && (forall t: nat | t < |tickers| :: TickerEvolves(flag, tickers[t], tickers'[t]))
    && (flag ==> forall t: nat | |tickers| <= t < |tickers'| :: tickers'[t].entered == 0)
  }

  ghost predicate Evolves(s: State, s': State) {
    && SubsEvolve(s.subs, s'.subs)
    && TickersEvolve(s.flag, s.tickers, s'.tickers)
    && (s.flag ==> s'.flag)
    && s.history <= s'.history
    && s.rounds <= s'.rounds
    && s.orphans <= s'.orphans
  }

  lemma SubsEvolveTrans(a: seq<Sub>, b: seq<Sub>, c: seq<Sub>)
    requires SubsEvolve(a, b) && SubsEvolve(b, c)
    ensures SubsEvolve(a, c)
  {
    forall w: nat | w < |a| ensures SubEvolves(a[w], c[w]) {
      assert SubEvolves(a[w], b[w]) && SubEvolves(b[w], c[w]);
    }
  }

  lemma TickersEvolveTrans(f: bool, g: bool, a: seq<Ticker>, b: seq<Ticker>, c: seq<Ticker>)
    requires TickersEvolve(f, a, b) && TickersEvolve(g, b, c) && (f ==> g)
    ensures TickersEvolve(f, a, c)
  {
    forall t: nat | t < |a| ensures TickerEvolves(f, a[t], c[t]) {
      assert TickerEvolves(f, a[t], b[t]) && TickerEvolves(g, b[t], c[t]);
    }
    if f {
      forall t: nat | |a| <= t < |c| ensures c[t].entered == 0 {
        assert t < |b| ==> TickerEvolves(g, b[t], c[t]);
      }
    }
  }

  lemma EvolvesTrans(a: State, b: State, c: State)
    requires Evolves(a, b) && Evolves(b, c)
    ensures Evolves(a, c)
  {
    hide SubsEvolve, TickersEvolve;
    SubsEvolveTrans(a.subs, b.subs, c.subs);
    TickersEvolveTrans(a.flag, b.flag, a.tickers, b.tickers, c.tickers);
  }

  lemma SubsSame(subs: seq<Sub>)
    ensures SubsEvolve(subs, subs)
  {
  }

  lemma SubsChange(subs: seq<Sub>, w: nat, e: Sub)
    requires w < |subs| && SubEvolves(subs[w], e)
    ensures SubsEvolve(subs, subs[w := e])
  {
  }

  lemma TickersSame(flag: bool, tickers: seq<Ticker>)
    ensures TickersEvolve(flag, tickers, tickers)
    ensures TickersEvolve(flag, tickers, tickers + [Ticker(Checking, 0, 0)])
  {
  }

  /** A joined client thread has exited, and a registered one is not joined. */
  lemma JoinedHasExited(s: State, w: nat)
    requires Inv(s) && SubAt(s, w)
    ensures WellFormed(s.subs[w].worker)
    ensures s.subs[w].joined ==> s.subs[w].worker.pc.Exited? && s.subs[w].until.Some?
  {
    CountAt(s, w);
  }

  lemma TickerChanges(flag: bool, tickers: seq<Ticker>, t: nat, k: Ticker)
    requires t < |tickers| && TickerEvolves(flag, tickers[t], k)
    ensures TickersEvolve(flag, tickers, tickers[t := k])
  {
  }

  lemma TickEvolves(s: State, t: nat, tick: Tick)
    requires Inv(s) && TickerAt(s, t) && CanTick(s, t, tick)
    ensures Evolves(s, DoTick(s, t, tick))
  {
    hide Inv, SubsEvolve, TickersEvolve;
    TickerChanges(s.flag, s.tickers, t, DoTick(s, t, tick).tickers[t]);
    if tick.SendUpdate? {
      SendFindsClient(s, t, tick.id);
      JoinedHasExited(s, tick.id);
      SubsChange(s.subs, tick.id, Notified(s.subs[tick.id], Version(s)));
    } else {
      SubsSame(s.subs);
    }
  }

  lemma TakeEvolves(s: State, h: nat)
    requires Inv(s) && HandlerAt(s, h) && CanServe(s, h, Take)
    ensures Evolves(s, DoTake(s, h))
  {
    hide Inv, SubsEvolve, TickersEvolve;
    TickersSame(s.flag, s.tickers);
    TakeFindsClient(s, h);
    var id := s.handlers[h].pc.id;
    SubsChange(s.subs, id, Dismissed(s.subs[id], s.rounds));
  }

  lemma JoiningIsFirst(s: State, h: nat)
    requires Inv(s) && HandlerAt(s, h) && s.handlers[h].pc.Joining?
    ensures var pc := s.handlers[h].pc;
            pc.id == pc.sub && SubAt(s, pc.sub) && s.subs[pc.sub].until.Some? && !s.subs[pc.sub].joined
  {
    JoinAt(s, h);
  }

  lemma FinishRemoveEvolves(s: State, h: nat)
    requires Inv(s) && HandlerAt(s, h) && CanServe(s, h, FinishRemove)
    ensures Evolves(s, DoFinishRemove(s, h))
  {
    hide Inv, SubsEvolve, TickersEvolve;
    TickersSame(s.flag, s.tickers);
    JoiningIsFirst(s, h);
    var w := s.handlers[h].pc.sub;
    SubsChange(s.subs, w, s.subs[w].(joined := true, worker := s.subs[w].worker.(open := false)));
  }

  lemma ServeEvolves(s: State, h: nat, serve: Serve)
    requires Inv(s) && HandlerAt(s, h) && CanServe(s, h, serve)
    ensures Evolves(s, DoServe(s, h, serve))
  {
    hide Inv, TickersEvolve;
    match serve
    case Take => TakeEvolves(s, h);
    case FinishRemove => FinishRemoveEvolves(s, h);
    case _ => TickersSame(s.flag, s.tickers);
  }

  lemma AdvanceEvolves(s: State, w: nat)
    requires Inv(s) && SubAt(s, w) && CanAdvance(s, w)
    ensures Evolves(s, DoAdvance(s, w))
  {
    hide Inv, SubsEvolve, TickersEvolve;
    JoinedHasExited(s, w);
    TickersSame(s.flag, s.tickers);
    StepAccounting(s.subs[w].worker, CurrentView(s));
    SubsChange(s.subs, w, s.subs[w].(worker := Act(s.subs[w].worker, CurrentView(s))));
  }

  lemma CallEvolves(s: State, c: nat, call: Call)
    requires CallerAt(s, c) && CanCall(s, c, call)
    ensures Evolves(s, DoCall(s, c, call))
  {
    hide SubsEvolve, TickersEvolve;
    SubsSame(s.subs);
    TickersSame(s.flag, s.tickers);
  }

  lemma InputEvolves(s: State, step: Step)
    requires Enabled(s, step) && (step.Arrive? || step.Deliver?)
    ensures Evolves(s, Apply(s, step))
  {
    hide SubsEvolve, TickersEvolve;
    SubsSame(s.subs);
    TickersSame(s.flag, s.tickers);
  }

  lemma StepEvolves(s: State, step: Step)
    requires Inv(s) && Enabled(s, step)
    ensures Evolves(s, Apply(s, step))
  {
    hide Inv, Evolves;
    match step
    case Ticking(t, tick) => TickEvolves(s, t, tick);
    case Handling(h, serve) => ServeEvolves(s, h, serve);
    case Advance(w) => AdvanceEvolves(s, w);
    case Calling(c, call) => CallEvolves(s, c, call);
    case _ => InputEvolves(s, step);
  }

  lemma {:induction false} RunEvolves(s: State, steps: seq<Step>, s': State)
    requires Inv(s) && Run(s, steps) == Some(s') && Bounded(s')
    ensures Evolves(s, s')
  {
    hide Inv;
    if steps == [] {
      SubsSame(s.subs);
      TickersSame(s.flag, s.tickers);
    } else {
      hide Evolves;
      var n := |steps| - 1;
      var before := Run(s, steps[..n]).value;
      SubsGrow(before, steps[n]);
      RunEvolves(s, steps[..n], before);
      InvRun(s, steps[..n], before);
      StepEvolves(before, steps[n]);
      EvolvesTrans(s, before, s');
    }
  }

  // ----- schedules -----

  /** `s` is where some schedule takes a server freshly configured with `table`. */
  ghost predicate Reachable(table: Table, s: State) {
    TableOk(table) && Bounded(s) && Reaches(Init(table), s)
  }

  lemma ReachableInv(table: Table, s: State)
    requires Reachable(table, s)
    ensures Inv(s)
  {
    hide Inv;
    var steps :| Run(Init(table), steps) == Some(s);
    InvInit(table);
    InvRun(Init(table), steps, s);
  }

  /** Continuing from a reachable state, nothing that has happened is undone. */
  lemma Continues(table: Table, s: State, steps: seq<Step>, s': State)
    requires Reachable(table, s) && Run(s, steps) == Some(s') && Bounded(s')
    ensures Reachable(table, s') && Inv(s) && Inv(s') && Evolves(s, s')
  {
    hide Inv, Evolves;
    ReachableInv(table, s);
    RunEvolves(s, steps, s');
    assert Reaches(s, s');
    ReachesTrans(Init(table), s, s');
    ReachableInv(table, s');
  }

  // ----- exactly-once delivery -----

  /** The notification rounds a schedule begins. */
  function RoundsIn(steps: seq<Step>): nat {
    if steps == [] then 0
    else
      var n := |steps| - 1;
      RoundsIn(steps[..n]) + if steps[n].Ticking? && steps[n].tick.LockClients? then 1 else 0
  }

  lemma TickRounds(s: State, t: nat, tick: Tick)
    requires TickerAt(s, t) && CanTick(s, t, tick)
    ensures DoTick(s, t, tick).rounds == s.rounds + if tick.LockClients? then 1 else 0
  {
    hide Refresh, Notified;
  }

  lemma ServeRounds(s: State, h: nat, serve: Serve)
    requires HandlerAt(s, h) && CanServe(s, h, serve)
    ensures DoServe(s, h, serve).rounds == s.rounds
  {
    hide Dismissed;
  }

  lemma CallRounds(s: State, c: nat, call: Call)
    requires CallerAt(s, c) && CanCall(s, c, call)
    ensures DoCall(s, c, call).rounds == s.rounds
  {
  }

  lemma StepRounds(s: State, step: Step)
    requires Enabled(s, step)
    ensures Apply(s, step).rounds == s.rounds + if step.Ticking? && step.tick.LockClients? then 1 else 0
  {
    hide CanTick, DoTick, CanServe, DoServe, CanCall, DoCall, CanAdvance, Act;
    match step
    case Ticking(t, tick) => TickRounds(s, t, tick);
    case Handling(h, serve) => ServeRounds(s, h, serve);
    case Calling(c, call) => CallRounds(s, c, call);
    case Deliver(h, input) =>
    case Arrive(arrival) =>
    case Advance(w) =>
  }

  lemma {:induction false} RoundsCounted(s: State, steps: seq<Step>, s': State)
    requires Run(s, steps) == Some(s')
    ensures s'.rounds == s.rounds + RoundsIn(steps)
  {
    if steps != [] {
      var n := |steps| - 1;
      var before := Run(s, steps[..n]).value;
      RoundsCounted(s, steps[..n], before);
      StepRounds(before, steps[n]);
    }
  }

  /** No Update is ever lost, duplicated or invented: in every reachable state those sent to a client are
      the ones processed, in progress and queued; a registered client has been sent one for each round
      since its insertion, bar a round that is still on its way to it; and a send never fails. */
  lemma UpdatesConserved(table: Table, s: State, w: nat)
    requires Reachable(table, s) && SubAt(s, w)
    ensures var e := s.subs[w];
            && |e.worker.done| + InProgress(e.worker.pc) + Pending(e.worker.queue) == |e.sentAt|
            && (w in s.clients ==> !e.worker.pc.Exited?
                                   && |e.sentAt| + Unsent(s.mutex, s.tickers, w) == s.rounds - e.since)
            && (e.joined ==> |e.worker.done| == |e.sentAt| && e.worker.queue == [])
  {
    ReachableInv(table, s);
    CountAt(s, w);
  }

  lemma DismissalRecorded(s: State, g: nat)
    requires Inv(s) && HandlerAt(s, g) && CanServe(s, g, Take)
    ensures var id := s.handlers[g].pc.id;
            SubAt(s, id) && DoTake(s, g).subs == s.subs[id := Dismissed(s.subs[id], s.rounds)]
  {
    hide Inv;
    TakeFindsClient(s, g);
  }

  lemma InsertionRecorded(s: State, h: nat)
    requires Inv(s) && HandlerAt(s, h) && CanServe(s, h, Insert) && Bounded(DoInsert(s, h))
    ensures s.count == |s.subs| && |DoInsert(s, h).subs| == |s.subs| + 1
    ensures DoInsert(s, h).subs[s.count].since == s.rounds
  {
    FreshId(s);
  }

  lemma JoinedCount(s: State, w: nat, begun: nat, ended: nat)
    requires Inv(s) && SubAt(s, w) && s.subs[w].joined && s.subs[w].since == begun && s.subs[w].until == Some(ended)
    ensures |s.subs[w].worker.done| == ended - begun
  {
    CountAt(s, w);
  }

  lemma RunBounded(s: State, steps: seq<Step>, s': State)
    requires Run(s, steps) == Some(s') && Bounded(s')
    ensures Bounded(s)
    decreases |steps|
  {
    if steps != [] {
      var n := |steps| - 1;
      var before := Run(s, steps[..n]).value;
      SubsGrow(before, steps[n]);
      RunBounded(s, steps[..n], before);
    }
  }

  /** Exactly once: whatever the schedule, a client whose thread has been joined has processed exactly as
      many Updates as notification rounds were begun between its insertion and its removal. */
  lemma ExactlyOnce(table: Table, s0: State, h: nat, during: seq<Step>, s2: State, g: nat, after: seq<Step>, s4: State)
    requires Reachable(table, s0) && Enabled(s0, Handling(h, Insert))
    requires Run(Apply(s0, Handling(h, Insert)), during) == Some(s2)
    requires Enabled(s2, Handling(g, Take)) && s2.handlers[g].pc.id == s0.count
    requires Run(Apply(s2, Handling(g, Take)), after) == Some(s4) && Bounded(s4)
    requires SubAt(s4, s0.count) && s4.subs[s0.count].joined
    ensures |s4.subs[s0.count].worker.done| == RoundsIn(during)
  {
    hide Inv, Enabled, Evolves;
    var s1 := Apply(s0, Handling(h, Insert));
    var s3 := Apply(s2, Handling(g, Take));
    RunBounded(s3, after, s4);
    SubsGrow(s2, Handling(g, Take));
    RunBounded(s1, during, s2);
    RunOne(s0, Handling(h, Insert));
    Continues(table, s0, [Handling(h, Insert)], s1);
    Continues(table, s1, during, s2);
    RunOne(s2, Handling(g, Take));
    Continues(table, s2, [Handling(g, Take)], s3);
    Continues(table, s3, after, s4);
    RoundsCounted(s1, during, s2);
    StepRounds(s0, Handling(h, Insert));
    LifeSpan(s0, h, s1, s2, g, s3, s4);
    JoinedCount(s4, s0.count, s0.rounds, s2.rounds);
  }

  lemma LifeSpan(s0: State, h: nat, s1: State, s2: State, g: nat, s3: State, s4: State)
    requires Inv(s0) && Enabled(s0, Handling(h, Insert)) && s1 == Apply(s0, Handling(h, Insert)) && Bounded(s1)
    requires Evolves(s1, s2)
    requires Inv(s2) && Enabled(s2, Handling(g, Take)) && s3 == Apply(s2, Handling(g, Take))
    requires s2.handlers[g].pc.id == s0.count
    requires Evolves(s3, s4) && SubAt(s4, s0.count)
    ensures s4.subs[s0.count].since == s0.rounds && s4.subs[s0.count].until == Some(s2.rounds)
  {
    hide Inv, DoTake, DoInsert, TickersEvolve;
    InsertionRecorded(s0, h);
    DismissalRecorded(s2, g);
    var w := s0.count;
    assert SubEvolves(s1.subs[w], s2.subs[w]);
    assert SubEvolves(s3.subs[w], s4.subs[w]);
  }

  // ----- snapshots -----

  lemma {:induction false} PresentByKeys(tickers: seq<string>, a: Table, b: Table)
    requires a.Keys == b.Keys
    ensures Present(tickers, a) == Present(tickers, b)
  {
    if tickers != [] {
      PresentByKeys(tickers[..|tickers| - 1], a, b);
    }
  }

  lemma HistoryOk(s: State, v: nat)
    requires Inv(s) && v < |s.history|
    ensures TableOk(s.history[v]) && s.history[v].Keys == s.history[0].Keys
  {
  }

  lemma BatchAt(s: State, w: nat, k: nat)
    requires Inv(s) && SubAt(s, w) && k < |s.subs[w].worker.done|
    ensures var e := s.subs[w];
            k < |e.sentAt| && BatchOk(s.history, e.worker.tickers, e.worker.done[k], e.sentAt[k])
    ensures forall j: nat | j < k :: s.subs[w].worker.done[j].version <= s.subs[w].worker.done[k].version
  {
    assert SnapshotOk(s.subs[w], s.history, s.table);
  }

  lemma {:induction false} ConfigurationKept(table: Table, steps: seq<Step>, s: State)
    requires TableOk(table) && Run(Init(table), steps) == Some(s) && Bounded(s)
    ensures |s.history| > 0 && s.history[0] == table
  {
    hide Inv, TickersEvolve, SubsEvolve;
    InvInit(table);
    RunEvolves(Init(table), steps, s);
  }

  /** Although the ticker writes concurrently, all messages of one Update show one published table; they
      are exactly the subscribed tickers of the configuration, in subscription order with repetitions,
      each with that ticker's quote; and the tables a client sees never go back in time. */
  lemma SnapshotConsistency(table: Table, s: State, w: nat, k: nat)
    requires Reachable(table, s) && SubAt(s, w) && k < |s.subs[w].worker.done|
    ensures var e := s.subs[w];
            var b := e.worker.done[k];
            && b.version < |s.history|
            && (forall q | q in b.messages :: q.ticker in s.history[b.version] && q == s.history[b.version][q.ticker])
            && TickersOf(b.messages) == Present(e.worker.tickers, table)
            && (forall q | q in b.messages :: QuoteOk(q.ticker, q))
            && (forall j: nat | j < k :: e.worker.done[j].version <= b.version)
  {
    hide Inv, Wanted, Present, TickersOf;
    ReachableInv(table, s);
    BatchAt(s, w, k);
    var e := s.subs[w];
    var b := e.worker.done[k];
    HistoryOk(s, b.version);
    WantedIsFiltered(e.worker.tickers, s.history[b.version]);
    var steps :| Run(Init(table), steps) == Some(s);
    ConfigurationKept(table, steps, s);
    PresentByKeys(e.worker.tickers, s.history[b.version], table);
  }

  /** Freshness: the table shown for an Update is at least as new as the one current when it was sent. */
  lemma Freshness(table: Table, s: State, t: nat, id: nat, steps: seq<Step>, s': State)
    requires Reachable(table, s) && Enabled(s, Ticking(t, SendUpdate(id)))
    requires Run(Apply(s, Ticking(t, SendUpdate(id))), steps) == Some(s') && Bounded(s')
    requires SubAt(s', id) && SubAt(s, id) && |s.subs[id].sentAt| < |s'.subs[id].worker.done|
    ensures s'.subs[id].worker.done[|s.subs[id].sentAt|].version >= Version(s)
  {
    hide Inv, Enabled, Evolves;
    var s1 := Apply(s, Ticking(t, SendUpdate(id)));
    var k := |s.subs[id].sentAt|;
    ReachableInv(table, s);
    RunBounded(s1, steps, s');
    RunOne(s, Ticking(t, SendUpdate(id)));
    Continues(table, s, [Ticking(t, SendUpdate(id))], s1);
    Continues(table, s1, steps, s');
    BatchAt(s', id, k);
    SendRecorded(s, t, id, s');
  }

  lemma SendRecorded(s: State, t: nat, id: nat, s': State)
    requires Inv(s) && Enabled(s, Ticking(t, SendUpdate(id))) && Evolves(Apply(s, Ticking(t, SendUpdate(id))), s')
    requires SubAt(s', id) && SubAt(s, id) && |s.subs[id].sentAt| < |s'.subs[id].sentAt|
    ensures s'.subs[id].sentAt[|s.subs[id].sentAt|] == Version(s)
  {
    SendFindsClient(s, t, id);
    HistoryStarted(s);
    hide Inv, TickersEvolve;
    var s1 := Apply(s, Ticking(t, SendUpdate(id)));
    assert SubEvolves(s1.subs[id], s'.subs[id]);
    assert s1.subs[id].sentAt == s.subs[id].sentAt + [Version(s)];
  }

  // ----- start and shutdown -----

  /** At most one thread ever runs a tick body, however `start` and `shutdown` calls interleave. */
  lemma SingleTicker(table: Table, s: State, t: nat)
    requires Reachable(table, s) && TickerAt(s, t)
    ensures t >= 1 ==> s.tickers[t].entered == 0 && !InBody(s.tickers[t].pc)
    ensures s.tickers[t].completed <= s.tickers[t].entered <= s.tickers[t].completed + 1
  {
    ReachableInv(table, s);
    TickerAtOk(s, t);
  }

  /** Once `shutdown` has stored the flag, in every continuation no thread enters a tick body again, at
      most the one already entered completes, and threads started later run none. */
  lemma ShutdownIsPermanent(table: Table, s: State, steps: seq<Step>, s': State, t: nat)
    requires Reachable(table, s) && s.flag && Run(s, steps) == Some(s') && Bounded(s') && TickerAt(s', t)
    ensures s'.flag
    ensures TickerAt(s, t) ==> s'.tickers[t].entered == s.tickers[t].entered
                               && s'.tickers[t].completed <= s.tickers[t].completed + 1
                               && (t >= 1 ==> s'.tickers[t].completed == 0)
    ensures !TickerAt(s, t) ==> s'.tickers[t].entered == 0
  {
    Continues(table, s, steps, s');
    TickerAtOk(s', t);
    if TickerAt(s, t) {
      TickerAtOk(s, t);
      assert TickerEvolves(s.flag, s.tickers[t], s'.tickers[t]);
    }
  }

  /** A `shutdown` call that found the thread handle returns only when that thread has stopped for good. */
  lemma ShutdownJoins(table: Table, s: State, c: nat, t: nat, steps: seq<Step>, s': State)
    requires Reachable(table, s) && CallerAt(s, c) && s.callers[c] == Returned(Some(t))
    requires Run(s, steps) == Some(s') && Bounded(s')
    ensures TickerAt(s, t) && TickerAt(s', t) && s.tickers[t].pc == Stopped && s'.tickers[t] == s.tickers[t]
  {
    Continues(table, s, steps, s');
    assert CallerOk(s.flag, s.tickers, s.callers[c]);
    assert TickerEvolves(s.flag, s.tickers[t], s'.tickers[t]);
  }

  // ----- removal -----

  /** No callback after removal: a joined client thread makes no further callback in any continuation. */
  lemma SilentAfterRemoval(table: Table, s: State, w: nat, steps: seq<Step>, s': State)
    requires Reachable(table, s) && SubAt(s, w) && s.subs[w].joined
    requires Run(s, steps) == Some(s') && Bounded(s')
    ensures SubAt(s', w) && s'.subs[w] == s.subs[w] && s'.subs[w].worker.pc == Exited && w !in s'.clients
  {
    Continues(table, s, steps, s');
    assert SubEvolves(s.subs[w], s'.subs[w]);
    JoinedHasExited(s', w);
  }

  /** `remove_client` releases the mutex only over a joined thread: with the mutex free, every client
      thread is either registered and listening or joined. */
  lemma RemovedIsJoined(table: Table, s: State, w: nat)
    requires Reachable(table, s) && SubAt(s, w) && s.mutex == Free
    ensures w in s.clients <==> !s.subs[w].joined
  {
    ReachableInv(table, s);
    CountAt(s, w);
  }

  // ----- ownership and accounting -----

  /** The ids some live handler answers for. */
  ghost function HeldIds(s: State): set<nat> {
    set id | id in s.clients && HeldBySome(id, s.handlers)
  }

  /** The registered ids are the disjoint union of those held by live handlers and the orphans; a
      subscribed handler names a registered client, and no two handlers answer for the same one. */
  lemma Accounting(table: Table, s: State)
    requires Reachable(table, s)
    ensures s.clients.Keys == HeldIds(s) + s.orphans && HeldIds(s) !! s.orphans
    ensures forall h: nat, id | HandlerAt(s, h) && s.handlers[h].clientId == Some(id) ::
              id in s.clients && id !in s.orphans && SubAt(s, id) && !s.subs[id].worker.pc.Exited?
    ensures forall h: nat, k: nat, id |
              HandlerAt(s, h) && HandlerAt(s, k) && s.handlers[h].clientId == Some(id) == s.handlers[k].clientId ::
                h == k
  {
    ReachableInv(table, s);
    forall h: nat, id | HandlerAt(s, h) && s.handlers[h].clientId == Some(id)
      ensures id in Held(s.handlers[h]) && id in s.clients && id !in s.orphans
      ensures SubAt(s, id) && !s.subs[id].worker.pc.Exited?
    {
      OwnerAt(s.orphans, s.clients.Keys, s.handlers, h);
      CountAt(s, id);
    }
    forall id | id in HeldIds(s) ensures id !in s.orphans {
      var h: nat :| h < |s.handlers| && id in Held(s.handlers[h]);
      OwnerAt(s.orphans, s.clients.Keys, s.handlers, h);
    }
  }

  /** The client a step leaves behind: the old one of a repeated STREAM, and that of a handler that
      ends by end of input or by an error while subscribed. */
  function LeftBehind(s: State, step: Step): set<nat>
    requires Enabled(s, step)
  {
    match step
    case Handling(h, FinishAdd) => Ids(s.handlers[h].clientId)
    case Deliver(h, Quit) => Ids(s.handlers[h].clientId)
    case _ => {}
  }

  lemma ServeOrphans(s: State, h: nat, serve: Serve)
    requires HandlerAt(s, h) && CanServe(s, h, serve)
    ensures DoServe(s, h, serve).orphans == s.orphans + if serve.FinishAdd? then Ids(s.handlers[h].clientId) else {}
  {
  }

  lemma TickOrphans(s: State, t: nat, tick: Tick)
    requires TickerAt(s, t) && CanTick(s, t, tick)
    ensures DoTick(s, t, tick).orphans == s.orphans
  {
  }

  lemma CallOrphans(s: State, c: nat, call: Call)
    requires CallerAt(s, c) && CanCall(s, c, call)
    ensures DoCall(s, c, call).orphans == s.orphans
  {
  }

  /** Exactly those steps create orphans; STOP, keep-alive timeout and read error create none. */
  lemma OrphansExactly(s: State, step: Step)
    requires Inv(s) && Enabled(s, step)
    ensures Apply(s, step).orphans == s.orphans + LeftBehind(s, step) && s.orphans !! LeftBehind(s, step)
  {
    hide Inv, CanTick, DoTick, CanServe, DoServe, CanCall, DoCall, CanAdvance, Act;
    match step
    case Handling(h, serve) => HeldIsNoOrphan(s, h); ServeOrphans(s, h, serve);
    case Deliver(h, input) => HeldIsNoOrphan(s, h);
    case Ticking(t, tick) => TickOrphans(s, t, tick);
    case Calling(c, call) => CallOrphans(s, c, call);
    case Arrive(arrival) =>
    case Advance(w) =>
  }

  lemma HeldIsNoOrphan(s: State, h: nat)
    requires Inv(s) && HandlerAt(s, h)
    ensures Ids(s.handlers[h].clientId) !! s.orphans
  {
    OwnerAt(s.orphans, s.clients.Keys, s.handlers, h);
  }

  /** An orphaned subscription is never removed: it stays registered, and is sent every later round. */
  lemma OrphansAreForever(table: Table, s: State, id: nat, steps: seq<Step>, s': State)
    requires Reachable(table, s) && id in s.orphans && Run(s, steps) == Some(s') && Bounded(s')
    ensures SubAt(s, id) && id in s'.clients && SubAt(s', id) && !s'.subs[id].worker.pc.Exited?
    ensures s'.mutex == Free && s.mutex == Free ==> |s'.subs[id].sentAt| == |s.subs[id].sentAt| + RoundsIn(steps)
  {
    Continues(table, s, steps, s');
    assert s.orphans <= s.clients.Keys && s'.orphans <= s'.clients.Keys;
    CountAt(s', id);
    CountAt(s, id);
    assert SubEvolves(s.subs[id], s'.subs[id]);
    RoundsCounted(s, steps, s');
  }

  /** Client `id` is registered before and after, with its thread, queue and counts untouched, and only
      handler `h` has changed. */
  ghost predicate LeavesAlone(s: State, h: nat, id: nat, s': State) {
    && id in s.clients && id in s'.clients && s'.clients[id] == s.clients[id] == id
    && SubAt(s, id) && SubAt(s', id) && s'.subs[id] == s.subs[id]
    && |s'.handlers| == |s.handlers|
    && forall g: nat | HandlerAt(s, g) && g != h :: s'.handlers[g] == s.handlers[g]
  }

  /** What one handler does, STOP, timeout and read error included, leaves every registered client alone
      that it does not itself answer for. */
  lemma CallsAreIndependent(s: State, h: nat, serve: Serve, id: nat)
    requires Inv(s) && HandlerAt(s, h) && CanServe(s, h, serve) && Bounded(DoServe(s, h, serve))
    requires id in s.clients && id !in Held(s.handlers[h])
    ensures LeavesAlone(s, h, id, DoServe(s, h, serve))
  {
    hide Inv;
    RegisteredAt(s, id);
    match serve
    case Take => TakeFindsClient(s, h);
    case FinishRemove => JoiningIsFirst(s, h);
    case Insert => InsertionRecorded(s, h);
    case _ =>
  }

  lemma InputsAreIndependent(s: State, h: nat, input: Input, id: nat)
    requires Inv(s) && HandlerAt(s, h) && CanDeliver(s, h, input) && id in s.clients
    ensures LeavesAlone(s, h, id, DoDeliver(s, h, input))
  {
    hide Inv;
    RegisteredAt(s, id);
  }

  lemma RegisteredAt(s: State, id: nat)
    requires Inv(s) && id in s.clients
    ensures s.clients[id] == id && SubAt(s, id) && s.subs[id].until == None
  {
  }
}
