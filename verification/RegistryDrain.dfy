/** After `shutdown` has raised the flag, and without new connections, commands or calls, every thread
    of the server comes to rest, whatever the scheduling. */
module RegistryDrain {
  import opened Defs
  import opened Workers
  import opened Registry
  import opened RegistryInvariants
  import opened RegistryRuns
  import opened RegistryLiveness

  // ----- sums over threads -----

  function Sum<T>(xs: seq<T>, f: T -> nat): nat {
    if xs == [] then 0 else Sum(xs[..|xs| - 1], f) + f(xs[|xs| - 1])
  }

  lemma {:induction false} SumChange<T>(xs: seq<T>, i: nat, x: T, f: T -> nat)
    requires i < |xs|
    ensures Sum(xs[i := x], f) + f(xs[i]) == Sum(xs, f) + f(x)
  {
    var n := |xs| - 1;
    if i == n {
      assert xs[i := x][..n] == xs[..n];
    } else {
      assert xs[i := x][..n] == xs[..n][i := x];
      SumChange(xs[..n], i, x, f);
    }
  }

  // ----- the work left -----

  function CallerWork(pc: CallerPc): nat {
    match pc
    case Storing => 4
    case TakeWaiting => 3
    case StartWaiting => 3
    case TakeHolding => 2
    case StartHolding => 2
    case JoiningTicker(_) => 1
    case Returned(_) => 0
  }

  function TickerWork(k: Ticker): nat {
    match k.pc
    case Sleeping => 6
    case Trying(_) => 5
    case Writing(_, _) => 4
    case WantsClients => 3
    case Notifying(_) => 2
    case Checking => 1
    case Stopped => 0
  }

  /** Rounds of the loop a ticker is in: lock attempts, quotes to write, clients to notify. */
  function LoopWork(k: Ticker): nat {
    match k.pc
    case Trying(elapsed) => if elapsed < WRITE_TIMEOUT_MS then WRITE_TIMEOUT_MS - elapsed else 0
    case Writing(todo, _) => |todo|
    case Notifying(pending) => |pending|
    case _ => 0
  }

  function HandlerWork(k: Handler): nat {
    match k.pc
    case AddWaiting(_) => 3
    case AddHolding(_) => 2
    case Added(_) => 1
    case RemWaiting(_, _) => 3
    case RemHolding(_, _) => 2
    case Joining(_, _, _) => 1
    case _ => 0
  }

  function SubWork(e: Sub): nat {
    Work(e.worker)
  }

  /** Clients that handlers are still about to add. */
  function AddsPending(k: Handler): nat {
    if k.pc.AddWaiting? || k.pc.AddHolding? then 1 else 0
  }

  datatype Measure = Measure(callers: nat, tickers: nat, loops: nat, handlers: nat, clients: nat)

  function WorkLeftIn(s: State): Measure {
    Measure(Sum(s.callers, CallerWork), Sum(s.tickers, TickerWork), Sum(s.tickers, LoopWork),
            Sum(s.handlers, HandlerWork), Sum(s.subs, SubWork))
  }

  /** Lexicographic order. */
  predicate Less(a: Measure, b: Measure) {
    || a.callers < b.callers
    || (a.callers == b.callers && a.tickers < b.tickers)
    || (a.callers == b.callers && a.tickers == b.tickers && a.loops < b.loops)
    || (a.callers == b.callers && a.tickers == b.tickers && a.loops == b.loops && a.handlers < b.handlers)
    || (a.callers == b.callers && a.tickers == b.tickers && a.loops == b.loops && a.handlers == b.handlers
        && a.clients < b.clients)
  }

  /** A step of one of the server's own threads. */
  predicate Internal(step: Step) {
    !step.Arrive? && !step.Deliver?
  }

  lemma TickUses(s: State, t: nat, tick: Tick)
    requires TickerAt(s, t) && CanTick(s, t, tick) && s.flag
    ensures Less(WorkLeftIn(DoTick(s, t, tick)), WorkLeftIn(s))
    ensures var s' := DoTick(s, t, tick); s'.flag && s'.handlers == s.handlers && |s'.subs| == |s.subs|
  {
    hide Sum;
    var k := DoTick(s, t, tick).tickers[t];
    SumChange(s.tickers, t, k, TickerWork);
    SumChange(s.tickers, t, k, LoopWork);
  }

  lemma CallUses(s: State, c: nat, call: Call)
    requires CallerAt(s, c) && CanCall(s, c, call) && s.flag
    ensures Less(WorkLeftIn(DoCall(s, c, call)), WorkLeftIn(s))
    ensures var s' := DoCall(s, c, call); s'.flag && s'.handlers == s.handlers && |s'.subs| == |s.subs|
  {
    hide Sum;
    SumChange(s.callers, c, DoCall(s, c, call).callers[c], CallerWork);
  }

  lemma ServeUses(s: State, h: nat, serve: Serve)
    requires HandlerAt(s, h) && CanServe(s, h, serve) && s.flag
    ensures Less(WorkLeftIn(DoServe(s, h, serve)), WorkLeftIn(s))
    ensures var s' := DoServe(s, h, serve);
            s'.flag && |s'.subs| + Sum(s'.handlers, AddsPending) == |s.subs| + Sum(s.handlers, AddsPending)
  {
    hide Sum;
    var k := DoServe(s, h, serve).handlers[h];
    SumChange(s.handlers, h, k, HandlerWork);
    SumChange(s.handlers, h, k, AddsPending);
  }

  lemma AdvanceUses(s: State, w: nat)
    requires Inv(s) && SubAt(s, w) && CanAdvance(s, w) && s.flag
    ensures Less(WorkLeftIn(DoAdvance(s, w)), WorkLeftIn(s))
    ensures var s' := DoAdvance(s, w); s'.flag && s'.handlers == s.handlers && |s'.subs| == |s.subs|
  {
    hide Sum, Inv;
    JoinedHasExited(s, w);
    StepAccounting(s.subs[w].worker, CurrentView(s));
    SumChange(s.subs, w, DoAdvance(s, w).subs[w], SubWork);
  }

  /** The flag is up, and the additions under way fit the id counter. */
  ghost predicate Closing(s: State) {
    Inv(s) && s.flag && |s.subs| + Sum(s.handlers, AddsPending) <= U64_BOUND
  }

  /** Every step of the server's own threads leaves less work, lexicographically. */
  lemma InternalStepUses(s: State, step: Step)
    requires Closing(s) && Enabled(s, step) && Internal(step)
    ensures Less(WorkLeftIn(Apply(s, step)), WorkLeftIn(s))
    ensures Bounded(Apply(s, step)) && Closing(Apply(s, step))
  {
    hide Inv, Sum, WorkLeftIn, Less;
    match step {
      case Ticking(t, tick) => TickUses(s, t, tick);
      case Calling(c, call) => CallUses(s, c, call);
      case Handling(h, serve) => ServeUses(s, h, serve);
      case Advance(w) => AdvanceUses(s, w);
    }
    InvStep(s, step);
  }

  ghost predicate AllAtRest(s: State) {
    forall a | Alive(s, a) :: AtRest(s, a)
  }

  ghost predicate AllInternal(steps: seq<Step>) {
    forall i | 0 <= i < |steps| :: Internal(steps[i])
  }

  lemma BusyCanStep(s: State) returns (step: Step)
    requires Inv(s) && !AllAtRest(s)
    ensures Enabled(s, step) && Internal(step)
  {
    hide Inv, AtRest;
    var a :| Alive(s, a) && !AtRest(s, a);
    UnblockedCanStep(s, Unblocker(s, a));
    step :| StepOf(Unblocker(s, a), step) && Enabled(s, step);
  }

  /** Every Update ever sent to a client has been processed. */
  ghost predicate AllDelivered(s: State) {
    forall w: nat | SubAt(s, w) :: |s.subs[w].worker.done| == |s.subs[w].sentAt|
  }

  lemma RestIsDelivered(s: State)
    requires Inv(s) && AllAtRest(s)
    ensures AllDelivered(s)
  {
    hide Inv;
    forall w: nat | SubAt(s, w) ensures |s.subs[w].worker.done| == |s.subs[w].sentAt| {
      assert Alive(s, ClientThread(w));
      InvCountAt(s, w);
    }
  }

  lemma InvCountAt(s: State, w: nat)
    requires Inv(s) && SubAt(s, w)
    ensures WellFormed(s.subs[w].worker) && Accepted(s.subs[w].worker) == |s.subs[w].sentAt|
  {
    CountAt(s, w);
  }

  /** Shutdown completes: from any state with the flag up, the server's own threads can always go on
      until every ticker has stopped, every caller has returned, every handler is idle or closed, every
      client thread has emptied its queue, and every Update sent has been processed. */
  lemma ComesToRest(s: State) returns (steps: seq<Step>, s': State)
    requires Closing(s)
    ensures AllInternal(steps) && Run(s, steps) == Some(s') && AllAtRest(s') && Closing(s') && AllDelivered(s')
    decreases WorkLeftIn(s).callers, WorkLeftIn(s).tickers, WorkLeftIn(s).loops, WorkLeftIn(s).handlers,
              WorkLeftIn(s).clients
  {
    hide Inv, AllAtRest, AllDelivered, Enabled, Closing;
    ClosingHasInv(s);
    if AllAtRest(s) {
      RestIsDelivered(s);
      return [], s;
    }
    var step := BusyCanStep(s);
    InternalStepUses(s, step);
    var rest;
    rest, s' := ComesToRest(Apply(s, step));
    steps := [step] + rest;
    RunOne(s, step);
    RunConcat(s, [step], rest);
  }

  lemma ClosingHasInv(s: State)
    requires Closing(s)
    ensures Inv(s)
  {
  }

  ghost predicate InternalStep(s: State, step: Step, s': State) {
    Internal(step) && Enabled(s, step) && s' == Apply(s, step)
  }

  lemma Descends(states: nat -> State, steps: nat -> Step, i: nat)
    requires Closing(states(i))
    requires forall j: nat :: InternalStep(states(j), steps(j), states(j + 1))
    ensures false
    decreases WorkLeftIn(states(i)).callers, WorkLeftIn(states(i)).tickers, WorkLeftIn(states(i)).loops,
              WorkLeftIn(states(i)).handlers, WorkLeftIn(states(i)).clients
  {
    hide Closing, Inv, Enabled;
    assert InternalStep(states(i), steps(i), states(i + 1));
    InternalStepUses(states(i), steps(i));
    Descends(states, steps, i + 1);
  }

  /** And no scheduling can prevent it: after the flag is up, every schedule of internal steps is finite. */
  lemma NoEndlessSchedule(states: nat -> State, steps: nat -> Step)
    requires Closing(states(0))
    ensures exists j: nat :: !InternalStep(states(j), steps(j), states(j + 1))
  {
    if forall j: nat :: InternalStep(states(j), steps(j), states(j + 1)) {
      Descends(states, steps, 0);
    }
  }
}
