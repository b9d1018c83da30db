/** One client thread and its command channel (the loop in src/client.rs:84-126). */
module Workers {
  import opened QuoteGenerators

  datatype Command = Update | Shutdown

  /** What one processed Update handed to the callback, with the table version it read. */
  datatype Batch = Batch(version: nat, messages: seq<Quote>)

  datatype Pc =
    | Receiving
    | WantsRead
    | Reading(version: nat, next: nat, messages: seq<Quote>)
    | Exited

  /** `queue` is the channel, `open` whether its sender still exists, `done` the callback history. */
  datatype Worker = Worker(tickers: seq<string>, queue: seq<Command>, open: bool, pc: Pc, done: seq<Batch>)

  /** The table as seen under the read lock. */
  datatype View = View(table: Table, version: nat)

  function NewWorker(tickers: seq<string>): Worker {
    Worker(tickers, [], true, Receiving, [])
  }

  /** The messages one Update produces: a quote for each subscribed ticker that the table has. */
  function Wanted(tickers: seq<string>, t: Table): seq<Quote> {
    if tickers == [] then []
    else
      var n := |tickers| - 1;
      Wanted(tickers[..n], t) + Lookup(tickers[n], t)
  }

  function Lookup(ticker: string, t: Table): seq<Quote> {
    if ticker in t then [t[ticker]] else []
  }

  lemma WantedNext(tickers: seq<string>, i: nat, t: Table)
    requires i < |tickers|
    ensures Wanted(tickers[..i + 1], t) == Wanted(tickers[..i], t) + Lookup(tickers[i], t)
  {
    assert tickers[..i + 1][..i] == tickers[..i];
    assert tickers[..i + 1][i] == tickers[i];
  }

  /** Whether the thread has something to do, the read lock permitting. */
  predicate Runnable(w: Worker) {
    match w.pc
    case Receiving => w.queue != [] || !w.open
    case WantsRead => true
    case Reading(_, _, _) => true
    case Exited => false
  }

  /** One atomic action of the client loop. The channel disappears with the receiver on exit. */
  function Act(w: Worker, view: View): Worker
    requires Runnable(w)
  {
    match w.pc
    case Receiving =>
      if w.queue == [] || w.queue[0] == Shutdown then w.(queue := [], pc := Exited)
      else w.(queue := w.queue[1..], pc := WantsRead)
    case WantsRead => w.(pc := Reading(view.version, 0, []))
    case Reading(version, next, messages) =>
      if next < |w.tickers| then
        w.(pc := Reading(version, next + 1, messages + Lookup(w.tickers[next], view.table)))
      else w.(pc := Receiving, done := w.done + [Batch(version, messages)])
  }

  /** A run of the thread alone; the table may differ from one action to the next. */
  function RunAlone(w: Worker, views: seq<View>): Worker {
    if views == [] then w
    else
      var before := RunAlone(w, views[..|views| - 1]);
      if Runnable(before) then Act(before, views[|views| - 1]) else before
  }

  // ----- filtered delivery -----

  function Present(tickers: seq<string>, t: Table): seq<string> {
    if tickers == [] then []
    else
      var n := |tickers| - 1;
      Present(tickers[..n], t) + if tickers[n] in t then [tickers[n]] else []
  }

  function TickersOf(messages: seq<Quote>): (tickers: seq<string>)
    ensures |tickers| == |messages|
  {
    seq(|messages|, i requires 0 <= i < |messages| => messages[i].ticker)
  }

  /** An Update calls back for exactly the subscribed tickers that exist, in subscription order and
      with repetitions, and every message carries the ticker asked for and that ticker's quote. */
  lemma {:induction false} WantedIsFiltered(tickers: seq<string>, t: Table)
    requires TableOk(t)
    ensures TickersOf(Wanted(tickers, t)) == Present(tickers, t)
    ensures forall q | q in Wanted(tickers, t) :: q.ticker in t && q == t[q.ticker] && q.ticker in tickers
  {
    if tickers != [] {
      var n := |tickers| - 1;
      WantedIsFiltered(tickers[..n], t);
      assert tickers == tickers[..n] + [tickers[n]];
      if tickers[n] in t {
        assert QuoteOk(tickers[n], t[tickers[n]]);
      }
      assert TickersOf(Wanted(tickers, t)) == TickersOf(Wanted(tickers[..n], t)) + TickersOf(Lookup(tickers[n], t));
    }
  }

  // ----- accounting -----

  /** Updates still to be received: those in front of the first Shutdown. */
  function Pending(queue: seq<Command>): nat {
    if queue == [] || queue[0] == Shutdown then 0 else 1 + Pending(queue[1..])
  }

  function InProgress(pc: Pc): nat {
    if pc.WantsRead? || pc.Reading? then 1 else 0
  }

  /** Updates received so far, being processed, or still queued. */
  function Accepted(w: Worker): nat {
    |w.done| + InProgress(w.pc) + Pending(w.queue)
  }

  lemma {:induction false} PendingPush(queue: seq<Command>, cmd: Command)
    ensures Shutdown !in queue ==> Pending(queue + [cmd]) == Pending(queue) + if cmd == Update then 1 else 0
    ensures cmd == Shutdown ==> Pending(queue + [cmd]) == Pending(queue)
  {
    if queue != [] {
      assert (queue + [cmd])[1..] == queue[1..] + [cmd];
      PendingPush(queue[1..], cmd);
    }
  }

  /** Own actions needed to empty the queue up to the first Shutdown. */
  function QueueWork(n: nat, queue: seq<Command>): nat {
    if queue == [] || queue[0] == Shutdown then 0 else n + 3 + QueueWork(n, queue[1..])
  }

  function PcWork(n: nat, pc: Pc): nat {
    match pc
    case Receiving => 1
    case WantsRead => n + 3
    case Reading(_, next, _) => if next <= n then n - next + 2 else 2
    case Exited => 0
  }

  /** Own actions left before the thread exits, once it is going to. */
  function Work(w: Worker): nat {
    QueueWork(|w.tickers|, w.queue) + PcWork(|w.tickers|, w.pc)
  }

  predicate WellFormed(w: Worker) {
    && (w.pc.Reading? ==> w.pc.next <= |w.tickers|)
    && (w.pc.Exited? ==> w.queue == [])
  }

  /** Nothing further can be asked of the thread: a Shutdown is queued or the sender is gone. */
  predicate Ending(w: Worker) {
    w.pc.Exited? || !w.open || Shutdown in w.queue
  }

  lemma WorkLeft(w: Worker)
    requires WellFormed(w)
    ensures Work(w) == 0 <==> w.pc.Exited?
  {
  }

  /** Every action uses up exactly one unit of work, loses no Update, and keeps an ending thread ending. */
  lemma StepAccounting(w: Worker, view: View)
    requires WellFormed(w) && Runnable(w)
    ensures WellFormed(Act(w, view))
    ensures Work(Act(w, view)) == Work(w) - 1
    ensures Accepted(Act(w, view)) == Accepted(w)
    ensures w.done <= Act(w, view).done
    ensures Ending(w) ==> Ending(Act(w, view))
  {
    if w.pc.Receiving? && w.queue != [] && w.queue[0] == Update {
      assert w.queue == [Update] + w.queue[1..];
    }
  }

  /** Whatever happens to the table meanwhile, an ending thread exits after exactly `Work(w)` actions
      of its own and has then processed exactly the Updates accepted before its end: every one
      in progress, every one queued in front of a Shutdown, and no other. */
  lemma {:induction false} EndingWorkerDrains(w: Worker, views: seq<View>)
    requires WellFormed(w) && Ending(w)
    ensures WellFormed(RunAlone(w, views)) && Ending(RunAlone(w, views)) && Accepted(RunAlone(w, views)) == Accepted(w)
    ensures Work(RunAlone(w, views)) == if |views| <= Work(w) then Work(w) - |views| else 0
    ensures |views| >= Work(w) <==> RunAlone(w, views).pc.Exited?
    ensures RunAlone(w, views).pc.Exited? ==> |RunAlone(w, views).done| == Accepted(w)
  {
    WorkLeft(w);
    if views != [] {
      var n := |views| - 1;
      var before := RunAlone(w, views[..n]);
      EndingWorkerDrains(w, views[..n]);
      WorkLeft(before);
      if Runnable(before) {
        StepAccounting(before, views[n]);
      }
    }
    WorkLeft(RunAlone(w, views));
  }
}
