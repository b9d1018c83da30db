/** The client object and its thread (src/client.rs). */
module Clients {
  import opened Defs
  import opened QuoteGenerators
  import opened Workers

  datatype ClientError = InitializationError

  /** `n` actions of a thread that sees the same table throughout. */
  ghost function AloneFor(start: Worker, view: View, n: nat): Worker {
    RunAlone(start, seq(n, _ => view))
  }

  /** A spawned client thread together with the receiving end of its channel. */
  class ClientThread {
    var worker: Worker

    constructor (tickers: seq<string>)
      ensures worker == NewWorker(tickers)
    {
      worker := NewWorker(tickers);
    }

    /** The body of the thread: receive, serve every Update under the read lock whatever the callback answers,
        stop at Shutdown or when the sender is gone. `views(n)` is the table that the n-th Update finds. It
        returns when it has exited or would block in `recv`; `seen` are the tables at its actions. */
    method Loop(views: nat -> View, accepts: Quote -> bool) returns (ghost seen: seq<View>)
      requires worker.pc.Receiving?
      modifies this
      ensures worker == RunAlone(old(worker), seen)
      ensures worker.pc.Exited? || (worker.pc.Receiving? && worker.queue == [] && worker.open)
      ensures |worker.done| == |old(worker).done| + Pending(old(worker).queue) && old(worker).done <= worker.done
      ensures forall n: nat | n < Pending(old(worker).queue) ::
                worker.done[|old(worker).done| + n] == Batch(views(n).version, Wanted(worker.tickers, views(n).table))
    {
      hide Wanted, RunAlone;
      seen := [];
      StartsThere(worker);
      var served := 0;
      while true
        invariant worker.pc.Receiving? && worker.tickers == old(worker).tickers && worker.open == old(worker).open
        invariant worker == RunAlone(old(worker), seen)
        invariant served + Pending(worker.queue) == Pending(old(worker).queue)
        invariant |worker.done| == |old(worker).done| + served && old(worker).done <= worker.done
        invariant forall n: nat | n < served ::
                    worker.done[|old(worker).done| + n] ==
                      Batch(views(n).version, Wanted(worker.tickers, views(n).table))
        decreases |worker.queue|
      {
        if worker.queue == [] {
          if worker.open {
            return;
          }
          ActNext(old(worker), seen, views(served));
          seen := seen + [views(served)];
          worker := worker.(pc := Exited);
          return;
        }
        var cmd := worker.queue[0];
        ActNext(old(worker), seen, views(served));
        seen := seen + [views(served)];
        if cmd == Shutdown {
          worker := worker.(queue := [], pc := Exited);
          return;
        }
        worker := worker.(queue := worker.queue[1..], pc := WantsRead);
        seen := Serve(old(worker), seen, views(served), accepts);
        served := served + 1;
      }
    }

    /** One Update: take the read lock and call back for each subscribed ticker that the table has. */
    method Serve(ghost start: Worker, ghost before: seq<View>, view: View, accepts: Quote -> bool)
      returns (ghost seen: seq<View>)
      requires worker.pc.WantsRead? && worker == RunAlone(start, before)
      modifies this
      ensures worker == old(worker).(pc := Receiving,
                                     done := old(worker).done
                                             + [Batch(view.version, Wanted(old(worker).tickers, view.table))])
      ensures worker == RunAlone(start, seen)
    {
      hide RunAlone;
      var tickers := worker.tickers;
      ActNext(start, before, view);
      seen := before + [view];
      worker := worker.(pc := Reading(view.version, 0, []));
      var processedCount := 0;
      var messages := [];
      for i := 0 to |tickers|
        invariant messages == Wanted(tickers[..i], view.table)
        invariant worker == old(worker).(pc := Reading(view.version, i, messages))
        invariant worker == RunAlone(start, seen)
      {
        var ticker := tickers[i];
        WantedNext(tickers, i, view.table);
        if ticker in view.table {
          var q := view.table[ticker];
          messages := messages + [q];
          if accepts(q) {
            processedCount := processedCount + 1;
          }
        }
        ActNext(start, seen, view);
        seen := seen + [view];
        worker := worker.(pc := Reading(view.version, i + 1, messages));
      }
      assert tickers[..|tickers|] == tickers;
      ActNext(start, seen, view);
      seen := seen + [view];
      worker := worker.(pc := Receiving, done := worker.done + [Batch(view.version, messages)]);
    }

    /** `JoinHandle::join`: the thread takes its remaining actions, each under whatever table it then sees. */
    method Join(views: seq<View>)
      requires WellFormed(worker) && Ending(worker) && |views| == Work(worker)
      modifies this
      ensures worker == RunAlone(old(worker), views)
      ensures worker.pc.Exited? && worker.queue == [] && |worker.done| == Accepted(old(worker))
    {
      var i := 0;
      EndingWorkerDrains(worker, []);
      while !worker.pc.Exited?
        invariant i <= |views| && worker == RunAlone(old(worker), views[..i])
        invariant WellFormed(worker) && Ending(worker) && Work(worker) == |views| - i
        invariant Accepted(worker) == Accepted(old(worker))
        decreases Work(worker)
      {
        WorkLeft(worker);
        StepAccounting(worker, views[i]);
        assert views[..i + 1][..i] == views[..i];
        worker := Act(worker, views[i]);
        i := i + 1;
      }
      WorkLeft(worker);
      assert views[..i] == views;
    }
  }

  lemma StartsThere(w: Worker)
    ensures RunAlone(w, []) == w
  {
  }

  lemma ActNext(start: Worker, seen: seq<View>, view: View)
    requires Runnable(RunAlone(start, seen))
    ensures RunAlone(start, seen + [view]) == Act(RunAlone(start, seen), view)
  {
    assert (seen + [view])[..|seen|] == seen;
  }

  lemma ActOnce(start: Worker, view: View, n: nat)
    requires Runnable(AloneFor(start, view, n))
    ensures AloneFor(start, view, n + 1) == Act(AloneFor(start, view, n), view)
  {
    assert seq(n + 1, _ => view)[..n] == seq(n, _ => view);
  }

  class Client {
    const tickers: seq<string>
    var tx: ClientThread?
    var threadHandle: ClientThread?

    /** Sender and handle always belong to the same thread. */
    ghost predicate Valid()
      reads this, tx
    {
      && tx == threadHandle
      && (tx != null ==> tx.worker.tickers == tickers && WellFormed(tx.worker) && tx.worker.open)
    }

    constructor (tickers: seq<string>)
      ensures Valid() && this.tickers == tickers && tx == null
    {
      this.tickers := tickers;
      tx, threadHandle := null, null;
    }

    /** Spawns a thread on a new channel. The sender of an earlier thread is dropped and its handle
        forgotten: that thread drains what it has been sent and then finds its channel closed. */
    method Start()
      requires Valid()
      modifies this, tx
      ensures Valid() && fresh(tx) && tx.worker == NewWorker(tickers)
      ensures old(tx) != null ==> old(tx).worker == old(tx.worker).(open := false)
    {
      var thread := new ClientThread(tickers);
      if tx != null {
        tx.worker := tx.worker.(open := false);
      }
      tx := thread;
      threadHandle := thread;
    }

    /** `Client::send`. Shutdown returns only when the thread has processed every Update sent before it
        and has exited; sends fail without effect on a client that is not started, or shut down, or
        whose thread is gone. `views` are the tables the thread sees while it is being joined. */
    method Send(cmd: Command, views: seq<View>) returns (r: Result<(), ClientError>)
      requires Valid()
      requires cmd == Shutdown && tx != null && !tx.worker.pc.Exited? ==>
                 |views| == Work(tx.worker.(queue := tx.worker.queue + [Shutdown]))
      modifies this, tx
      ensures Valid()
      ensures r.Ok? <==> old(tx) != null && !old(tx.worker).pc.Exited?
      ensures r.Err? ==> tx == old(tx) && (tx != null ==> tx.worker == old(tx.worker))
      ensures r.Ok? && cmd == Update ==>
                tx == old(tx) && tx.worker == old(tx.worker).(queue := old(tx.worker).queue + [Update])
      ensures r.Ok? && cmd == Shutdown ==>
                && tx == null && threadHandle == null
                && var pushed := old(tx.worker).(queue := old(tx.worker).queue + [Shutdown]);
                   old(tx).worker == RunAlone(pushed, views).(open := false)
                   && old(tx).worker.pc.Exited?
                   && |old(tx).worker.done| == Accepted(old(tx.worker))
    {
      if tx == null {
        return Err(InitializationError);
      }
      if tx.worker.pc.Exited? {
        return Err(InitializationError);
      }
      PendingPush(tx.worker.queue, cmd);
      tx.worker := tx.worker.(queue := tx.worker.queue + [cmd]);
      if cmd == Shutdown {
        if threadHandle != null {
          threadHandle.Join(views);
          threadHandle := null;
        }
        tx.worker := tx.worker.(open := false);
        tx := null;
      }
      return Ok(());
    }

    /** `Drop`: a last Shutdown if a sender is left, then the join; nothing runs afterwards. */
    method DropClient(views: seq<View>)
      requires Valid()
      requires tx != null ==> |views| == Work(AfterDrop(tx.worker))
      modifies this, tx
      ensures old(tx) != null ==> old(tx).worker == RunAlone(AfterDrop(old(tx.worker)), views)
      ensures old(tx) != null ==> old(tx).worker.pc.Exited? && |old(tx).worker.done| == Accepted(old(tx.worker))
      ensures threadHandle == null
    {
      if tx != null {
        PendingPush(tx.worker.queue, Shutdown);
        tx.worker := AfterDrop(tx.worker);
      }
      if threadHandle != null {
        threadHandle.Join(views);
        threadHandle := null;
      }
    }
  }

  /** The last send of `Drop` goes nowhere when the receiver is gone. */
  function AfterDrop(w: Worker): Worker {
    if w.pc.Exited? then w else w.(queue := w.queue + [Shutdown])
  }

  // ----- restarting a client -----

  /** The thread abandoned by a second `start` is never lost: with its sender dropped it processes every
      Update it had accepted and exits after exactly its remaining work, and it never sees a Shutdown. */
  lemma AbandonedThreadDrains(w: Worker, views: seq<View>)
    requires WellFormed(w) && Shutdown !in w.queue && |views| >= Work(w)
    ensures var last := RunAlone(w.(open := false), views);
            last.pc.Exited? && |last.done| == Accepted(w) && w.done <= last.done
  {
    EndingWorkerDrains(w.(open := false), views);
    RunKeepsDone(w.(open := false), views);
  }

  lemma {:induction false} RunKeepsDone(w: Worker, views: seq<View>)
    requires WellFormed(w)
    ensures w.done <= RunAlone(w, views).done && WellFormed(RunAlone(w, views))
  {
    if views != [] {
      var n := |views| - 1;
      RunKeepsDone(w, views[..n]);
      if Runnable(RunAlone(w, views[..n])) {
        StepAccounting(RunAlone(w, views[..n]), views[n]);
      }
    }
  }
}
