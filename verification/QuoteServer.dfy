/** The server object (src/quote_server.rs). Every method that takes a lock is followed through its
    critical section and proved to perform a schedule of the transition system in `Registry`. */
module QuoteServers {
  import opened Defs
  import opened Text
  import opened QuoteGenerators
  import opened Workers
  import opened Clients
  import opened Registry
  import opened RegistryInvariants
  import opened RegistryRuns
  import opened RegistryLiveness
  import opened RegistryJoin

  datatype ServerError = InvalidConfig | InitializationError | UpdateQuoteError | ClientError

  // ----- from_config -----

  /** The tickers of a configuration: its lines trimmed and put in upper case, blank ones dropped. */
  ghost function Tickers(lines: seq<string>, upper: string -> string): set<string> {
    set l | l in lines && upper(Trim(l)) != [] :: upper(Trim(l))
  }

  /** The reading loop of `QuoteServer::from_config`. A line that cannot be read is None; `upper` is the
      Unicode case mapping, and `fraction` and `now` the random price and the clock of `StockQuote::new`. */
  method LoadConfig(lines: seq<Option<string>>, upper: string -> string, fraction: nat -> real, now: nat -> u64)
    returns (r: Result<Table, ServerError>, tickerCount: nat)
    requires forall i :: 0.0 <= fraction(i) < 1.0
    ensures r.Err? <==> None in lines
    ensures r.Ok? ==> r.value.Keys == Tickers(Texts(lines), upper) && TableOk(r.value) && Initial(r.value)
    ensures r.Ok? ==> |r.value| <= tickerCount <= |lines| && Dated(lines, upper, fraction, now, r.value)
  {
    hide Trim, Loaded;
    var hashmap: Table := map[];
    tickerCount := 0;
    NothingLoaded(upper, fraction, now);
    for i := 0 to |lines|
      invariant None !in lines[..i] && Loaded(lines[..i], upper, fraction, now, hashmap, tickerCount)
    {
      assert lines[..i + 1] == lines[..i] + [lines[i]];
      if lines[i] == None {
        return Err(InvalidConfig), tickerCount;
      }
      var ticker := upper(Trim(lines[i].value));
      LineLoaded(lines[..i], lines[i].value, upper, fraction, now, hashmap, tickerCount);
      if ticker != [] {
        hashmap := hashmap[ticker := NewQuote(ticker, fraction(i), now(i))];
        tickerCount := tickerCount + 1;
      }
    }
    assert lines[..|lines|] == lines;
    LoadedMeans(lines, upper, fraction, now, hashmap, tickerCount);
    return Ok(hashmap), tickerCount;
  }

  /** What has been made of the lines read so far. */
  ghost predicate Loaded(lines: seq<Option<string>>, upper: string -> string, fraction: nat -> real, now: nat -> u64,
                         t: Table, tickerCount: nat) {
    && t.Keys == Tickers(Texts(lines), upper) && [] !in t && TableOk(t) && Initial(t)
    && |t| <= tickerCount <= |lines| && Dated(lines, upper, fraction, now, t)
  }

  lemma LoadedMeans(lines: seq<Option<string>>, upper: string -> string, fraction: nat -> real, now: nat -> u64,
                    t: Table, tickerCount: nat)
    requires Loaded(lines, upper, fraction, now, t, tickerCount)
    ensures t.Keys == Tickers(Texts(lines), upper) && TableOk(t) && Initial(t)
    ensures |t| <= tickerCount <= |lines| && Dated(lines, upper, fraction, now, t)
  {
  }

  lemma LineLoaded(lines: seq<Option<string>>, text: string, upper: string -> string, fraction: nat -> real,
                   now: nat -> u64, t: Table, tickerCount: nat)
    requires Loaded(lines, upper, fraction, now, t, tickerCount) && 0.0 <= fraction(|lines|) < 1.0
    ensures var k, all, n := upper(Trim(text)), lines + [Some(text)], |lines|;
            if k == [] then Loaded(all, upper, fraction, now, t, tickerCount)
            else Loaded(all, upper, fraction, now, t[k := NewQuote(k, fraction(n), now(n))], tickerCount + 1)
  {
    hide Trim, Tickers, Texts, Initial, TableOk, Dated;
    TextsAppend(lines, text);
    TickersAppend(Texts(lines), text, upper);
    DatedMore(lines, text, upper, fraction, now, t);
    if upper(Trim(text)) != [] {
      InsertNew(t, upper(Trim(text)), fraction(|lines|), now(|lines|));
    }
  }

  /** Line `i` is the last one that names ticker `k`. */
  ghost predicate LastNamed(lines: seq<Option<string>>, upper: string -> string, k: string, i: nat) {
    && i < |lines| && lines[i].Some? && upper(Trim(lines[i].value)) == k
    && forall j | i < j < |lines| && lines[j].Some? :: upper(Trim(lines[j].value)) != k
  }

  /** Every quote has the price and the time drawn at the last line that names it. */
  ghost predicate Dated(lines: seq<Option<string>>, upper: string -> string, fraction: nat -> real, now: nat -> u64,
                        t: Table) {
    forall k | k in t :: exists i: nat ::
      LastNamed(lines, upper, k, i) && t[k].price / 1000.0 == fraction(i) && t[k].timestamp == now(i)
  }

  lemma DatedMore(lines: seq<Option<string>>, text: string, upper: string -> string, fraction: nat -> real,
                  now: nat -> u64, t: Table)
    requires Dated(lines, upper, fraction, now, t) && 0.0 <= fraction(|lines|) < 1.0
    requires upper(Trim(text)) == [] ==> [] !in t
    ensures var k, all := upper(Trim(text)), lines + [Some(text)];
            if k == [] then Dated(all, upper, fraction, now, t)
            else Dated(all, upper, fraction, now, t[k := NewQuote(k, fraction(|lines|), now(|lines|))])
  {
    hide Trim;
    var all, n, ticker := lines + [Some(text)], |lines|, upper(Trim(text));
    assert LastNamed(all, upper, ticker, n);
    forall k | k in t && k != ticker
      ensures exists i: nat ::
                LastNamed(all, upper, k, i) && t[k].price / 1000.0 == fraction(i) && t[k].timestamp == now(i)
    {
      var i: nat :| LastNamed(lines, upper, k, i) && t[k].price / 1000.0 == fraction(i) && t[k].timestamp == now(i);
      assert LastNamed(all, upper, k, i);
    }
  }

  /** The lines that could be read. */
  ghost function Texts(lines: seq<Option<string>>): seq<string> {
    if lines == [] then []
    else
      var n := |lines| - 1;
      Texts(lines[..n]) + if lines[n].Some? then [lines[n].value] else []
  }

  lemma TextsAppend(lines: seq<Option<string>>, text: string)
    ensures Texts(lines + [Some(text)]) == Texts(lines) + [text]
  {
    assert (lines + [Some(text)])[..|lines|] == lines;
  }

  lemma TickersAppend(lines: seq<string>, text: string, upper: string -> string)
    ensures Tickers(lines + [text], upper) ==
            Tickers(lines, upper) + if upper(Trim(text)) != [] then {upper(Trim(text))} else {}
  {
    assert forall l :: l in lines + [text] <==> l in lines || l == text;
  }

  /** No quote has been updated yet. */
  ghost predicate Initial(t: Table) {
    forall k | k in t :: t[k].volume == 0 && t[k].price < 1000.0
  }

  lemma NothingLoaded(upper: string -> string, fraction: nat -> real, now: nat -> u64)
    ensures Loaded([], upper, fraction, now, map[], 0)
  {
  }

  lemma InsertNew(t: Table, key: string, fraction: real, now: u64)
    requires TableOk(t) && Initial(t) && 0.0 <= fraction < 1.0
    ensures var t' := t[key := NewQuote(key, fraction, now)];
            TableOk(t') && Initial(t') && |t'| <= |t| + 1 && t'.Keys == t.Keys + {key}
  {
    var t' := t[key := NewQuote(key, fraction, now)];
    assert t'.Keys == t.Keys + {key};
    assert |t'| == |t'.Keys|;
  }

  // ----- update_quotes -----

  /** The time slept before the n-th attempt. */
  function Slept(sleeps: nat -> nat, n: nat): nat {
    if n == 0 then 0 else Slept(sleeps, n - 1) + sleeps(n - 1)
  }

  lemma SleptNext(sleeps: nat -> nat, n: nat)
    ensures Slept(sleeps, 0) == 0 && Slept(sleeps, n + 1) == Slept(sleeps, n) + sleeps(n)
  {
  }

  /** The lock-retry loop of `update_quotes`. `busy(i)` says whether the i-th `try_write` fails, `sleeps(i)`
      how long the sleep after it really takes, in milliseconds. */
  method UpdateQuotes(table: QuoteTable, busy: nat -> bool, sleeps: nat -> nat, draws: string -> Sample)
    returns (r: Result<(), ServerError>, attempts: nat, ghost touched: set<string>)
    requires forall i :: sleeps(i) >= QUOTE_UPDATE_RETRY_PERIOD_MSEC
    modifies table
    ensures attempts <= WRITE_TIMEOUT_MS / QUOTE_UPDATE_RETRY_PERIOD_MSEC == 100
    ensures (forall i: nat | i < attempts :: busy(i)) ==>
              r == Err(UpdateQuoteError) && table.quotes == old(table.quotes)
    ensures attempts > 0
    ensures forall i: nat | i < attempts :: Slept(sleeps, i) < WRITE_TIMEOUT_MS && (i < attempts - 1 ==> busy(i))
    ensures busy(attempts - 1) ==> Slept(sleeps, attempts) >= WRITE_TIMEOUT_MS
    ensures !busy(attempts - 1) ==> (r.Ok? <==> forall k | k in touched :: draws(k).now.Some?)
    ensures !busy(attempts - 1) && r.Err? ==> r.error == UpdateQuoteError && ClockFails(draws, touched)
    ensures r.Ok? ==> !busy(attempts - 1) && touched == table.quotes.Keys
    ensures table.quotes.Keys == old(table.quotes).Keys
    ensures !busy(0) && (forall k | k in table.quotes :: draws(k).now.Some?) ==>
              attempts == 1 && r.Ok? && touched == table.quotes.Keys
    ensures PartlyRefreshed(old(table.quotes), table.quotes, draws, touched)
    ensures old(TableOk(table.quotes)) ==> TableOk(table.quotes)
  {
    hide PartlyRefreshed, TableOk, Slept;
    SleptNext(sleeps, 0);
    NothingRefreshed(table.quotes, draws);
    var elapsed := 0;
    attempts := 0;
    touched := {};
    while elapsed < WRITE_TIMEOUT_MS
      invariant elapsed == Slept(sleeps, attempts) >= attempts * QUOTE_UPDATE_RETRY_PERIOD_MSEC
      invariant attempts <= 100 && (elapsed == 0 ==> attempts == 0)
      invariant forall i: nat | i < attempts :: busy(i) && Slept(sleeps, i) < WRITE_TIMEOUT_MS
      invariant table.quotes == old(table.quotes) && touched == {}
      decreases WRITE_TIMEOUT_MS - elapsed
    {
      attempts := attempts + 1;
      if !busy(attempts - 1) {
        var u;
        u, touched := table.UpdateQuotes(draws);
        r := if u.Ok? then Ok(()) else Err(UpdateQuoteError);
        return;
      }
      SleptNext(sleeps, attempts - 1);
      elapsed := elapsed + sleeps(attempts - 1);
    }
    return Err(UpdateQuoteError), attempts, touched;
  }

  // ----- update_quotes as a schedule -----

  lemma TodoInTable(s: State, t: nat)
    requires Inv(s) && TickerAt(s, t) && s.tickers[t].pc.Writing?
    ensures s.tickers[t].pc.todo <= s.table.Keys
  {
  }

  lemma NothingRefreshed(table: Table, draws: string -> Sample)
    ensures PartlyRefreshed(table, table, draws, {})
  {
  }

  lemma RefreshedOneMore(a: Table, b: Table, c: Table, draws: string -> Sample, key: string, visit: set<string>)
    requires key in visit && key in a && b == a[key := Refresh(a[key], draws(key))]
    requires PartlyRefreshed(b, c, draws, visit - {key})
    ensures PartlyRefreshed(a, c, draws, visit)
  {
    hide Refresh;
    assert b.Keys == a.Keys;
    forall k | k in a ensures c[k] == if k in visit then Refresh(a[k], draws(k)) else a[k] {
      assert k in b && b[k] == if k == key then Refresh(a[k], draws(k)) else a[k];
      assert c[k] == if k in visit - {key} then Refresh(b[k], draws(k)) else b[k];
    }
  }

  /** Some entry's clock fails. */
  ghost predicate ClockFails(draws: string -> Sample, keys: set<string>) {
    exists k :: k in keys && draws(k).now == None
  }

  lemma ClockFailsMore(draws: string -> Sample, key: string, keys: set<string>)
    requires key in keys
    ensures ClockFails(draws, keys) <==> draws(key).now == None || ClockFails(draws, keys - {key})
  {
    if k :| k in keys && draws(k).now == None && k != key {
      assert k in keys - {key};
    }
  }

  /** The ticker that holds the write lock refreshes the entries `visit`, in any order. */
  lemma {:induction false} WriteMany(s: State, t: nat, draws: string -> Sample, visit: set<string>) returns (s': State)
    requires Inv(s) && Bounded(s) && TickerAt(s, t) && s.tickers[t].pc.Writing? && visit <= s.tickers[t].pc.todo
    ensures Reaches(s, s') && Inv(s') && Bounded(s')
    ensures var pc := s.tickers[t].pc;
            s' == s.(tickers := s.tickers[t := s.tickers[t].(pc := Writing(pc.todo - visit, pc.failed
              || ClockFails(draws, visit)))],
                     table := s'.table)
    ensures PartlyRefreshed(s.table, s'.table, draws, visit)
    decreases visit
  {
    hide Inv, Run, Refresh, Reaches, PartlyRefreshed;
    if visit == {} {
      s' := s;
      ReachesSelf(s);
      NothingRefreshed(s.table, draws);
      assert s.tickers[t].pc.todo - visit == s.tickers[t].pc.todo;
      assert !ClockFails(draws, {});
    } else {
      var key :| key in visit;
      var next := WriteIs(s, t, key, draws(key));
      s' := WriteMany(next, t, draws, visit - {key});
      ReachesTrans(s, next, s');
      RefreshedOneMore(s.table, next.table, s'.table, draws, key, visit);
      ClockFailsMore(draws, key, visit);
      assert s.tickers[t].pc.todo - {key} - (visit - {key}) == s.tickers[t].pc.todo - visit;
    }
  }

  lemma WriteIs(s: State, t: nat, key: string, draw: Sample) returns (s': State)
    requires Inv(s) && Bounded(s) && TickerAt(s, t) && s.tickers[t].pc.Writing? && key in s.tickers[t].pc.todo
    ensures Reaches(s, s') && Inv(s') && Bounded(s') && key in s.table
    ensures s' == s.(tickers := s.tickers[t := s.tickers[t].(pc := Writing(s.tickers[t].pc.todo - {key},
                                                                      s.tickers[t].pc.failed || draw.now == None))],
                     table := s.table[key := Refresh(s.table[key], draw)])
  {
    hide Inv, Refresh;
    TodoInTable(s, t);
    var step := Ticking(t, WriteOne(key, draw));
    s' := Apply(s, step);
    InvStep(s, step);
    RunOne(s, step);
  }

  /** With the table free, what `UpdateQuotes` makes of it is what a schedule of the ticker publishes: lock,
      refresh the touched entries, unlock. A pass that a failing clock has aborted publishes what it has written. */
  lemma UpdateIsSchedule(s: State, t: nat, draws: string -> Sample, touched: set<string>, after: Table)
    returns (s': State)
    requires Inv(s) && Bounded(s) && TickerAt(s, t) && s.tickers[t].pc.Trying?
             && s.tickers[t].pc.elapsed < WRITE_TIMEOUT_MS
    requires s.writer == None && s.readers == {}
    requires PartlyRefreshed(s.table, after, draws, touched) && (touched == s.table.Keys || ClockFails(draws, touched))
    ensures Reaches(s, s') && Inv(s')
    ensures s' == s.(tickers := s.tickers[t := s.tickers[t].(pc := WantsClients)], table := after,
                     history := s.history + [after])
  {
    hide Inv, Run, Refresh;
    var locked := LockTableIs(s, t);
    var written := WriteMany(locked, t, draws, touched);
    assert written.table == after;
    s' := UnlockTableIs(written, t);
    ReachesTrans(s, locked, written);
    ReachesTrans(s, written, s');
  }

  lemma LockTableIs(s: State, t: nat) returns (s': State)
    requires Inv(s) && Bounded(s) && Enabled(s, Ticking(t, LockTable))
    ensures Reaches(s, s') && Inv(s') && Bounded(s')
    ensures s' == s.(tickers := s.tickers[t := s.tickers[t].(pc := Writing(s.table.Keys, false))], writer := Some(t))
  {
    hide Inv;
    s' := Apply(s, Ticking(t, LockTable));
    InvStep(s, Ticking(t, LockTable));
    RunOne(s, Ticking(t, LockTable));
  }

  lemma UnlockTableIs(s: State, t: nat) returns (s': State)
    requires Inv(s) && Bounded(s) && Enabled(s, Ticking(t, UnlockTable))
    ensures Reaches(s, s') && Inv(s')
    ensures s' == s.(tickers := s.tickers[t := s.tickers[t].(pc := WantsClients)], writer := None,
                     history := s.history + [s.table])
  {
    hide Inv;
    s' := Apply(s, Ticking(t, UnlockTable));
    InvStep(s, Ticking(t, UnlockTable));
    RunOne(s, Ticking(t, UnlockTable));
  }

  /** With the table locked throughout, the ticker retries until the time is up and goes on without update. */
  lemma {:induction false} GivesUp(s: State, t: nat, sleeps: nat -> nat, attempt: nat) returns (s': State)
    requires Inv(s) && Bounded(s) && TickerAt(s, t) && s.tickers[t].pc.Trying?
    requires !(s.writer == None && s.readers == {})
    requires forall i :: sleeps(i) >= QUOTE_UPDATE_RETRY_PERIOD_MSEC
    ensures Reaches(s, s') && Inv(s') && s' == s.(tickers := s.tickers[t := s.tickers[t].(pc := WantsClients)])
    decreases WRITE_TIMEOUT_MS - s.tickers[t].pc.elapsed
  {
    hide Inv, Run;
    if s.tickers[t].pc.elapsed >= WRITE_TIMEOUT_MS {
      s' := TickIs(s, t, GiveUp);
    } else {
      var next := TickIs(s, t, Retry(sleeps(attempt)));
      s' := GivesUp(next, t, sleeps, attempt + 1);
      ReachesTrans(s, next, s');
    }
  }

  lemma TickIs(s: State, t: nat, tick: Tick) returns (s': State)
    requires Inv(s) && Bounded(s) && Enabled(s, Ticking(t, tick)) && (tick.GiveUp? || tick.Retry?)
    ensures Reaches(s, s') && Inv(s') && Bounded(s')
    ensures var k := s.tickers[t];
            s' == s.(tickers := s.tickers[t := k.(pc := if tick.GiveUp? then WantsClients
                                                        else Trying(k.pc.elapsed + tick.delay))])
  {
    hide Inv;
    s' := Apply(s, Ticking(t, tick));
    InvStep(s, Ticking(t, tick));
    RunOne(s, Ticking(t, tick));
  }

  // ----- the registry methods -----

  /** `n` actions of one client thread while nothing else moves. */
  ghost function Actions(w: nat, n: nat): seq<Step> {
    seq(n, _ => Advance(w))
  }

  lemma OneMoreAction(s: State, w: nat, e: Sub, worker: Worker)
    requires |s.history| > 0 && s.writer == None && SubAt(s, w) && s.subs[w] == e.(worker := worker) && Runnable(worker)
    ensures Enabled(s, Advance(w))
    ensures var s' := Apply(s, Advance(w));
            && s' == s.(subs := s'.subs, readers := s'.readers)
            && s'.subs == s.subs[w := e.(worker := Act(worker, CurrentView(s)))]
  {
  }

  lemma ActionsOneMore(s: State, w: nat, n: nat)
    requires Run(s, Actions(w, n)).Some? && Enabled(Run(s, Actions(w, n)).value, Advance(w))
    ensures Run(s, Actions(w, n + 1)) == Some(Apply(Run(s, Actions(w, n)).value, Advance(w)))
  {
    hide Enabled, Apply;
    assert Actions(w, n + 1)[..n] == Actions(w, n);
  }

  /** An ending client thread can take its remaining actions one after the other. */
  lemma {:induction false} ThreadFinishes(s: State, w: nat, n: nat)
    requires |s.history| > 0 && s.writer == None && SubAt(s, w)
    requires WellFormed(s.subs[w].worker) && Ending(s.subs[w].worker) && n <= Work(s.subs[w].worker)
    ensures Run(s, Actions(w, n)).Some?
    ensures var s' := Run(s, Actions(w, n)).value;
            && s' == s.(subs := s'.subs, readers := s'.readers)
            && s'.subs == s.subs[w := s.subs[w].(worker := AloneFor(s.subs[w].worker, CurrentView(s), n))]
  {
    hide Enabled, Apply, Work, Ending, Act;
    var e, view := s.subs[w], CurrentView(s);
    if n == 0 {
      assert s.subs[w := e.(worker := e.worker)] == s.subs;
    } else {
      hide Run;
      ThreadFinishes(s, w, n - 1);
      var before := Run(s, Actions(w, n - 1)).value;
      var worker := AloneFor(e.worker, view, n - 1);
      NotYetDone(e.worker, view, n - 1);
      OneMoreAction(before, w, e, worker);
      ActionsOneMore(s, w, n - 1);
      ActOnce(e.worker, view, n - 1);
    }
  }

  lemma NotYetDone(w: Worker, view: View, n: nat)
    requires WellFormed(w) && Ending(w) && n < Work(w)
    ensures Runnable(AloneFor(w, view, n))
  {
    EndingWorkerDrains(w, seq(n, _ => view));
  }

  /** A registered client object is running the thread the transition system records for it. */
  ghost predicate Linked(c: Client, thread: ClientThread, e: Sub)
    reads c, thread
  {
    && c.tx == thread == c.threadHandle && thread.worker == e.worker
    && thread.worker.tickers == c.tickers && WellFormed(thread.worker) && thread.worker.open
  }

  /** No two ids share a client or a thread, and each is linked to its own. */
  ghost predicate AllLinked(clients: map<nat, Client>, threads: map<nat, ClientThread>, subs: seq<Sub>)
    reads clients.Values, threads.Values
  {
    && threads.Keys == clients.Keys
    && (forall i, j | i in clients && j in clients && i != j :: clients[i] != clients[j] && threads[i] != threads[j])
    && (forall id | id in clients :: id < |subs| && Linked(clients[id], threads[id], subs[id]))
  }

  lemma LinkedInsert(clients: map<nat, Client>, threads: map<nat, ClientThread>, subs: seq<Sub>,
                     id: nat, c: Client, thread: ClientThread, subs': seq<Sub>)
    requires AllLinked(clients, threads, subs) && id !in clients && c !in clients.Values && thread !in threads.Values
    requires subs <= subs' && id < |subs'| && Linked(c, thread, subs'[id])
    ensures AllLinked(clients[id := c], threads[id := thread], subs')
  {
    hide Linked;
    assert forall i | i in clients :: clients[i] in clients.Values && threads[i] in threads.Values;
  }

  lemma LinkedDelete(clients: map<nat, Client>, threads: map<nat, ClientThread>, subs: seq<Sub>, id: nat, e: Sub)
    requires AllLinked(clients, threads, subs) && id in clients
    ensures id < |subs| && threads.Keys == clients.Keys && Linked(clients[id], threads[id], subs[id])
    ensures AllLinked(clients - {id}, threads - {id}, subs[id := e])
    ensures clients[id] !in (clients - {id}).Values && threads[id] !in (threads - {id}).Values
  {
    hide Linked;
  }

  lemma LinkedReplace(clients: map<nat, Client>, threads: map<nat, ClientThread>, subs: seq<Sub>, id: nat, e: Sub)
    requires threads.Keys == clients.Keys && id in clients && id < |subs| && Linked(clients[id], threads[id], e)
    requires forall i, j | i in clients && j in clients && i != j ::
               clients[i] != clients[j] && threads[i] != threads[j]
    requires forall k | k in clients && k != id :: k < |subs| && Linked(clients[k], threads[k], subs[k])
    ensures AllLinked(clients, threads, subs[id := e])
  {
    hide Linked;
  }

  /** `client.send(Update)` on one registered client. */
  method SendUpdateTo(clients: map<nat, Client>, ghost threads: map<nat, ClientThread>, ghost subs: seq<Sub>,
                      id: nat, ghost e: Sub)
    returns (sent: Result<(), Clients.ClientError>)
    requires AllLinked(clients, threads, subs) && id in clients && id < |subs| && !subs[id].worker.pc.Exited?
    requires e.worker == subs[id].worker.(queue := subs[id].worker.queue + [Update])
    modifies clients[id], threads[id]
    ensures AllLinked(clients, threads, subs[id := e]) && sent.Ok?
  {
    hide Work, RunAlone, Accepted;
    sent := clients[id].Send(Update, []);
    forall k | k in clients && k != id ensures k < |subs| && Linked(clients[k], threads[k], subs[k]) {
      assert old(Linked(clients[k], threads[k], subs[k]));
    }
    LinkedReplace(clients, threads, subs, id, e);
  }

  /** `client.send(Shutdown)` on a client already out of the map: the others do not notice. */
  method DismissClient(client: Client, ghost thread: ClientThread, ghost e: Sub, views: seq<View>,
                       ghost clients: map<nat, Client>, ghost threads: map<nat, ClientThread>, ghost subs: seq<Sub>)
    returns (sent: Result<(), Clients.ClientError>)
    requires Linked(client, thread, e) && !e.worker.pc.Exited?
    requires |views| == Work(e.worker.(queue := e.worker.queue + [Shutdown]))
    requires AllLinked(clients, threads, subs) && client !in clients.Values && thread !in threads.Values
    modifies client, thread
    ensures sent.Ok? && thread.worker.pc.Exited? && AllLinked(clients, threads, subs)
  {
    hide AllLinked, Work, RunAlone, Accepted, Pending;
    sent := client.Send(Command.Shutdown, views);
  }

  method StartedClient(tickers: seq<string>) returns (c: Client)
    ensures fresh(c) && c.tickers == tickers && c.tx == c.threadHandle && c.tx != null && fresh(c.tx)
    ensures c.tx.worker == NewWorker(tickers)
  {
    c := new Client(tickers);
    c.Start();
  }

  /** `QuoteServer`. The ghost fields name the client threads and say where in the transition system the
      server stands. */
  class QuoteServer {
    const table: QuoteTable
    var clients: map<nat, Client>
    var clientsCount: nat
    var bgThread: Option<nat>
    var shutdownFlag: bool
    ghost var threads: map<nat, ClientThread>
    ghost var model: State

    /** The fields agree with the transition system, which is in a state satisfying its invariant. */
    ghost predicate Valid()
      reads this, table, clients.Values, threads.Values
    {
      && Inv(model) && Bounded(model)
      && table.quotes == model.table
      && clientsCount == model.count && bgThread == model.slot && shutdownFlag == model.flag
      && clients.Keys == model.clients.Keys && threads.Keys == clients.Keys
      && AllLinked(clients, threads, model.subs)
    }

    constructor (table: QuoteTable)
      requires TableOk(table.quotes)
      ensures Valid() && this.table == table && model == Init(table.quotes) && clients == map[]
    {
      this.table := table;
      clients, clientsCount, threads := map[], 0, map[];
      bgThread, shutdownFlag := None, false;
      model := Init(table.quotes);
      new;
      InvInit(table.quotes);
    }

    /** `add_client`, from the moment the handler's lock is granted. */
    method AddClient(ghost h: nat, tickers: seq<string>) returns (id: nat)
      requires Valid() && CanAdd(model, h, tickers)
      modifies this
      ensures Valid() && Run(old(model), AddSteps(h)) == Some(model)
      ensures id == old(clientsCount) && clients.Keys == old(clients.Keys) + {id} && id !in old(clients)
    {
      hide Inv, Run, AddSteps, CanAdd, AllLinked;
      ghost var after := AddSchedule(model, h, tickers);
      var client := StartedClient(tickers);
      id := clientsCount;
      LinkedInsert(clients, threads, model.subs, id, client, client.tx, after.subs);
      clientsCount := (clientsCount + 1) % U64_BOUND;
      clients := clients[id := client];
      threads := threads[id := client.tx];
      model := after;
    }

    /** `remove_client`, from the moment the handler's lock is granted. While it joins the client thread, that
        thread and the tickers take the steps `meanwhile`, any number of table updates among them: `views` are the
        tables the thread sees at its actions, and `now` is what the tickers have made of the table when the join
        returns. It never fails, and returns over a finished thread. */
    method RemoveClient(ghost h: nat, id: nat, ghost meanwhile: seq<Step>, views: seq<View>, now: Table)
      returns (r: Result<(), ServerError>)
      requires Valid() && Removable(model, h, id, meanwhile, views, now)
      modifies this, table, clients.Values, threads.Values
      ensures Valid() && Run(old(model), RemoveSteps(h, meanwhile)) == Some(model)
      ensures r.Ok? && id in old(clients) && clients == old(clients) - {id} && table.quotes == now
      ensures old(threads[id]).worker.pc.Exited?
    {
      hide Inv, Run, RemoveSteps, Removable, AllLinked, Work, JoinViews;
      ghost var after := RemoveAs(model, h, id, meanwhile, views, now);
      ghost var subs := model.subs;
      table.quotes := now;
      model := after;
      assert AllLinked(clients, threads, subs);
      r := TakeOut(id, views, subs, after.subs[id]);
      assert AllLinked(clients, threads, model.subs);
      assert clientsCount == model.count && bgThread == model.slot && shutdownFlag == model.flag;
      assert clients.Keys == model.clients.Keys && threads.Keys == clients.Keys;
    }

    /** What `remove_client` does to the map and to its client. */
    method TakeOut(id: nat, views: seq<View>, ghost subs: seq<Sub>, ghost e: Sub) returns (r: Result<(), ServerError>)
      requires AllLinked(clients, threads, subs) && id in clients && id < |subs| && !subs[id].worker.pc.Exited?
      requires |views| == Work(subs[id].worker.(queue := subs[id].worker.queue + [Command.Shutdown]))
      modifies `clients, `threads, clients.Values, threads.Values
      ensures clients == old(clients) - {id} && threads == old(threads) - {id}
              && AllLinked(clients, threads, subs[id := e])
      ensures r.Ok? && id in old(threads) && old(threads[id]).worker.pc.Exited?
      ensures unchanged(`clientsCount, `bgThread, `shutdownFlag, `model) && unchanged(table)
    {
      hide AllLinked, Linked, Work;
      LinkedDelete(clients, threads, subs, id, e);
      if id in clients {
        var client := clients[id];
        ghost var thread := threads[id];
        assert clients[id] in clients.Values && threads[id] in threads.Values;
        clients := clients - {id};
        threads := threads - {id};
        var sent := DismissClient(client, thread, subs[id], views, clients, threads, subs[id := e]);
        if sent.Err? {
          return Err(ClientError);
        }
      }
      return Ok(());
    }

    /** One pass of the ticker's loop, with no other thread in between: stop if the flag is up, else sleep,
        update the table if it is not locked, and notify. `busy` says whether some reader or writer holds it. */
    method Tick(ghost t: nat, busy: bool, sleeps: nat -> nat, draws: string -> Sample)
      returns (running: bool, ghost touched: set<string>)
      requires Valid() && TickerAt(model, t) && model.tickers[t].pc == Checking && model.mutex == Free
      requires busy <==> !(model.writer == None && model.readers == {})
      requires forall i :: sleeps(i) >= QUOTE_UPDATE_RETRY_PERIOD_MSEC
      modifies this, table, clients.Values, threads.Values
      ensures Valid() && Reaches(old(model), model) && clients == old(clients)
      ensures running <==> !old(shutdownFlag)
      ensures TickerAt(model, t) && model.tickers[t].pc == if running then Checking else Stopped
      ensures !running ==> table.quotes == old(table.quotes) && model.subs == old(model).subs
      ensures running ==> RoundDelivered(old(model), model, clients.Keys, {})
      ensures running ==> PartlyRefreshed(old(table.quotes), table.quotes, draws, touched)
      ensures running && busy ==> table.quotes == old(table.quotes)
      ensures running && !busy ==> touched == table.quotes.Keys || ClockFails(draws, touched)
      ensures running && !busy && (forall k | k in table.quotes :: draws(k).now.Some?) ==> touched == table.quotes.Keys
    {
      hide Inv, Run, Reaches, AllLinked, RoundDelivered, PartlyRefreshed;
      touched := {};
      if shutdownFlag {
        model := StopsAtCheck(model, t);
        return false, touched;
      }
      running := true;
      ghost var start := model;
      model := BodyBegins(model, t);
      ghost var begun := model;
      touched := UpdateTable(t, busy, sleeps, draws);
      ReachesTrans(start, begun, model);
      ghost var updated := model;
      NotifyClients(t);
      DeliveredAfter(start, updated, model, clients.Keys);
    }

    /** The update of a tick. */
    method UpdateTable(ghost t: nat, busy: bool, sleeps: nat -> nat, draws: string -> Sample)
      returns (ghost touched: set<string>)
      requires Valid() && TickerAt(model, t) && model.tickers[t].pc == Trying(0)
      requires busy <==> !(model.writer == None && model.readers == {})
      requires forall i :: sleeps(i) >= QUOTE_UPDATE_RETRY_PERIOD_MSEC
      modifies `model, table
      ensures Valid() && Reaches(old(model), model)
      ensures model.history == if busy then old(model).history else old(model).history + [table.quotes]
      ensures model == old(model).(table := table.quotes, history := model.history,
                                   tickers := old(model).tickers[t := old(model).tickers[t].(pc := WantsClients)])
      ensures PartlyRefreshed(old(table.quotes), table.quotes, draws, touched)
      ensures busy ==> table.quotes == old(table.quotes)
      ensures !busy ==> touched == table.quotes.Keys || ClockFails(draws, touched)
      ensures !busy && (forall k | k in table.quotes :: draws(k).now.Some?) ==> touched == table.quotes.Keys
    {
      hide Inv, Run, Reaches, AllLinked, PartlyRefreshed, ClockFails, Slept;
      var r, attempts;
      r, attempts, touched := UpdateQuotes(table, _ => busy, sleeps, draws);
      if busy {
        model := GivesUp(model, t, sleeps, 0);
      } else {
        model := UpdateIsSchedule(model, t, draws, touched, table.quotes);
      }
    }

    /** `notify_clients`, from the moment the ticker's lock is granted: visits the clients in an arbitrary
        order, and every one of them, no other thread and nothing else, gets exactly one more Update. */
    method NotifyClients(ghost t: nat)
      requires Valid() && CanNotify(model, t)
      modifies this, clients.Values, threads.Values
      ensures Valid() && clients == old(clients)
      ensures RoundDelivered(old(model), model, clients.Keys, {})
      ensures model.mutex == Free && model.rounds == old(model).rounds + 1
      ensures TickerAt(model, t) && model.tickers[t].pc == Checking && shutdownFlag == old(shutdownFlag)
    {
      hide Inv, Run, Reaches, CanNotify, AllLinked, Linked, RoundDelivered, Notifies;
      model := BeginRound(model, t);
      var pending := clients.Keys;
      while pending != {}
        invariant Valid() && clients == old(clients) && threads == old(threads) && pending <= clients.Keys
        invariant RoundDelivered(old(model), model, clients.Keys, pending)
        invariant Notifies(model, t, pending, old(model).rounds + 1) && shutdownFlag == old(shutdownFlag)
        decreases pending
      {
        var id :| id in pending;
        ghost var before := model;
        NotifyOne(t, id, pending, old(model).rounds + 1);
        DeliveredOneMore(old(model), before, model, clients.Keys, pending, id);
        pending := pending - {id};
      }
      ghost var inside := model;
      model := EndRound(model, t, old(model).rounds + 1);
      DeliveredAll(old(model), inside, model, clients.Keys);
    }

    /** One iteration of the notification loop. */
    method NotifyOne(ghost t: nat, id: nat, ghost pending: set<nat>, ghost round: nat)
      requires Valid() && Notifies(model, t, pending, round) && id in pending && id in clients
      modifies clients.Values, threads.Values, `model
      ensures Valid() && SentOne(old(model), model, id) && Notifies(model, t, pending - {id}, round)
    {
      hide Inv, Run, Reaches, AllLinked, Notifies, Linked;
      ghost var after := SendOne(model, t, id, pending, round);
      assert clients[id] in clients.Values && threads[id] in threads.Values;
      var sent := SendUpdateTo(clients, threads, model.subs, id, after.subs[id]);
      model := after;
    }

    /** `start`, from the moment the `bg_thread` lock is granted; `handle` is the spawned thread's. */
    method Start(ghost c: nat, handle: nat)
      requires Valid() && CanStart(model, c) && handle == |model.tickers|
      modifies this
      ensures Valid() && Run(old(model), [Calling(c, LockSlot), Calling(c, SpawnTicker)]) == Some(model)
      ensures bgThread == if old(bgThread).Some? then old(bgThread) else Some(handle)
      ensures clients == old(clients)
    {
      hide Inv, Run, CanStart, AllLinked;
      ghost var after := StartSchedule(model, c);
      if bgThread == None {
        bgThread := Some(handle);
      }
      model := after;
    }

    /** `shutdown` up to the join: raise the flag, then take the handle out under its lock. */
    method Shutdown(ghost c: nat) returns (handle: Option<nat>)
      requires Valid() && CanShutdown(model, c)
      modifies this
      ensures Valid()
      ensures Run(old(model), [Calling(c, StoreFlag), Calling(c, LockSlot), Calling(c, TakeHandle)]) == Some(model)
      ensures shutdownFlag && bgThread == None && handle == old(bgThread) && clients == old(clients)
      ensures CallerAt(model, c)
              && model.callers[c] == if handle.Some? then JoiningTicker(handle.value) else Returned(None)
    {
      hide Inv, Run, CanShutdown, AllLinked;
      ghost var after := ShutdownSchedule(model, c);
      shutdownFlag := true;
      handle := bgThread;
      bgThread := None;
      model := after;
    }
  }

  /** `from_config`: only an unreadable line fails it, the fixed volatility being a valid one. */
  method FromConfig(lines: seq<Option<string>>, upper: string -> string, fraction: nat -> real, now: nat -> u64)
    returns (r: Result<QuoteServer, ServerError>)
    requires forall i :: 0.0 <= fraction(i) < 1.0
    ensures r.Err? <==> None in lines
    ensures r.Ok? ==> fresh(r.value) && r.value.Valid() && r.value.clients == map[]
    ensures r.Ok? ==> r.value.model == Init(r.value.table.quotes) && TableOk(r.value.table.quotes)
    ensures r.Ok? ==> r.value.table.quotes.Keys == Tickers(Texts(lines), upper)
  {
    hide Tickers, Texts, TableOk, Inv;
    var loaded, _ := LoadConfig(lines, upper, fraction, now);
    if loaded.Err? {
      return Err(loaded.error);
    }
    var generator := NewGenerator(VOLATILITY);
    if generator.Err? {
      return Err(ServerError.InitializationError);
    }
    var table := new QuoteTable(loaded.value);
    var server := new QuoteServer(table);
    return Ok(server);
  }

  /** The lock request of a `start` call is about to be granted. */
  ghost predicate CanStart(s: State, c: nat) {
    CallerAt(s, c) && s.callers[c] == StartWaiting && s.slotLock == None
  }

  /** A `shutdown` call is about to begin, with the `bg_thread` lock free. */
  ghost predicate CanShutdown(s: State, c: nat) {
    CallerAt(s, c) && s.callers[c] == Storing && s.slotLock == None
  }

  lemma StartSchedule(s: State, c: nat) returns (s': State)
    requires Inv(s) && Bounded(s) && CanStart(s, c)
    ensures Run(s, [Calling(c, LockSlot), Calling(c, SpawnTicker)]) == Some(s') && Inv(s')
    ensures s'.subs == s.subs && s'.clients == s.clients && s'.count == s.count && s'.table == s.table
            && s'.flag == s.flag
    ensures s'.slot == if s.slot.Some? then s.slot else Some(|s.tickers|)
  {
    hide Inv;
    var locked := Apply(s, Calling(c, LockSlot));
    InvStep(s, Calling(c, LockSlot));
    s' := Apply(locked, Calling(c, SpawnTicker));
    InvStep(locked, Calling(c, SpawnTicker));
    RunTwo(s, Calling(c, LockSlot), Calling(c, SpawnTicker));
  }

  lemma ShutdownSchedule(s: State, c: nat) returns (s': State)
    requires Inv(s) && Bounded(s) && CanShutdown(s, c)
    ensures Run(s, [Calling(c, StoreFlag), Calling(c, LockSlot), Calling(c, TakeHandle)]) == Some(s') && Inv(s')
    ensures s'.subs == s.subs && s'.clients == s.clients && s'.count == s.count && s'.table == s.table
    ensures s'.flag && s'.slot == None && CallerAt(s', c)
    ensures s'.callers[c] == if s.slot.Some? then JoiningTicker(s.slot.value) else Returned(None)
  {
    hide Inv;
    var a := Apply(s, Calling(c, StoreFlag));
    InvStep(s, Calling(c, StoreFlag));
    var b := Apply(a, Calling(c, LockSlot));
    InvStep(a, Calling(c, LockSlot));
    s' := Apply(b, Calling(c, TakeHandle));
    InvStep(b, Calling(c, TakeHandle));
    RunThree(s, Calling(c, StoreFlag), Calling(c, LockSlot), Calling(c, TakeHandle));
  }

  /** One Update for client `id`, and nothing else. */
  ghost predicate SentOne(s: State, s': State, id: nat) {
    && Reaches(s, s') && SubAt(s, id) && SubAt(s', id) && s'.subs == s.subs[id := s'.subs[id]]
    && !s.subs[id].worker.pc.Exited?
    && s'.subs[id].worker == s.subs[id].worker.(queue := s.subs[id].worker.queue + [Update])
    && s'.clients == s.clients && s'.count == s.count
    && s'.table == s.table && s'.slot == s.slot && s'.flag == s.flag
  }

  /** Every client in `ids` but the pending ones has one more Update, and no other thread is touched. */
  ghost predicate RoundDelivered(s: State, s': State, ids: set<nat>, pending: set<nat>) {
    && Reaches(s, s') && |s'.subs| == |s.subs|
    && forall w: nat | SubAt(s, w) ::
         s'.subs[w].worker == if w in ids && w !in pending
                              then s.subs[w].worker.(queue := s.subs[w].worker.queue + [Update]) else s.subs[w].worker
  }

  lemma DeliveredOneMore(s: State, a: State, b: State, ids: set<nat>, pending: set<nat>, id: nat)
    requires RoundDelivered(s, a, ids, pending) && SentOne(a, b, id) && id in pending && id in ids
    ensures RoundDelivered(s, b, ids, pending - {id})
  {
    ReachesTrans(s, a, b);
    hide Reaches;
  }

  lemma DeliveredAll(s: State, a: State, b: State, ids: set<nat>)
    requires RoundDelivered(s, a, ids, {}) && Reaches(a, b) && b.subs == a.subs
    ensures RoundDelivered(s, b, ids, {})
  {
    ReachesTrans(s, a, b);
    hide Reaches;
  }

  /** The ticker's lock request for a `notify_clients` call is about to be granted. */
  ghost predicate CanNotify(s: State, t: nat) {
    TickerAt(s, t) && s.tickers[t].pc == WantsClients && s.mutex == Free
  }

  /** The ticker holds the mutex for round `round`, with `pending` clients still to notify. */
  ghost predicate Notifies(s: State, t: nat, pending: set<nat>, round: nat) {
    TickerAt(s, t) && s.tickers[t].pc == Notifying(pending) && s.rounds == round
  }

  lemma BeginRound(s: State, t: nat) returns (s': State)
    requires Inv(s) && Bounded(s) && CanNotify(s, t)
    ensures Inv(s') && Bounded(s') && Notifies(s', t, s.clients.Keys, s.rounds + 1)
    ensures RoundDelivered(s, s', s.clients.Keys, s.clients.Keys)
    ensures s'.subs == s.subs && s'.clients == s.clients && s'.count == s.count
    ensures s'.table == s.table && s'.slot == s.slot && s'.flag == s.flag
  {
    hide Inv;
    s' := Apply(s, Ticking(t, LockClients));
    InvStep(s, Ticking(t, LockClients));
    RunOne(s, Ticking(t, LockClients));
  }

  lemma SendOne(s: State, t: nat, id: nat, pending: set<nat>, round: nat) returns (s': State)
    requires Inv(s) && Bounded(s) && Notifies(s, t, pending, round) && id in pending && id in s.clients
    ensures Inv(s') && Bounded(s') && SentOne(s, s', id) && Notifies(s', t, pending - {id}, round)
  {
    hide Inv;
    RegisteredAt(s, id);
    HasHistory(s);
    SendFindsClient(s, t, id);
    s' := Apply(s, Ticking(t, SendUpdate(id)));
    InvStep(s, Ticking(t, SendUpdate(id)));
    RunOne(s, Ticking(t, SendUpdate(id)));
    assert Run(s, [Ticking(t, SendUpdate(id))]) == Some(s');
  }

  lemma EndRound(s: State, t: nat, round: nat) returns (s': State)
    requires Inv(s) && Bounded(s) && Notifies(s, t, {}, round)
    ensures Reaches(s, s') && Inv(s') && Bounded(s') && s'.mutex == Free && s'.rounds == round
    ensures TickerAt(s', t) && s'.tickers[t].pc == Checking
    ensures s'.subs == s.subs && s'.clients == s.clients && s'.count == s.count
    ensures s'.table == s.table && s'.slot == s.slot && s'.flag == s.flag
  {
    hide Inv;
    s' := Apply(s, Ticking(t, UnlockClients));
    InvStep(s, Ticking(t, UnlockClients));
    RunOne(s, Ticking(t, UnlockClients));
  }

  lemma StopsAtCheck(s: State, t: nat) returns (s': State)
    requires Inv(s) && Bounded(s) && TickerAt(s, t) && s.tickers[t].pc == Checking && s.flag
    ensures Reaches(s, s') && Inv(s') && s' == s.(tickers := s.tickers[t := s.tickers[t].(pc := Stopped)])
  {
    hide Inv;
    s' := Apply(s, Ticking(t, Check));
    InvStep(s, Ticking(t, Check));
    RunOne(s, Ticking(t, Check));
  }

  /** The ticker enters its body and sleeps. */
  lemma BodyBegins(s: State, t: nat) returns (s': State)
    requires Inv(s) && Bounded(s) && TickerAt(s, t) && s.tickers[t].pc == Checking && !s.flag
    ensures Reaches(s, s') && Inv(s')
    ensures s' == s.(tickers := s.tickers[t := s.tickers[t].(pc := Trying(0), entered := s.tickers[t].entered + 1)])
  {
    hide Inv;
    var asleep := Apply(s, Ticking(t, Check));
    InvStep(s, Ticking(t, Check));
    s' := Apply(asleep, Ticking(t, Wake(0)));
    InvStep(asleep, Ticking(t, Wake(0)));
    RunTwo(s, Ticking(t, Check), Ticking(t, Wake(0)));
  }

  lemma DeliveredAfter(s: State, a: State, b: State, ids: set<nat>)
    requires Reaches(s, a) && a.subs == s.subs && RoundDelivered(a, b, ids, {})
    ensures RoundDelivered(s, b, ids, {}) && Reaches(s, b)
  {
    ReachesTrans(s, a, b);
    hide Reaches;
  }

  /** The handler's lock request for a `remove_client` call is about to be granted. */
  ghost predicate CanRemove(s: State, h: nat, id: nat) {
    HandlerAt(s, h) && s.handlers[h].pc.RemWaiting? && s.handlers[h].pc.id == id && s.mutex == Free
  }

  /** The schedule of one `remove_client`: lock, send, what happens while it waits, join. */
  ghost function RemoveSteps(h: nat, meanwhile: seq<Step>): seq<Step> {
    [Handling(h, LockRegistry), Handling(h, Take)] + meanwhile + [Handling(h, FinishRemove)]
  }

  /** Steps of the joined thread and of tickers only. */
  ghost predicate Bystanders(steps: seq<Step>, id: nat) {
    forall i | 0 <= i < |steps| :: steps[i] == Advance(id) || steps[i].Ticking?
  }

  /** The tables that client thread `w` sees at its actions in a schedule. */
  ghost function ViewsIn(s: State, steps: seq<Step>, w: nat): seq<View> {
    if steps == [] then []
    else
      var n := |steps| - 1;
      var before := Run(s, steps[..n]);
      ViewsIn(s, steps[..n], w)
      + if steps[n] == Advance(w) && before.Some? && |before.value.history| > 0 then [CurrentView(before.value)] else []
  }

  ghost function JoinViews(s: State, h: nat, id: nat, meanwhile: seq<Step>): seq<View> {
    var taken := Run(s, [Handling(h, LockRegistry), Handling(h, Take)]);
    if taken.Some? then ViewsIn(taken.value, meanwhile, id) else []
  }

  /** A `remove_client` can run, with these bystanders, to its end. */
  ghost predicate Removable(s: State, h: nat, id: nat, meanwhile: seq<Step>, views: seq<View>, now: Table) {
    && CanRemove(s, h, id) && Bystanders(meanwhile, id) && views == JoinViews(s, h, id, meanwhile)
    && var end := Run(s, RemoveSteps(h, meanwhile));
       end.Some? && now == end.value.table
  }

  /** What the server object has to follow of a removal. */
  ghost predicate RemovedAs(s: State, s': State, id: nat, views: seq<View>, now: Table) {
    && Inv(s') && Bounded(s') && id in s.clients && SubAt(s, id) && !s.subs[id].worker.pc.Exited? && s'.table == now
    && s'.clients == s.clients - {id} && s'.count == s.count && s'.slot == s.slot && s'.flag == s.flag
    && SubAt(s', id) && s'.subs == s.subs[id := s'.subs[id]]
    && |views| == Work(s.subs[id].worker.(queue := s.subs[id].worker.queue + [Shutdown]))
  }

  lemma RemoveAs(s: State, h: nat, id: nat, meanwhile: seq<Step>, views: seq<View>, now: Table) returns (s': State)
    requires Inv(s) && Bounded(s) && Removable(s, h, id, meanwhile, views, now)
    ensures Run(s, RemoveSteps(h, meanwhile)) == Some(s') && RemovedAs(s, s', id, views, now)
  {
    hide Inv, Run, RemoveSteps, JoinViews, Bystanders, Work, RunAlone;
    s' := RemoveSchedule(s, h, id, meanwhile);
  }

  /** What one `remove_client` leaves of the fields of the server. */
  ghost predicate Removed(s: State, s': State, h: nat, id: nat, views: seq<View>)
    requires HandlerAt(s, h) && s.handlers[h].pc.RemWaiting?
  {
    && Inv(s') && Bounded(s') && id in s.clients && SubAt(s, id) && !s.subs[id].worker.pc.Exited?
    && s'.clients == s.clients - {id} && s'.count == s.count && s'.slot == s.slot && s'.flag == s.flag
    && SubAt(s', id) && s'.subs == s.subs[id := s'.subs[id]] && s'.subs[id].joined
    && |s'.subs[id].worker.done| == |s'.subs[id].sentAt|
    && s'.subs[id].worker == RunAlone(Dismissed(s.subs[id], s.rounds).worker, views).(open := false)
    && |views| == Work(Dismissed(s.subs[id], s.rounds).worker)
    && s'.handlers == s.handlers[h := Handler(None, AfterRemove(s.handlers[h].pc.closing))] && s'.mutex == Free
  }

  /** The client is out of the map, has its Shutdown, and handler `h` waits for its thread. */
  ghost predicate Taken(s: State, s': State, h: nat, id: nat) {
    && id in s.clients && SubAt(s, id) && |s.history| > 0 && !s.subs[id].worker.pc.Exited?
    && HandlerAt(s, h) && s.handlers[h].pc.RemWaiting?
    && s'.handlers == s.handlers[h := Handler(None, Joining(id, id, s.handlers[h].pc.closing))]
    && s'.subs == s.subs[id := Dismissed(s.subs[id], s.rounds)] && s'.clients == s.clients - {id}
    && s'.table == s.table && s'.history == s.history && s'.writer == s.writer
    && s'.count == s.count && s'.slot == s.slot && s'.flag == s.flag
  }

  lemma TakeIs(s: State, h: nat, id: nat) returns (s': State)
    requires Inv(s) && Bounded(s) && CanRemove(s, h, id)
    ensures Run(s, [Handling(h, LockRegistry), Handling(h, Take)]) == Some(s') && Inv(s') && Taken(s, s', h, id)
  {
    hide Inv, Run, Enabled, Apply;
    var locked := LockIs(s, h);
    InvStep(s, Handling(h, LockRegistry));
    HasHistory(s);
    s' := DismissIs(locked, h);
    InvStep(locked, Handling(h, Take));
    RunTwo(s, Handling(h, LockRegistry), Handling(h, Take));
  }

  lemma DismissIs(s: State, h: nat) returns (s': State)
    requires Inv(s) && HandlerAt(s, h) && s.handlers[h].pc.RemHolding?
    ensures Enabled(s, Handling(h, Take)) && s' == Apply(s, Handling(h, Take))
    ensures var id := s.handlers[h].pc.id;
            && id in s.clients && SubAt(s, id) && !s.subs[id].worker.pc.Exited? && s.handlers[h].clientId == None
            && s' == s.(handlers := s.handlers[h := Handler(None, Joining(id, id, s.handlers[h].pc.closing))],
                        subs := s.subs[id := Dismissed(s.subs[id], s.rounds)], clients := s.clients - {id})
  {
    hide Inv;
    var id := s.handlers[h].pc.id;
    if id in s.clients {
      RegisteredAt(s, id);
    }
    TakeFindsClient(s, h);
    s' := Apply(s, Handling(h, Take));
  }

  lemma HasHistory(s: State)
    requires Inv(s)
    ensures |s.history| > 0
  {
  }

  lemma DismissedEnds(s: State, w: nat)
    requires Inv(s) && SubAt(s, w) && s.subs[w].until.Some?
    ensures WellFormed(s.subs[w].worker) && Ending(s.subs[w].worker)
  {
    CountAt(s, w);
  }

  /** What bystanders leave alone while handler `h` joins client thread `w`. */
  ghost predicate Stands(s: State, w: nat, s': State, views: seq<View>) {
    && s'.handlers == s.handlers && s'.clients == s.clients && s'.count == s.count && s'.slot == s.slot
    && s'.flag == s.flag
    && SubAt(s, w) && s'.subs == s.subs[w := s.subs[w].(worker := RunAlone(s.subs[w].worker, views))]
  }

  lemma StandsTick(s: State, h: nat, w: nat, before: State, views: seq<View>, t: nat, tick: Tick)
    requires Stands(s, w, before, views) && Joins(before, h) && TickerAt(before, t) && CanTick(before, t, tick)
    ensures Stands(s, w, DoTick(before, t, tick), views)
  {
    hide Inv, RunAlone;
    JoinExcludes(before, h);
  }

  lemma StandsAdvance(s: State, w: nat, before: State, views: seq<View>)
    requires Stands(s, w, before, views) && SubAt(before, w) && CanAdvance(before, w)
    ensures Stands(s, w, DoAdvance(before, w), views + [CurrentView(before)])
  {
    hide Act;
    assert (views + [CurrentView(before)])[..|views|] == views;
  }

  lemma ViewsMore(s: State, steps: seq<Step>, w: nat)
    requires steps != [] && Run(s, steps).Some?
    requires var before := Run(s, steps[..|steps| - 1]); before.Some? ==> |before.value.history| > 0
    ensures var n := |steps| - 1;
            && Run(s, steps[..n]).Some? && Enabled(Run(s, steps[..n]).value, steps[n])
            && ViewsIn(s, steps, w) == ViewsIn(s, steps[..n], w)
                                       + if steps[n] == Advance(w) then [CurrentView(Run(s, steps[..n]).value)] else []
  {
    hide Enabled, Apply;
  }

  lemma {:induction false} MeanwhileStands(s: State, h: nat, w: nat, steps: seq<Step>, s': State)
    requires Joins(s, h) && SubAt(s, w) && Bystanders(steps, w) && Run(s, steps) == Some(s')
    ensures Joins(s', h) && Stands(s, w, s', ViewsIn(s, steps, w)) && |ViewsIn(s, steps, w)| == AdvancesIn(steps, w)
  {
    if steps == [] {
      hide Joins;
      assert s.subs[w := s.subs[w].(worker := s.subs[w].worker)] == s.subs;
    } else {
      hide Joins, Stands, CanTick, DoTick, CanAdvance, DoAdvance, ViewsIn, CurrentView;
      var n := |steps| - 1;
      var before := Run(s, steps[..n]).value;
      MeanwhileStands(s, h, w, steps[..n], before);
      JoinsHistory(before, h);
      ViewsMore(s, steps, w);
      if steps[n].Ticking? {
        StandsTick(s, h, w, before, ViewsIn(s, steps[..n], w), steps[n].t, steps[n].tick);
        assert ViewsIn(s, steps[..n], w) + [] == ViewsIn(s, steps[..n], w);
      } else {
        StandsAdvance(s, w, before, ViewsIn(s, steps[..n], w));
      }
      JoinPersists(before, h, steps[n]);
    }
  }

  lemma JoinsHistory(s: State, h: nat)
    requires Joins(s, h)
    ensures |s.history| > 0
  {
    HasHistory(s);
  }

  /** One `remove_client` with whatever the joined thread and the tickers do meanwhile. */
  lemma RemoveSchedule(s: State, h: nat, id: nat, meanwhile: seq<Step>) returns (s': State)
    requires Inv(s) && Bounded(s) && CanRemove(s, h, id) && Bystanders(meanwhile, id)
    requires Run(s, RemoveSteps(h, meanwhile)).Some?
    ensures Run(s, RemoveSteps(h, meanwhile)) == Some(s') && Removed(s, s', h, id, JoinViews(s, h, id, meanwhile))
  {
    hide Inv, Run, Apply, Enabled, Bystanders;
    var taken := TakeIs(s, h, id);
    var prefix, last := [Handling(h, LockRegistry), Handling(h, Take)], Handling(h, FinishRemove);
    var drained := RemoveSplit(s, prefix, taken, meanwhile, last);
    TakenJoins(s, taken, h, id);
    MeanwhileStands(taken, h, id, meanwhile, drained);
    JoinedExited(drained, h);
    s' := JoinIs(drained, h, id);
    RemovedWorks(s, taken, h, id, meanwhile, drained);
    DrainedDelivered(s', id);
    assert s.handlers[h := Handler(None, Joining(id, id, s.handlers[h].pc.closing))]
                     [h := Handler(None, AfterRemove(s.handlers[h].pc.closing))]
           == s.handlers[h := Handler(None, AfterRemove(s.handlers[h].pc.closing))];
  }

  lemma RemoveSplit(s: State, prefix: seq<Step>, taken: State, meanwhile: seq<Step>, last: Step)
    returns (drained: State)
    requires Run(s, prefix) == Some(taken) && Run(s, prefix + meanwhile + [last]).Some?
    ensures Run(taken, meanwhile) == Some(drained) && Enabled(drained, last)
    ensures Run(s, prefix + meanwhile + [last]) == Some(Apply(drained, last))
  {
    hide Enabled, Apply;
    assert (prefix + meanwhile + [last])[..|prefix + meanwhile|] == prefix + meanwhile;
    RunConcat(s, prefix, meanwhile);
    drained := Run(s, prefix + meanwhile).value;
  }

  lemma TakenJoins(s: State, taken: State, h: nat, id: nat)
    requires Inv(taken) && Bounded(s) && Taken(s, taken, h, id)
    ensures Joins(taken, h) && SubAt(taken, id)
  {
    hide Inv;
  }

  lemma RemovedWorks(s: State, taken: State, h: nat, id: nat, meanwhile: seq<Step>, drained: State)
    requires Inv(taken) && Bounded(s) && Taken(s, taken, h, id) && Run(taken, meanwhile) == Some(drained)
             && Bounded(drained)
    requires SubAt(drained, id) && drained.subs[id].worker.pc.Exited? && Inv(drained)
    ensures AdvancesIn(meanwhile, id) == Work(Dismissed(s.subs[id], s.rounds).worker)
  {
    hide Inv, Run, Work;
    DismissedRun(taken, meanwhile, drained, id);
    JoinedHasExited(drained, id);
    WorkLeft(drained.subs[id].worker);
  }

  lemma DrainedDelivered(s: State, id: nat)
    requires Inv(s) && SubAt(s, id) && s.subs[id].joined
    ensures |s.subs[id].worker.done| == |s.subs[id].sentAt|
  {
    CountAt(s, id);
  }

  /** One `remove_client` with whatever any thread at all does meanwhile: it takes exactly its own client out of
      the map, and returns over a joined thread that has processed every Update it was ever sent. */
  lemma RemoveInterleaved(s: State, h: nat, id: nat, meanwhile: seq<Step>) returns (s': State)
    requires Inv(s) && Bounded(s) && CanRemove(s, h, id) && Handling(h, FinishRemove) !in meanwhile
    requires Run(s, RemoveSteps(h, meanwhile)).Some?
    ensures Run(s, RemoveSteps(h, meanwhile)) == Some(s') && Inv(s')
    ensures id in s.clients && s'.clients == s.clients - {id} && s'.mutex == Free
    ensures SubAt(s', id) && s'.subs[id].joined && |s'.subs[id].worker.done| == |s'.subs[id].sentAt|
    ensures HandlerAt(s', h) && s'.handlers[h] == Handler(None, AfterRemove(s.handlers[h].pc.closing))
  {
    hide Inv, Run, Apply, Enabled;
    var taken := TakeIs(s, h, id);
    var prefix, last := [Handling(h, LockRegistry), Handling(h, Take)], Handling(h, FinishRemove);
    var drained := RemoveSplit(s, prefix, taken, meanwhile, last);
    TakenJoins(s, taken, h, id);
    JoinWaits(taken, h, meanwhile, drained);
    JoinedExited(drained, h);
    s' := JoinIs(drained, h, id);
    DrainedDelivered(s', id);
  }

  /** With the table free a `remove_client` that nobody interrupts is such a schedule: the thread takes its
      remaining actions one after the other. */
  lemma RemoveUninterrupted(s: State, h: nat, id: nat) returns (n: nat)
    requires Inv(s) && Bounded(s) && CanRemove(s, h, id) && s.writer == None
    ensures Bystanders(Actions(id, n), id) && Run(s, RemoveSteps(h, Actions(id, n))).Some?
  {
    hide Inv, Run, Apply, Enabled;
    var taken := TakeIs(s, h, id);
    DismissedEnds(taken, id);
    n := Work(taken.subs[id].worker);
    ThreadFinishes(taken, id, n);
    var drained := Run(taken, Actions(id, n)).value;
    EndingWorkerDrains(taken.subs[id].worker, seq(n, _ => CurrentView(taken)));
    assert drained.handlers == taken.handlers && drained.subs[id].worker.pc.Exited?;
    var prefix := [Handling(h, LockRegistry), Handling(h, Take)];
    RunConcat(s, prefix, Actions(id, n));
    FinishEnabled(drained, h);
    RunOne(drained, Handling(h, FinishRemove));
    RunConcat(s, prefix + Actions(id, n), [Handling(h, FinishRemove)]);
  }

  lemma JoinedExited(s: State, h: nat)
    requires HandlerAt(s, h) && s.handlers[h].pc.Joining? && Enabled(s, Handling(h, FinishRemove))
    ensures SubAt(s, s.handlers[h].pc.sub) && s.subs[s.handlers[h].pc.sub].worker.pc.Exited?
  {
  }

  lemma FinishEnabled(s: State, h: nat)
    requires HandlerAt(s, h) && s.handlers[h].pc.Joining? && SubAt(s, s.handlers[h].pc.sub)
    requires s.subs[s.handlers[h].pc.sub].worker.pc.Exited?
    ensures Enabled(s, Handling(h, FinishRemove))
  {
  }

  lemma JoinIs(s: State, h: nat, id: nat) returns (s': State)
    requires Inv(s) && Bounded(s) && Enabled(s, Handling(h, FinishRemove)) && s.handlers[h].pc.sub == id
    ensures s'.handlers == s.handlers[h := Handler(s.handlers[h].clientId, AfterRemove(s.handlers[h].pc.closing))]
    ensures s'.mutex == Free && s'.writer == s.writer
    ensures s' == Apply(s, Handling(h, FinishRemove)) && Inv(s')
    ensures s'.subs == s.subs[id := s.subs[id].(joined := true, worker := s.subs[id].worker.(open := false))]
    ensures s'.clients == s.clients && s'.count == s.count && s'.table == s.table && s'.slot == s.slot
            && s'.flag == s.flag
  {
    hide Inv;
    s' := Apply(s, Handling(h, FinishRemove));
    InvStep(s, Handling(h, FinishRemove));
  }

  lemma RunTwo(s: State, a: Step, b: Step)
    requires Enabled(s, a) && Enabled(Apply(s, a), b)
    ensures Run(s, [a, b]) == Some(Apply(Apply(s, a), b))
  {
    hide Enabled, Apply;
    assert [a, b][..1] == [a];
    RunOne(s, a);
  }

  /** What one `add_client` leaves of the fields of the server. */
  ghost predicate Inserted(s: State, s': State, h: nat, tickers: seq<string>)
    requires HandlerAt(s, h)
  {
    && Inv(s') && Bounded(s') && s.count == |s.subs| && s.count !in s.clients
    && s'.clients == s.clients[s.count := s.count] && s'.count == (s.count + 1) % U64_BOUND
    && s'.subs == s.subs + [Sub(NewWorker(tickers), [], s.rounds, None, false)]
    && s'.handlers == s.handlers[h := Handler(Some(s.count), Idle)] && s'.mutex == Free && s'.writer == s.writer
    && s'.table == s.table && s'.slot == s.slot && s'.flag == s.flag
  }

  /** The schedule of one uninterrupted `add_client`, and what it makes of the state. */
  ghost function AddSteps(h: nat): seq<Step> {
    [Handling(h, LockRegistry), Handling(h, Insert), Handling(h, FinishAdd)]
  }

  /** The handler's lock request for an `add_client` call is about to be granted. */
  ghost predicate CanAdd(s: State, h: nat, tickers: seq<string>) {
    HandlerAt(s, h) && s.handlers[h].pc == AddWaiting(tickers) && s.mutex == Free && |s.subs| < U64_BOUND
  }

  lemma AddSchedule(s: State, h: nat, tickers: seq<string>) returns (s': State)
    requires Inv(s) && Bounded(s) && CanAdd(s, h, tickers)
    ensures Run(s, AddSteps(h)) == Some(s') && Inserted(s, s', h, tickers)
  {
    hide Inv, Run, Enabled, Apply;
    FreshCount(s);
    var locked := LockIs(s, h);
    InvStep(s, Handling(h, LockRegistry));
    var inserted := InsertIs(locked, h);
    InvStep(locked, Handling(h, Insert));
    s' := FinishAddIs(inserted, h);
    InvStep(inserted, Handling(h, FinishAdd));
    RunThree(s, Handling(h, LockRegistry), Handling(h, Insert), Handling(h, FinishAdd));
  }

  lemma LockIs(s: State, h: nat) returns (s': State)
    requires HandlerAt(s, h) && (s.handlers[h].pc.AddWaiting? || s.handlers[h].pc.RemWaiting?) && s.mutex == Free
    ensures Enabled(s, Handling(h, LockRegistry)) && s' == Apply(s, Handling(h, LockRegistry))
    ensures var k := s.handlers[h];
            s' == s.(handlers := s.handlers[h := k.(pc := if k.pc.AddWaiting? then AddHolding(k.pc.wanted)
                                                          else RemHolding(k.pc.id, k.pc.closing))],
                     mutex := Serving(h))
  {
    s' := Apply(s, Handling(h, LockRegistry));
  }

  lemma InsertIs(s: State, h: nat) returns (s': State)
    requires HandlerAt(s, h) && s.handlers[h].pc.AddHolding?
    ensures Enabled(s, Handling(h, Insert)) && s' == Apply(s, Handling(h, Insert))
    ensures s' == s.(handlers := s.handlers[h := s.handlers[h].(pc := Added(s.count))],
                     subs := s.subs + [Sub(NewWorker(s.handlers[h].pc.wanted), [], s.rounds, None, false)],
                     clients := s.clients[s.count := |s.subs|], count := (s.count + 1) % U64_BOUND)
  {
    s' := Apply(s, Handling(h, Insert));
  }

  lemma FinishAddIs(s: State, h: nat) returns (s': State)
    requires HandlerAt(s, h) && s.handlers[h].pc.Added?
    ensures Enabled(s, Handling(h, FinishAdd)) && s' == Apply(s, Handling(h, FinishAdd))
    ensures s' == s.(handlers := s.handlers[h := Handler(Some(s.handlers[h].pc.id), Idle)], mutex := Free,
                     orphans := s.orphans + Ids(s.handlers[h].clientId))
  {
    s' := Apply(s, Handling(h, FinishAdd));
  }

  lemma FreshCount(s: State)
    requires Inv(s) && |s.subs| < U64_BOUND
    ensures s.count == |s.subs| && s.count !in s.clients
  {
    FreshId(s);
  }

  lemma RunThree(s: State, a: Step, b: Step, c: Step)
    requires Enabled(s, a) && Enabled(Apply(s, a), b) && Enabled(Apply(Apply(s, a), b), c)
    ensures Run(s, [a, b, c]) == Some(Apply(Apply(Apply(s, a), b), c))
  {
    hide Enabled, Apply;
    assert [a, b, c][..2] == [a, b] && [a, b][..1] == [a];
    RunOne(s, a);
  }
}
