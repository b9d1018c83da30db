# Quote streamer: a verified model

A quote server keeps a table of stock quotes, lets one background thread refresh it and notify the registered
clients, and serves commands over TCP; each registered client has a thread of its own that hands quotes to a
callback. An interactive program talks to it over one connection shared by a command loop and a keep-alive
thread. This project models that system in Dafny and proves what it keeps over every interleaving.

| file | models |
|---|---|
| `Registry.dfy` | the server as a transition system: quote table behind a reader/writer lock, client map behind a mutex, id counter, `bg_thread` slot, shutdown flag; any number of tickers, `start`/`shutdown` callers, connection handlers and client threads |
| `RegistryInvariants.dfy` | the inductive invariant of that system |
| `RegistryRuns.dfy` | theorems over whole schedules: delivery, snapshots, single ticker, shutdown, removal, ownership of ids |
| `RegistryLiveness.dfy`, `RegistryDrain.dfy` | deadlock freedom, termination and complete delivery after shutdown |
| `RegistryJoin.dfy` | termination of the join inside `remove_client`; every call of a handler can be completed |
| `Worker.dfy`, `Client.dfy` | one client thread and its channel; the client object and the thread as classes |
| `QuoteServer.dfy` | the server object as a class; each method's effect is proved to be that of a schedule of `Registry.dfy` |
| `QuoteGenerator.dfy` | the update of the quote table in place |
| `TcpServer.dfy`, `TcpProtocol.dfy` | the connection handler, its reply trace and its keep-alive clock |
| `TcpRegistry.dfy`, `TcpFleet.dfy` | the product of the running server and any number of connections: a turn begins, any thread takes any step, the turn ends |
| `QuoteClient.dfy` | the interactive client: one exchange, reconnecting, the command loop |
| `ClientNet.dfy`, `ClientRuns.dfy` | its threads and the server on the connections between them: lockstep, no deadlock, what is heard |
| `ClientSession.dfy` | the client as a class against that transition system |
| `StockQuote.dfy`, `Decimal.dfy`, `Text.dfy` | the text codec of quotes, on real splitting and decimal arithmetic |

How the levels meet: a class method of the server runs its critical section and ends in the state in which a schedule
of the transition system ends; the transition system interleaves the small steps of those schedules freely, and its
theorems are about all of its runs. Connections are put beside it in a product: a turn of `handle_connection` begins
by handing its call to the handler, every thread of the server takes steps in any order, and the turn ends when the
call has returned, with the id really given out. Each state of the server in the product is one the transition system
reaches (`TcpFleets.FleetIsSchedule`).

Inputs of the model: random draws, clock readings, the visiting order of the table and of the client map, results
of writes, binds and connects, the address parser, the upper-case mapping, and what arrives on a socket.

## What the proofs found

* **A command can be heard as another one.** The handler starts each `read_line` with an empty buffer, so the part of
  a line received before a 200 ms read timeout is lost (src/tcp_server.rs:106-152). The server hears the line that was
  sent if and only if no timeout cut a non-empty part of it (`TcpServers.LineArrivesIntact`, `ClientRuns.RightReply`);
  every rest of a line can be what it hears (`ClientRuns.CutCompletes`), and there is a run in which `STOPPING` is
  answered `PONG` (`ClientRuns.InterruptedIsAnother`). Replies still never pair with the wrong line.
* **Subscriptions can be orphaned for ever.** A second STREAM forgets the first client, and end of input, a rejected
  STREAM, a failed bind or a failed write forget the current one (`TcpFleets.AbandonedExactly`,
  `TcpFleets.EndsWhileSubscribed`); such a client stays registered and is sent every later round
  (`RegistryRuns.OrphansAreForever`).
* **A ticker with a separator makes unreadable text.** Printing and parsing is the identity exactly on tickers without
  `|` (`StockQuotes.TextRoundTrip`).
* **A server is started once.** Shutdown never lowers the flag, so a thread started later runs no tick
  (`RegistryRuns.ShutdownIsPermanent`).
* **The keep-alive limit is six seconds, not five.** Whole seconds are compared with `>`, so the limit
  `CLIENT_KEEP_ALIVE_SEC = 5` means 6000 ms (`TcpProtocol.KeepAliveExactly`). The comment at src/tcp_server.rs:80
  speaks of PING only; the code counts every line.

## Model

| member | source | states |
|---|---|---|
| RegistryInvariants.InvStep | src/quote_server.rs:83-238 | every step of every thread (ticker, start/shutdown caller, handler, client thread) keeps the invariant: reader/writer and mutex exclusion, table invariant, one ticker, ids in order, ownership of ids, conservation of Updates, snapshot consistency |
| RegistryInvariants.InvInit | src/quote_server.rs:66-73 | a server freshly built from a valid table satisfies it |
| RegistryInvariants.InvRun | src/quote_server.rs:83-238 | and so does every state a schedule reaches |
| RegistryInvariants.FreshId | src/quote_server.rs:152-153 | with fewer than 2^64 adds the next id is unused, so insertion never overwrites |
| RegistryRuns.ExactlyOnce | src/quote_server.rs:145-173 | over every schedule, a client whose thread has been joined has processed exactly as many Updates as notification rounds were begun between its insertion and its removal |
| RegistryRuns.UpdatesConserved | src/quote_server.rs:219-233 | in every reachable state the Updates sent to a client are those processed, in progress and queued; a registered client is owed at most the round under way; sends to registered clients never fail |
| RegistryRuns.RoundsCounted | src/quote_server.rs:219-233 | the round counter used above counts exactly the notification rounds a schedule begins |
| RegistryRuns.SnapshotConsistency | src/client.rs:91-109 | all messages of one Update come from one published table although the ticker writes concurrently; they are exactly the subscribed tickers of the configuration in order with repetitions, each entry valid; versions seen by a client never decrease |
| RegistryRuns.Freshness | src/client.rs:87-109 | the table shown for an Update is at least as new as the one current when it was sent |
| RegistryRuns.ConfigurationKept | src/quote_server.rs:66-73 | the first published table stays the configured one, whose key set never changes |
| RegistryRuns.SingleTicker | src/quote_server.rs:83-110 | over any interleaving of start and shutdown calls at most one thread ever enters a tick body |
| RegistryRuns.ShutdownIsPermanent | src/quote_server.rs:97-119 | after the flag is stored no tick body is entered in any continuation, at most one already entered completes, and threads started later run none |
| RegistryRuns.ShutdownJoins | src/quote_server.rs:120-131 | a shutdown call that took the handle returns only over a thread that has stopped for good |
| RegistryRuns.SilentAfterRemoval | src/client.rs:143-150 | once a client thread is joined it never calls back again and is never registered again, in any continuation |
| RegistryRuns.RemovedIsJoined | src/quote_server.rs:165-182 | whenever the clients mutex is free every client is either registered or joined |
| RegistryRuns.Continues | src/quote_server.rs:83-238 | continuing any schedule undoes nothing: sent and processed Updates, published tables, tick counts, joins and the flag only grow |
| RegistryRuns.Accounting | src/tcp_server.rs:88-164 | registered ids are the disjoint union of those held by live handlers and the orphans; a handler's id is registered, and no two handlers hold the same one |
| RegistryRuns.OrphansExactly | src/tcp_server.rs:110-160 | exactly a repeated STREAM and an ending while subscribed create orphans; STOP, keep-alive timeout and read error create none |
| RegistryRuns.OrphansAreForever | src/tcp_server.rs:225 | an orphaned client stays registered and is sent every later round, in every continuation |
| RegistryRuns.CallsAreIndependent | src/quote_server.rs:145-182 | a handler's add or remove leaves every registered client it does not hold, with its queue, and every other handler unchanged |
| RegistryRuns.InputsAreIndependent | src/tcp_server.rs:134-162 | so does the arrival of STREAM, STOP, a timeout, a read error or an end |
| RegistryLiveness.WaitIsOrdered | src/quote_server.rs:120-203 | every thread that waits for a lock or a join waits for a thread lower in the order caller, ticker or handler, joining handler, client thread, writer; and never for one with nothing to do |
| RegistryLiveness.NoWaitCycle | src/quote_server.rs:120-203 | no reachable state has a wait cycle |
| RegistryLiveness.NoDeadlock | src/quote_server.rs:165-203 | in every reachable state the wait chain of every thread with work left ends in a thread that can step |
| RegistryLiveness.JoinIsBounded | src/quote_server.rs:167-173 | from the moment remove_client joins, in every schedule nothing more is queued for the thread, it takes no more actions than its measure says, and it has exited exactly when it has taken them |
| RegistryJoin.JoinTerminates | src/quote_server.rs:167-173 | the join ends, flag or no flag: in every endless schedule in which only finitely many connections, commands and calls arrive, the joining handler gets its thread, however the tickers compete for the table |
| RegistryJoin.JoinNears | src/quote_server.rs:165-203 | while a handler joins, every step of any thread lowers a lexicographic measure: each ticker can finish at most one update before it must wait for the mutex |
| RegistryJoin.JoinCanFinish | src/quote_server.rs:167-173 | and the server's own threads can always bring the join to its end |
| RegistryJoin.JoinWaits | src/quote_server.rs:167-173 | whatever any thread does meanwhile, the joining handler stays in place and no client is added or removed |
| RegistryJoin.HandlerCanEnd | src/quote_server.rs:139-182 | in every state every add or remove call under way can be completed by the server's own threads |
| RegistryLiveness.DismissedRun | src/client.rs:87-124 | each action of a dismissed client thread uses one unit of the measure (commands before Shutdown, tickers left), and nothing else changes it |
| RegistryDrain.InternalStepUses | src/quote_server.rs:97-131 | after the flag is up every step of the server's own threads lowers a lexicographic measure |
| RegistryDrain.ComesToRest | src/quote_server.rs:116-136 | from any state with the flag up the server's own threads can go on until tickers have stopped, callers returned, handlers are idle, queues are empty, and every Update ever sent has been processed |
| RegistryDrain.NoEndlessSchedule | src/quote_server.rs:97-131 | and no scheduling can prevent it: there is no infinite schedule of internal steps once the flag is up |
| Workers.StepAccounting | src/client.rs:87-124 | one action of a client thread uses one unit of work, loses no Update and keeps the callback history |
| Workers.EndingWorkerDrains | src/client.rs:87-124 | whatever the table does meanwhile, a thread that will get no more commands exits after exactly its measure of actions, having processed exactly the Updates accepted in front of the end |
| Workers.WantedIsFiltered | src/client.rs:93-108 | an Update calls back for exactly the subscribed tickers present, in subscription order with duplicates, each with the quote filed under that ticker |
| Clients.ClientThread.Loop | src/client.rs:87-124 | the thread's loop performs the actions of the worker: the n-th Update in front of a Shutdown is served from the table that the n-th read finds, whatever the callback answers; it stops at Shutdown or a closed channel |
| Clients.ClientThread.Serve | src/client.rs:91-110 | one Update produces one batch of exactly the wanted messages, callback errors notwithstanding |
| Clients.ClientThread.Join | src/client.rs:146-149 | joining an ending thread ends with an empty queue and exactly the accepted Updates processed |
| Clients.Client.constructor | src/client.rs:52-65 | a new client has neither channel nor thread |
| Clients.Client.Start | src/client.rs:75-130 | start installs a new channel and thread; the sender of an earlier thread is dropped |
| Clients.Client.Send | src/client.rs:135-165 | Update appends to the queue; Shutdown returns over an exited thread that has processed every accepted Update, and clears sender and handle; sends fail without effect when not started, shut down, or the thread is gone |
| Clients.Client.DropClient | src/client.rs:168-182 | drop sends a last Shutdown if a sender is left and returns over an exited thread that has processed every accepted Update |
| Clients.AbandonedThreadDrains | src/client.rs:115-128 | the thread abandoned by a second start processes every Update it had accepted and exits |
| QuoteServers.LoadConfig | src/quote_server.rs:44-53 | the table's keys are exactly the trimmed, upper-cased, non-blank lines; an unreadable line is the only failure; every entry is initial and valid, with the price and time drawn at the last line that names it; the reported count is at least the number of entries |
| QuoteServers.FromConfig | src/quote_server.rs:33-74 | from_config fails exactly on an unreadable line and otherwise yields a valid server in the initial state over that table |
| QuoteServers.QuoteServer.constructor | src/quote_server.rs:66-73 | no clients, counter 0, no thread, flag down |
| QuoteServers.QuoteServer.AddClient | src/quote_server.rs:139-162 | performs the schedule lock, insert, release; returns an id not registered before, which is the counter, and registers a started client under it |
| QuoteServers.QuoteServer.RemoveClient | src/quote_server.rs:165-182 | performs the schedule lock, send Shutdown, wait, join, release, with any steps of the joined thread and of the tickers while it waits, table updates included; removes exactly that id and returns over an exited thread |
| QuoteServers.QuoteServer.NotifyClients | src/quote_server.rs:219-238 | performs one notification round in an arbitrary visiting order; every registered client gets exactly one Update and no other thread is touched |
| QuoteServers.QuoteServer.Start | src/quote_server.rs:77-88 | fills an empty bg_thread slot with the spawned thread and leaves a full one alone |
| QuoteServers.QuoteServer.Tick | src/quote_server.rs:97-106 | one pass of the ticker's loop is a run of the ticker: it stops exactly when the flag is up, else updates the table, all of it when no clock fails, unless it is locked, and sends every registered client exactly one Update |
| QuoteServers.QuoteServer.Shutdown | src/quote_server.rs:116-128 | stores the flag before it takes the handle, and releases the slot before joining |
| QuoteServers.UpdateQuotes | src/quote_server.rs:185-217 | tries at once and after every sleep while less than 1000 ms have passed, at most 100 times; the first free lock is taken and the table updated: Ok exactly when no touched entry's clock fails, and then all entries are touched; without a free lock an error and an unchanged table; the table invariant is kept |
| QuoteServers.UpdateIsSchedule | src/quote_server.rs:195-204 | with the table free, what update_quotes makes of it, finished or aborted by a failing clock, is what a schedule of the ticker thread locks, writes and publishes |
| QuoteServers.GivesUp | src/quote_server.rs:194-217 | with the table locked throughout, the ticker's retries end and it goes on to notify with the table unchanged |
| QuoteServers.AddSchedule | src/quote_server.rs:139-162 | the steps of one add_client are enabled one after the other and have exactly its effect |
| QuoteServers.RemoveSchedule | src/quote_server.rs:165-182 | whenever such a schedule runs to its end it has exactly the effect of one removal: the id gone, the thread joined, every Update it was ever sent processed, the number of actions of the thread its measure |
| QuoteServers.RemoveInterleaved | src/quote_server.rs:165-182 | the same with any steps of any threads in between: exactly the own client is taken out of the map, and the call returns over a joined thread that has processed every Update it was ever sent |
| QuoteServers.RemoveUninterrupted | src/quote_server.rs:165-182 | with the table free, a removal that nobody interrupts is such a schedule |
| QuoteServers.ThreadFinishes | src/client.rs:143-150 | a dismissed client thread can take all its remaining actions while everything else stands still |
| QuoteGenerators.NewGenerator | src/quote_generator.rs:28-33 | exactly the volatilities above 0 and up to 1 are accepted |
| QuoteGenerators.DrawnVolume | src/quote_generator.rs:64-67 | every drawn volume lies in the range of its ticker: [1000, 6000) for the three heavy ones, else [100, 1100) |
| QuoteGenerators.NewQuote | src/stock_quote.rs:44-54 | a new quote is a valid table entry under its ticker: a thousandth of its price is the random fraction, volume 0, the time of its making |
| QuoteGenerators.RefreshKeepsOk | src/quote_generator.rs:56-75 | a refreshed entry stays valid under its key: same ticker, price not negative, volume in range |
| QuoteGenerators.PassKeepsTable | src/quote_generator.rs:39-53 | no update pass, finished or aborted after any subset of the entries, changes the key set or breaks the table invariant |
| QuoteGenerators.QuoteTable.UpdateSingleQuote | src/quote_generator.rs:56-75 | in place and on that entry alone: the old price times the multiplier, the drawn volume of the ticker, the clock's time; on a clock failure price and volume are already overwritten and the time is the old one |
| QuoteGenerators.QuoteTable.UpdateQuotes | src/quote_generator.rs:39-53 | visits the entries in arbitrary order; every touched price is multiplied exactly once and gets its clock's time, untouched entries stay; on success all are touched, on failure a subset with a failed clock in it |
| TcpServers.ReadLineLoop | src/tcp_server.rs:107-109 | one read with a fresh buffer; what all reads come to is TcpServers.EventsAre |
| TcpServers.EventsAre | src/tcp_server.rs:106-162 | all reads of an input, told from its items alone: one event for every newline, timeout and error in their order, a line carrying what came since the last of them; then an unfinished line; then the end |
| TcpServers.BreakIsSeen | src/tcp_server.rs:154 | a broken connection is seen as an error wherever it breaks, whatever of a line has been received |
| TcpServers.StretchEnds | src/tcp_server.rs:106-114 | a line in the making ends in an error when the connection breaks, and is served without its newline when the input ends |
| TcpServers.LineSinceSilence | src/tcp_server.rs:106-152 | however a line is spread over read timeouts, the handler gets exactly the part received after the last one |
| TcpServers.LineArrivesIntact | src/tcp_server.rs:106-152 | a line arrives as typed if and only if no timeout finds a non-empty part of it |
| TcpServers.HandleConnection | src/tcp_server.rs:81-164 | the connection loop computes the fold of its turns over all events of any input, and returns; when the connection breaks under a live handler it ends with the read error, unsubscribed, its last call removing the client it had |
| TcpServers.EndOfInput | src/tcp_server.rs:110-113 | when the input ends under a live handler an unfinished line is still served, and the handler returns without any further call |
| TcpServers.TurnEffects | src/tcp_server.rs:106-162 | a turn makes at most one write and at most one call; exactly lines refresh the clock; only a line is answered; each way to return has its own cause; an early timeout changes nothing |
| TcpServers.DispatchOrder | src/tcp_server.rs:124-132 | by the text of the line alone: PING before STREAM before STOP before invalid, with the literal reply of each, the call each makes and the client_id each leaves |
| TcpProtocol.ReplyTrace | src/tcp_server.rs:106-133 | for any lines read without timeouts or failures the replies are the ordered image of the trimmed non-blank lines before the first rejected STREAM, and the final client_id is that of the last STREAM that no STOP follows |
| TcpProtocol.KeepAliveExactly | src/tcp_server.rs:134-152 | a connection is given up at the first read timeout 6000 ms or more after its last line, and at no other event |
| TcpProtocol.NeverGivenUp | src/tcp_server.rs:115 | a connection heard of within every 6000 ms is never timed out, over any run |
| TcpProtocol.SilentIsClosed | src/tcp_server.rs:134-152 | with timeouts at most 400 ms apart a silent connection is closed less than 400 ms after the 6000 ms mark and its current client removed |
| TcpProtocol.IdealSilence | src/tcp_server.rs:134-152 | with ideal timing, at the sixteenth timeout, after exactly 6200 ms |
| TcpProtocol.ReactClock | src/tcp_server.rs:115 | every line refreshes the clock and nothing else does; expiry is exactly 6000 ms, and removes the current client |
| TcpRegistry.MoveKeepsFleet | src/tcp_server.rs:81-164 | every move of server and connections, whatever its interleaving, keeps: handlers agree with their connections between turns and are on the way through their call during one; the registered ids are the disjoint union of what the connections answer for |
| TcpFleets.FleetIsSchedule | src/tcp_server.rs:45-74 | whatever any number of connections do while every thread of the server takes its steps, the server is in a state that the transition system reaches, and every handler agrees with its connection |
| TcpFleets.FleetAccounting | src/tcp_server.rs:145-160 | in every such state the registered clients are exactly those some connection answers for, none by two; a connection between turns answers for what it has added and not removed, its client_id included |
| TcpFleets.OrphansAreAbandoned | src/tcp_server.rs:110-132 | when no turn is under way the orphans of the registry are exactly what the connections have abandoned |
| TcpFleets.TurnCompletes | src/tcp_server.rs:109-162 | in every state, whatever other threads are inside, any turn of a live connection can be completed, and it leaves the connection as handle_connection does, with the id really given out |
| TcpFleets.AbandonedExactly | src/tcp_server.rs:221-225 | a turn abandons exactly the old client of a STREAM while subscribed and the current client of a handler that returns while subscribed |
| TcpFleets.EndsWhileSubscribed | src/tcp_server.rs:110-162 | timeout and read error end without a subscription; end of input, a rejected STREAM and a failed bind keep the one there was; a failed write keeps the new one after STREAM, none after a STOP that removed one, else the one there was |
| StockQuotes.TextRoundTrip | src/stock_quote.rs:127-135 | from_string(to_string(q)) is q when the ticker has no separator and None when it has one, for every volume and timestamp and every price that reads back |
| StockQuotes.ParserAccepts | src/stock_quote.rs:75-87 | from_string returns q exactly for the texts of four separator-free fields whose last three denote q's numbers in range, with an optional plus and leading zeros |
| StockQuotes.DocumentedExample | src/stock_quote.rs:67-74 | the example of the documentation parses to its four fields |
| StockQuotes.SeparatorInTickerIsRejected | src/stock_quote.rs:127-135 | a printed quote whose ticker contains the separator never parses |
| StockQuotes.ReparseIsStable | src/stock_quote.rs:75-87 | printing and reparsing any accepted text gives the same quote |
| StockQuotes.PrintingIsInjective | src/stock_quote.rs:127-135 | different quotes with separator-free tickers print differently |
| StockQuotes.SeparatorsAreSplits | src/stock_quote.rs:76-77 | four parts means exactly three separators |
| StockQuotes.ToBytes | src/stock_quote.rs:102-112 | the byte printer builds exactly the UTF-8 bytes of the text printer, for every quote |
| StockQuotes.AsBytesConcat | src/stock_quote.rs:102-112 | the bytes of a concatenation are the concatenation of the bytes |
| StockQuotes.DecodeInverts | src/stock_quote.rs:102-112 | the bytes are UTF-8: an independent decoder gives back every code point in order |
| StockQuotes.AsciiIsItself | src/stock_quote.rs:102-112 | ASCII text is its own bytes |
| Text.SplitJoin | src/stock_quote.rs:76 | splitting is the only way to cut a text into separator-free parts that join back to it |
| Text.TrimEmpty | src/tcp_server.rs:116-120 | a line is blank after trimming exactly when it is all white space |
| Text.TrimIs | src/tcp_server.rs:116 | trimming is the only cut into white space, a text without white space at its ends, and white space |
| Text.TrimCut | src/tcp_server.rs:116 | and every text has that cut |
| Text.WordsWeave | src/tcp_server.rs:185 | splitting at white space: the words are the only way to cut a text into space-free parts with white space around and between them |
| Text.WordsCut | src/tcp_server.rs:185 | and every text is cut that way |
| Decimal.ParseAccepts | src/stock_quote.rs:81-82 | unsigned parsing accepts exactly an optional plus and at least one digit, with a value in range |
| Decimal.ParseDigitsIsValue | src/stock_quote.rs:81-82 | the checked accumulation computes the unbounded value, and reports overflow exactly when that is out of range |
| Decimal.DigitsInOrder | src/stock_quote.rs:81-82 | the ten digits count from 0 to 9 in the order of their characters |
| Decimal.PrintParse | src/stock_quote.rs:106-110 | printing and parsing a number returns it in every width it fits |
| Decimal.CanonicalPrints | src/stock_quote.rs:127-135 | every digit string without leading zero is the printed form of its value |
| Decimal.ReprintsIffCanonical | src/stock_quote.rs:75-87 | reprinting a parsed number gives the text back exactly when it had no plus and no leading zero |
| QuoteClients.SaidIsSendable | bins/client/main.rs:274-287 | what the command loop passes on is non-empty, trimmed, and on one line |
| QuoteClients.ParsedIs | bins/client/main.rs:278-287 | a line is EXIT exactly when its trimmed text is those four letters in either case, skipped exactly when it is all white space, else sent with its trimmed text |
| QuoteClients.Session.SendCommand | bins/client/main.rs:95-116 | writes the command and a newline, then returns the first line that arrives; Ok exactly when all writes succeed and a line arrives; a failed write, a failed read and end of input are errors |
| QuoteClients.Session.SendPing | bins/client/main.rs:119-142 | Ok exactly when both writes succeed and the first thing read is a line that trims to PONG; any other line is an error |
| QuoteClients.Session.Reconnect | bins/client/main.rs:78-92 | retries until a connect succeeds and returns two handles of the one new connection |
| QuoteClients.Session.Exchange | bins/client/main.rs:289-307 | an error replaces both handles by those of a new connection; success replaces neither |
| QuoteClients.Session.Interact | bins/client/main.rs:268-308 | the loop stops at the first line that says EXIT in any case; every earlier line that is not blank is one exchange, in order, with the trimmed text; the replies of the successful ones are printed, and every failed one costs exactly one connection |
| QuoteClients.PrintedInOrder | bins/client/main.rs:296-307 | every reply is printed after exactly those of the successful commands before it; printed and failed together are all |
| ClientRuns.Lockstep | bins/client/main.rs:171-203 | over every interleaving of any number of client threads and the server: when the locks are free both handles belong to one connection that carries no unread reply and no unanswered line; every completed exchange has read the answer to what the server heard of its own line, which is the whole line if and only if no read timeout cut it |
| ClientRuns.RightReply | bins/client/main.rs:95-142 | the server heard the line that was sent exactly when no read timeout cut it; the complete reply is the one the command itself calls for exactly then, or when the rest of the line happens to have the same answer; a recorded PING was answered PONG |
| ClientRuns.StepKeeps | bins/client/main.rs:95-142 | every step of a client thread or of a handler keeps the lockstep invariant and the record of exchanges |
| ClientNets.UnansweredServed | src/tcp_server.rs:107-133 | until the newline is read nothing is answered and the rest of the line is still on its way; reading it answers exactly what was heard |
| ClientNets.ReceiveStage | bins/client/main.rs:105-115 | reading a reply character by character ends at its newline with nothing left unread |
| ClientNets.AtMostOneReply | src/tcp_server.rs:106-133 | a handler writes at most one reply per line, the answer to that line, and none for anything else |
| ClientRuns.NoDeadlock | bins/client/main.rs:174-194 | nobody ever waits for the reader lock, and while an exchange is under way some thread can move |
| ClientRuns.ExchangeCompletes | bins/client/main.rs:289-307 | whenever the locks are free any thread can complete any exchange that gets an answer from a live handler, which has then served exactly that line |
| ClientRuns.PingCompletes | bins/client/main.rs:196-201 | a keep-alive with a live handler can succeed: PING is heard, PONG is read and accepted, the connection is kept |
| ClientRuns.CutCompletes | src/tcp_server.rs:106-152 | every proper rest of a line with an acceptable answer can be what the server hears and answers: the exchange completes in some run |
| ClientRuns.HeardAsTyped | src/tcp_server.rs:116 | trimming the line that was sent gives back the command |
| ClientRuns.InterruptedIsAnother | src/tcp_server.rs:106-122 | a run of client and server in which STOPPING is heard as PING and answered PONG, although whole it is answered STOP OK |
| ClientSessions.ExchangeIsRun | bins/client/main.rs:289-307 | what Session.Exchange promises is what the moves of a client thread do, whatever the servers do in between: the outcome goes on record and keeps the connection, an error opens a new one and replaces both handles |

## Left out

- Sockets, binding, accepting and UDP sending: event streams in, output traces out; UDP loss is outside the claims.
- JSON rendering of a message: a message is the quote it was made from.
- IEEE-754: a price's text form is abstract with its round trip as an explicit condition; prices in the table are reals, so overflow, rounding and NaN are not modelled.
- Random sampling and `rayon`: multiplier, draw and visiting order are arbitrary inputs within their ranges; two entries are never updated at the same instant.
- Clocks: timestamps may go anywhere; freshness is about the number of published tables. The keep-alive clock is an arbitrary sequence of readings.
- Lock poisoning, panicking callbacks, failing thread spawns and allocation are assumed away.
- `Drop` of the server and reference counting (the ticker holds a reference, src/quote_server.rs:88): only an explicit shutdown stops it.
- RegistryRuns.ExactlyOnce: like the other theorems over schedules, speaks of at most 2^64 additions; after that the counter comes round, and overwriting a registered client is not modelled.
- RegistryJoin.JoinTerminates: for schedules in which only finitely many connections, commands and calls arrive; with endless arrivals a scheduler could ignore the joined thread for ever, and fairness is not modelled.
- QuoteServers.QuoteServer.RemoveClient: while the method waits only the joined thread and the tickers move; steps of all other threads are in QuoteServers.RemoveInterleaved.
- QuoteServers.QuoteServer.Tick: no other thread moves in between; interleavings are in the transition system.
- QuoteServers.QuoteServer.Shutdown: the method up to the join; what the join waits for is RegistryRuns.ShutdownJoins and RegistryDrain.NoEndlessSchedule.
- TcpFleets.TurnCompletes: asks for two ids below 2^64, one of them for a call of another handler under way.
- QuoteServers.QuoteServer.AddClient: takes one id fewer than 2^64 for granted, as above.
- ClientRuns.Lockstep: a thread that reconnects does so once the server accepts; a server that never does leaves it retrying under both locks.
- ClientRuns.NoDeadlock: counts the five-second read timeout as a step a reading thread can take.
- The upper-case mapping of tickers and the socket address parser are parameters.
- Reads of bytes that are not UTF-8 are read errors; characters are Unicode scalar values.
- The UDP listener and pretty-printing of the interactive client, both command lines, logging and error texts.
- The command loop spins on blank input once standard input is closed; the model's list of input lines simply ends.
