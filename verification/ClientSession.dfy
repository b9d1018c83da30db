/** The imperative session against the transition system: what `Session.Exchange` promises is what the moves of a
    client thread do, whatever the servers do meanwhile. */
module ClientSessions {
  import opened Defs
  import opened QuoteClients
  import opened ClientNets
  import opened ClientRuns
  import T = TcpServers

  // ----- writing -----

  /** The thread writes the first `j` characters of what is left. */
  lemma {:induction false} SendSome(n: Net, t: nat, k: nat, j: nat) returns (n': Net)
    requires Uses(n, t, k) && n.threads[t].Sending? && j <= |n.threads[t].rest|
    ensures Leads(n, n')
    ensures var pc, link := n.threads[t], n.links[k];
            n' == SetThread(SetLink(n, k, link.(inbox := link.inbox + pc.rest[..j])), t, pc.(rest := pc.rest[j..]))
    decreases j
  {
    hide Leads, Sent;
    var pc, link := n.threads[t], n.links[k];
    if j == 0 {
      n' := n;
      LeadsNowhere(n);
      assert link.inbox + pc.rest[..0] == link.inbox && pc.rest[0..] == pc.rest;
      assert n.links[k := link] == n.links && n.threads[t := pc] == n.threads;
    } else {
      var next := Moved(n, t, Send);
      LeadsOne(n, Local(t, Send));
      n' := SendSome(next, t, k, j - 1);
      LeadsTrans(n, next, n');
      assert link.inbox + [pc.rest[0]] + pc.rest[1..][..j - 1] == link.inbox + pc.rest[..j];
    }
  }

  lemma TransmittedIsPart(ask: Ask, writes: nat)
    ensures |Transmitted(ask, writes)| <= |Sent(ask)|
            && Transmitted(ask, writes) == Sent(ask)[..|Transmitted(ask, writes)|]
  {
  }

  /** A write fails after `writes` calls: exactly what went out before is on its way to the server. */
  lemma WriteFails(n: Net, t: nat, k: nat, ask: Ask, since: nat, writes: nat) returns (n': Net)
    requires Uses(n, t, k) && n.threads[t] == Sending(ask, Sent(ask), since) && writes < WritesNeeded(ask)
    ensures Leads(n, n')
    ensures n' == SetThread(SetLink(n, k, n.links[k].(inbox := n.links[k].inbox + Transmitted(ask, writes))),
                            t, Failing)
  {
    hide Leads, Sent, Transmitted;
    TransmittedIsPart(ask, writes);
    var next := SendSome(n, t, k, |Transmitted(ask, writes)|);
    n' := Moved(next, t, SendFails);
    LeadsOne(next, Local(t, SendFails));
    LeadsTrans(n, next, n');
  }

  // ----- reading -----

  /** The characters a read gets, up to a newline or the first thing that is not a character. */
  function Arrived(incoming: seq<T.Item>): string {
    if incoming == [] || !incoming[0].Received? then ""
    else if incoming[0].c == '\n' then "\n"
    else [incoming[0].c] + Arrived(incoming[1..])
  }

  /** The input ends before a newline. */
  predicate RunsOut(incoming: seq<T.Item>) {
    incoming == [] || (incoming[0].Received? && incoming[0].c != '\n' && RunsOut(incoming[1..]))
  }

  /** The connection has this in store for the reader. */
  predicate Delivers(link: Link, incoming: seq<T.Item>) {
    link.outbox == Arrived(incoming) && (RunsOut(incoming) ==> link.conn.end.Some?)
  }

  /** What a read comes to. */
  function AfterRead(n: Net, t: nat, k: nat, event: T.Event): Net
    requires Uses(n, t, k) && n.threads[t].Reading?
  {
    var n' := SetLink(n, k, n.links[k].(outbox := ""));
    if event.Line? then Replied(n', t, n.threads[t], event.text) else SetThread(n', t, Failing)
  }

  /** Reading character by character ends as `read_line` does. */
  lemma {:induction false} ReadIsRun(n: Net, t: nat, k: nat, incoming: seq<T.Item>) returns (n': Net)
    requires Uses(n, t, k) && n.threads[t].Reading? && Delivers(n.links[k], incoming)
    ensures Leads(n, n') && n' == AfterRead(n, t, k, T.ReadLine(incoming, n.threads[t].buf).0)
    decreases |incoming|
  {
    hide Leads, Accepts;
    var pc, link := n.threads[t], n.links[k];
    if incoming == [] || !incoming[0].Received? {
      assert link.(outbox := "") == link && n.links[k := link] == n.links;
      var move := if incoming == [] then Receive else ReadFails;
      n' := Moved(n, t, move);
      LeadsOne(n, Local(t, move));
    } else {
      var next := Moved(n, t, Receive);
      LeadsOne(n, Local(t, Receive));
      if incoming[0].c == '\n' {
        assert link.outbox[1..] == "";
        n' := next;
      } else {
        assert link.outbox[0] == incoming[0].c && link.outbox[1..] == Arrived(incoming[1..]);
        n' := ReadIsRun(next, t, k, incoming[1..]);
        LeadsTrans(n, next, n');
      }
    }
  }

  // ----- the whole exchange -----

  /** An error: a new connection is opened, and both handles are replaced. */
  lemma Swaps(n: Net, t: nat, k: nat, at: nat) returns (n': Net)
    requires Uses(n, t, k) && n.threads[t] == Failing
    ensures Leads(n, n') && n'.log == n.log && n'.threads == n.threads[t := Releasing]
    ensures n'.stream == n'.reader == |n.links| == |n'.links| - 1
  {
    hide Leads;
    var swapped := Moved(n, t, Reconnect(at));
    LeadsOne(n, Local(t, Reconnect(at)));
    n' := Moved(swapped, t, SwapReader);
    LeadsOne(swapped, Local(t, SwapReader));
    LeadsTrans(n, swapped, n');
  }

  ghost predicate AllRemote(steps: seq<Step>) {
    forall i | 0 <= i < |steps| :: steps[i].Remote?
  }

  /** The servers touch neither the client's threads nor its handles. */
  lemma {:induction false} RemoteRun(n: Net, steps: seq<Step>, n': Net)
    requires Run(n, steps) == Some(n') && AllRemote(steps)
    ensures n' == n.(links := n'.links) && |n'.links| == |n.links|
  {
    hide Served, CanServe;
    if steps != [] {
      var before := Run(n, steps[..|steps| - 1]).value;
      RemoteRun(n, steps[..|steps| - 1], before);
      assert steps[|steps| - 1].Remote?;
    }
  }

  /** What an exchange leaves: success is on record and keeps the connection, an error is not and replaces it. */
  ghost predicate Concluded(n: Net, t: nat, ask: Ask, r: Result<string, IoError>, n': Net) {
    && t < |n.threads| && n'.threads == n.threads[t := Releasing]
    && (r.Ok? ==> n'.stream == n'.reader == n.stream && |n'.links| == |n.links|
                  && |n'.log| == |n.log| + 1 && n'.log[..|n.log|] == n.log
                  && n'.log[|n.log|].ask == ask && n'.log[|n.log|].reply == r.value)
    && (r.Err? ==> n'.log == n.log && n'.stream == n'.reader == |n.links| == |n'.links| - 1)
  }

  /** `Session.Exchange` as moves: the thread that holds both locks writes as far as the wire lets it; then the
      servers do whatever they like; then it reads what they have in store. It ends exactly as `Outcome` says,
      with both handles on the old connection after a success and on the newest one after an error. */
  lemma ExchangeIsRun(n: Net, t: nat, ask: Ask, wire: Wire, remote: seq<Step>, served: Net, at: nat)
    returns (written: Net, n': Net)
    requires Uses(n, t, n.stream) && n.threads[t] == Sending(ask, Sent(ask), n.links[n.stream].cuts)
    ensures Leads(n, written) && written.stream == n.stream && |written.links| == |n.links|
    ensures written.links[n.stream] ==
            n.links[n.stream].(inbox := n.links[n.stream].inbox + Transmitted(ask, wire.writes))
    ensures wire.writes < WritesNeeded(ask) ==>
              Leads(written, n') && Outcome(ask, wire).Err? && Concluded(n, t, ask, Outcome(ask, wire), n')
    ensures wire.writes >= WritesNeeded(ask) && AllRemote(remote) && Run(written, remote) == Some(served)
            && n.stream < |served.links| && Delivers(served.links[n.stream], wire.incoming) ==>
              Leads(served, n') && Concluded(n, t, ask, Outcome(ask, wire), n')
  {
    hide Leads, Sent, Delivers, Run, Accepts, AllRemote;
    var k := n.stream;
    if wire.writes < WritesNeeded(ask) {
      written := WriteFails(n, t, k, ask, n.links[k].cuts, wire.writes);
      n' := Swaps(written, t, k, at);
    } else {
      written := SendRest(n, t, k);
      n' := n;
      if AllRemote(remote) && Run(written, remote) == Some(served) && k < |served.links|
         && Delivers(served.links[k], wire.incoming) {
        RemoteRun(written, remote, served);
        var done := ReadIsRun(served, t, k, wire.incoming);
        if done.threads[t] == Failing {
          n' := Swaps(done, t, k, at);
          LeadsTrans(served, done, n');
        } else {
          n' := done;
        }
      }
    }
  }
}
