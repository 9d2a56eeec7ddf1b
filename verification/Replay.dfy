/** The audit log as a journal: folding its success entries over the initial servers gives the current ones. */
module Replay {
  import opened Text
  import opened Redis
  import opened BullMQ
  import opened Store
  import opened Api
  import opened Pipeline
  import Config
  import Effects
  import Frames
  import Keys
  import Sessions
  import Views

  const QUIET: Network := (_: nat) => Fine

  // ---- when a failing action has changed nothing ----

  /** The failures that are raised before anything was written. */
  const HARMLESS := {MESSAGE_NOT_FOUND, NOT_IN_FAILED_STATE, BAD_URL,
                     "sqs retry is not implemented yet", "sqs delete is not implemented yet",
                     "rabbitmq retry is not implemented yet", "rabbitmq delete is not implemented yet"}

  lemma HarmlessRetry(db: Keyspace, prefix: string, queue: string, id: string, net: Network)
    requires Effects.Compact(db)
    ensures var r := Retry(db, prefix, queue, id, net);
            r.result.Err? && r.result.message != REDIS_ERROR ==> r.db == db
  {
    hide Exec, RetryCommands;
    var key := Keys.Key(prefix, queue, "failed");
    if ZSetAt(db, key).Some? && id !in Views.RanksOf(db, key) { Effects.NoClaim(db, key, id); }
  }

  /** A successful operation did what it does over an undisturbed connection. */
  lemma SuccessIsQuiet(db: Keyspace, prefix: string, queue: string, id: string, net: Network)
    ensures Retry(db, prefix, queue, id, net).result.Ok? ==>
              Retry(db, prefix, queue, id, net) == Retry(db, prefix, queue, id, QUIET)
    ensures Delete(db, prefix, queue, id, net).result.Ok? ==>
              Delete(db, prefix, queue, id, net) == Delete(db, prefix, queue, id, QUIET)
  {}

  // ---- the journal ----

  /** What a turn leaves behind: a log entry, or the record of what something else did to a server. */
  datatype Item = Logged(entry: Entry) | Worked(url: string, db: Keyspace)

  function ItemsOf(env: Env, s: State, t: Turn): seq<Item> {
    match t
    case Other(url, db) => [Worked(url, db)]
    case Ask(r, io) =>
      var audit := Handle(env, s, r, io).state.audit;
      if |audit| > |s.audit| then [Logged(audit[|s.audit|])] else []
  }

  function Journal(env: Env, s0: State, turns: seq<Turn>, i: nat): seq<Item>
    requires i <= |turns|
  {
    if i == 0 then [] else Journal(env, s0, turns, i - 1) + ItemsOf(env, StateAt(env, s0, turns, i - 1), turns[i - 1])
  }

  /** One item read back, with the connections by id: failures are skipped, successes are carried out again. */
  function Redo(env: Env, directory: map<string, Connection>, servers: map<string, Keyspace>,
                item: Item): map<string, Keyspace> {
    match item
    case Worked(url, db) => WithServer(servers, url, db)
    case Logged(e) =>
      if e.result != SUCCESS || e.connectionId !in directory then servers
      else RunAction(env, servers, directory[e.connectionId], e.action, e.queueName, e.messageId, QUIET).0
  }

  function RedoAll(env: Env, directory: map<string, Connection>, servers: map<string, Keyspace>,
                   items: seq<Item>): map<string, Keyspace> {
    if items == [] then servers
    else Redo(env, directory, RedoAll(env, directory, servers, items[..|items| - 1]), items[|items| - 1])
  }

  // ---- the runs the theorem is about ----

  predicate ServersCompact(servers: map<string, Keyspace>) { forall u :: u in servers ==> Effects.Compact(servers[u]) }

  predicate IdsMatch(connections: map<string, Connection>) {
    forall id :: id in connections ==> connections[id].id == id
  }

  /** Audit rows always reach the database, and nothing else empties a key without removing it. */
  predicate Recorded(t: Turn) {
    match t case Ask(_, io) => io.auditUp case Other(_, db) => Effects.Compact(db)
  }

  /** Readable off the log itself: no failure was one of the connection to Redis. */
  predicate OnlyHarmlessFailures(audit: seq<Entry>) {
    forall i :: 0 <= i < |audit| && audit[i].result == FAILURE ==> audit[i].error in HARMLESS
  }

  predicate Healthy(s: State) { ServersCompact(s.servers) && IdsMatch(s.connections) }

  lemma RunCompact(env: Env, servers: map<string, Keyspace>, c: Connection, action: AuditAction, queue: string,
                   id: string, net: Network)
    requires ServersCompact(servers)
    ensures ServersCompact(RunAction(env, servers, c, action, queue, id, net).0)
  {
    var db := ServerAt(servers, UrlOf(c));
    assert Effects.Compact(db);
    Frames.ActCompact(db, PrefixOf(c), queue, Frames.RetryOf(id, net));
    Frames.ActCompact(db, PrefixOf(c), queue, Frames.DeleteOf(id, net));
    hide Retry, Delete, UrlOf, PrefixOf, Effects.Compact;
  }

  lemma TurnHealthy(env: Env, s: State, t: Turn)
    requires Healthy(s) && Recorded(t)
    ensures Healthy(After(env, s, t))
  {
    hide Config.Validate, Sessions.Lookup, Effects.Compact, RunAction;
    if t.Ask? && t.r.MessageAction? && t.r.connectionId in s.connections {
      RunCompact(env, s.servers, s.connections[t.r.connectionId], t.r.action, t.r.queueName, t.r.messageId, t.io.net);
    }
  }

  lemma HarmlessRun(env: Env, servers: map<string, Keyspace>, c: Connection, action: AuditAction, queue: string,
                    id: string, net: Network)
    requires ServersCompact(servers)
    ensures var (servers', r) := RunAction(env, servers, c, action, queue, id, net);
            && (r.Err? && r.message in HARMLESS ==> servers' == servers)
            && (r.Ok? ==> servers' == RunAction(env, servers, c, action, queue, id, QUIET).0)
  {
    var db := ServerAt(servers, UrlOf(c));
    assert Effects.Compact(db);
    assert REDIS_ERROR !in HARMLESS;
    HarmlessRetry(db, PrefixOf(c), queue, id, net);
    HarmlessDelete(db, PrefixOf(c), queue, id, net);
    SuccessIsQuiet(db, PrefixOf(c), queue, id, net);
    hide Retry, Delete, UrlOf, PrefixOf, Effects.Compact;
  }

  lemma HarmlessDelete(db: Keyspace, prefix: string, queue: string, id: string, net: Network)
    ensures var r := Delete(db, prefix, queue, id, net);
            r.result.Err? && r.result.message != REDIS_ERROR ==> r.db == db
  {}

  /** One turn: redoing its item on the servers before it gives the servers after it. */
  lemma TurnReplays(env: Env, s: State, t: Turn, directory: map<string, Connection>)
    requires Healthy(s) && Recorded(t) && OnlyHarmlessFailures(After(env, s, t).audit)
    requires forall id :: id in s.connections ==> id in directory && directory[id] == s.connections[id]
    ensures var items := ItemsOf(env, s, t); var servers' := After(env, s, t).servers;
            if items == [] then servers' == s.servers
            else |items| == 1 && Redo(env, directory, s.servers, items[0]) == servers'
  {
    if t.Ask? {
      var r, io := t.r, t.io;
      OnlyGatedActionsWrite(env, s, r, io);
      if Gate(env, s, r, io) {
        var c := s.connections[r.connectionId];
        HarmlessRun(env, s.servers, c, r.action, r.queueName, r.messageId, io.net);
        var o := Handle(env, s, r, io);
        assert o.state.audit[|s.audit|].result == FAILURE ==> o.state.audit[|s.audit|].error in HARMLESS;
        hide RunAction, Authenticate, ServersCompact, HARMLESS;
      } else {
        hide Handle, RunAction, ServersCompact;
      }
    }
  }

  // ---- whole runs ----

  /** Every connection there ever was, by id. */
  function Directory(env: Env, s0: State, turns: seq<Turn>, n: nat): map<string, Connection>
    requires n <= |turns|
  {
    if n == 0 then s0.connections else Directory(env, s0, turns, n - 1) + StateAt(env, s0, turns, n).connections
  }

  lemma {:induction false} DirectoryCovers(env: Env, s0: State, turns: seq<Turn>, i: nat, n: nat)
    requires FreshConnections(s0, turns) && i <= n <= |turns|
    ensures var now, all := StateAt(env, s0, turns, i).connections, Directory(env, s0, turns, n);
            forall id :: id in now ==> id in all && all[id] == now[id]
    decreases n
  {
    hide StateAt, FreshConnections;
    if i < n {
      DirectoryCovers(env, s0, turns, i, n - 1);
      var now := StateAt(env, s0, turns, i).connections;
      forall id | id in now && id in StateAt(env, s0, turns, n).connections
        ensures StateAt(env, s0, turns, n).connections[id] == now[id]
      {
        ConnectionNeverChanges(env, s0, turns, i, n, id);
      }
    } else if n == 0 {
      StartsThere(env, s0, turns);
    }
  }

  lemma StartsThere(env: Env, s0: State, turns: seq<Turn>)
    ensures StateAt(env, s0, turns, 0) == s0
  {}

  lemma {:induction false} JournalReplays(env: Env, s0: State, turns: seq<Turn>, i: nat,
                                          directory: map<string, Connection>)
    requires i <= |turns| && Healthy(s0)
    requires forall k :: 0 <= k < i ==> Recorded(turns[k])
    requires forall k, id :: 0 <= k < i && id in StateAt(env, s0, turns, k).connections
               ==> id in directory && directory[id] == StateAt(env, s0, turns, k).connections[id]
    requires OnlyHarmlessFailures(StateAt(env, s0, turns, i).audit)
    ensures RedoAll(env, directory, s0.servers, Journal(env, s0, turns, i)) == StateAt(env, s0, turns, i).servers
    ensures Healthy(StateAt(env, s0, turns, i))
  {
    hide After, Healthy, Recorded, Redo, ItemsOf;
    if i > 0 {
      var s, t := StateAt(env, s0, turns, i - 1), turns[i - 1];
      AuditGrows(env, s, t);
      HarmlessPrefix(s.audit, After(env, s, t).audit);
      JournalReplays(env, s0, turns, i - 1, directory);
      TurnHealthy(env, s, t);
      TurnReplays(env, s, t, directory);
      RedoOneMore(env, directory, s0.servers, Journal(env, s0, turns, i - 1), ItemsOf(env, s, t));
    }
  }

  lemma AuditGrows(env: Env, s: State, t: Turn)
    ensures s.audit <= After(env, s, t).audit
  {
    if t.Ask? { TurnAccount(env, s, t.r, t.io); }
    hide Handle;
  }

  lemma HarmlessPrefix(a: seq<Entry>, b: seq<Entry>)
    requires a <= b && OnlyHarmlessFailures(b)
    ensures OnlyHarmlessFailures(a)
  {}

  lemma RedoOneMore(env: Env, directory: map<string, Connection>, servers: map<string, Keyspace>, items: seq<Item>,
                    more: seq<Item>)
    requires |more| <= 1
    ensures RedoAll(env, directory, servers, items + more)
            == if more == [] then RedoAll(env, directory, servers, items)
               else Redo(env, directory, RedoAll(env, directory, servers, items), more[0])
  {
    if more == [] {
      assert items + more == items;
    } else {
      assert (items + more)[..|items|] == items;
    }
  }

  /**
   * Carrying out the success entries of the log again, with the work of others at its recorded places,
   * gives exactly the servers there are, provided no failure in the log was one of the connection to Redis.
   */
  lemma LogReplaysServers(env: Env, s0: State, turns: seq<Turn>)
    requires Healthy(s0) && FreshConnections(s0, turns)
    requires forall k :: 0 <= k < |turns| ==> Recorded(turns[k])
    requires OnlyHarmlessFailures(StateAt(env, s0, turns, |turns|).audit)
    ensures RedoAll(env, Directory(env, s0, turns, |turns|), s0.servers, Journal(env, s0, turns, |turns|))
            == StateAt(env, s0, turns, |turns|).servers
  {
    hide StateAt, FreshConnections, Healthy, Recorded, OnlyHarmlessFailures;
    forall k | 0 <= k < |turns|
      ensures forall id :: id in StateAt(env, s0, turns, k).connections
                ==> id in Directory(env, s0, turns, |turns|)
                    && Directory(env, s0, turns, |turns|)[id] == StateAt(env, s0, turns, k).connections[id]
    {
      DirectoryCovers(env, s0, turns, k, |turns|);
    }
    JournalReplays(env, s0, turns, |turns|, Directory(env, s0, turns, |turns|));
  }

  /** The proviso is needed: a retry whose claim took effect but whose reply was lost fails, and has changed Redis. */
  lemma LostReplyChangesRedis(net: Network)
    requires net(0) == Fine && net(1) == Broken(true)
    ensures var job, failed := Keys.Key("bull", "q", "7"), Keys.Key("bull", "q", "failed");
            var db: Keyspace := map[job := HashV(map["data" := "{}"]), failed := ZSetV([ZEntry("7", 1)])];
            var r := Retry(db, "bull", "q", "7", net);
            r.result == Err(REDIS_ERROR) && failed in db && failed !in r.db
  {}
}
