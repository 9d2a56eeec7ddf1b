/** Whole sequences of requests: who may change anything, what the audit log says, and what it is worth. */
module Pipeline {
  import opened Text
  import opened Redis
  import opened BullMQ
  import opened Sessions
  import opened Store
  import opened Api
  import Config

  /** One request as it comes in, or something else acting on a Redis server. */
  datatype Turn = Ask(r: Request, io: Input) | Other(url: string, db: Keyspace)

  function After(env: Env, s: State, t: Turn): State {
    match t
    case Ask(r, io) => Handle(env, s, r, io).state
    case Other(url, db) => s.(servers := WithServer(s.servers, url, db))
  }

  /** The state before the i-th turn. */
  function StateAt(env: Env, s0: State, turns: seq<Turn>, i: nat): State
    requires i <= |turns|
  {
    if i == 0 then s0 else After(env, StateAt(env, s0, turns, i - 1), turns[i - 1])
  }

  // ---- one request ----

  /** Past the session check, the lookup, the provider check and the mode gate. */
  predicate Gate(env: Env, s: State, r: Request, io: Input) {
    && r.MessageAction?
    && Authenticate(env, s, r.cookie, io.now).Some?
    && io.storeUp && r.connectionId in s.connections
    && s.connections[r.connectionId].provider in PROVIDERS
    && s.connections[r.connectionId].mode == OPERATOR
  }

  /** The adapter's own verdict on a request that passes the gate. */
  function Verdict(env: Env, s: State, r: Request, io: Input): Result<()>
    requires Gate(env, s, r, io)
  {
    RunAction(env, s.servers, s.connections[r.connectionId], r.action, r.queueName, r.messageId, io.net).1
  }

  /** Nothing but a gated action touches a Redis server or the audit log. */
  lemma OnlyGatedActionsWrite(env: Env, s: State, r: Request, io: Input)
    ensures var s' := Handle(env, s, r, io).state;
            (s'.servers != s.servers || s'.audit != s.audit) ==> Gate(env, s, r, io)
  {}

  /**
   * A gated action answers 500 or adds exactly one entry, with its own actor, connection, queue, message
   * and the adapter's true verdict; without the gate nothing is added, and no action answers 200.
   */
  lemma ActionAccount(env: Env, s: State, r: Request, io: Input)
    requires r.MessageAction?
    ensures var o := Handle(env, s, r, io);
            if !Gate(env, s, r, io) then o.state == s && o.response.code in {400, 401, 403, 404, 500}
            else if !io.auditUp then o.response.code == 500 && o.state.audit == s.audit
            else
              var user := Authenticate(env, s, r.cookie, io.now).value.user;
              var connection := s.connections[r.connectionId];
              var ok := Verdict(env, s, r, io).Ok?;
              && |o.state.audit| == |s.audit| + 1 && s.audit <= o.state.audit
              && var e := o.state.audit[|s.audit|];
                 && e.actorId == user.id && e.actorEmail == user.email && e.action == r.action
                 && (e.action == RETRY <==> e.action == "retry_message")
                 && (e.action == DELETE <==> e.action == "delete_message")
                 && e.provider == connection.provider && e.connectionId == connection.id
                 && e.queueName == r.queueName && e.messageId == r.messageId
                 && e.result == (if ok then "success" else "failure")
                 && (o.response.code == 200 <==> ok) && (o.response.code == 400 <==> !ok)
                 && o.response.error == e.error == (if ok then "" else Verdict(env, s, r, io).message)
  {}

  // ---- accounting over whole runs ----

  function Count(audit: seq<Entry>, result: string): nat {
    if audit == [] then 0
    else Count(audit[..|audit| - 1], result) + if audit[|audit| - 1].result == result then 1 else 0
  }

  /** Answers of a given code to actions, raised behind the mode gate. */
  function Answers(env: Env, s0: State, turns: seq<Turn>, i: nat, code: int): nat
    requires i <= |turns|
  {
    if i == 0 then 0
    else
      var s, t := StateAt(env, s0, turns, i - 1), turns[i - 1];
      Answers(env, s0, turns, i - 1, code)
      + if t.Ask? && Gate(env, s, t.r, t.io) && Handle(env, s, t.r, t.io).response.code == code then 1 else 0
  }

  /** No other answer to an action is a 200: one given without passing the gate never is. */
  lemma SuccessIsGated(env: Env, s: State, r: Request, io: Input)
    requires r.MessageAction? && Handle(env, s, r, io).response.code == 200
    ensures Gate(env, s, r, io)
  {}

  /** Over any run, earlier entries stay, 200 answers are success entries, and gated 400 answers are failure entries. */
  lemma {:induction false} AuditAccounting(env: Env, s0: State, turns: seq<Turn>, i: nat)
    requires i <= |turns|
    ensures var audit := StateAt(env, s0, turns, i).audit;
            && s0.audit <= audit
            && Count(audit, SUCCESS) == Count(s0.audit, SUCCESS) + Answers(env, s0, turns, i, 200)
            && Count(audit, FAILURE) == Count(s0.audit, FAILURE) + Answers(env, s0, turns, i, 400)
  {
    if i > 0 {
      AuditAccounting(env, s0, turns, i - 1);
      var s, t := StateAt(env, s0, turns, i - 1), turns[i - 1];
      hide Handle, Gate, Count;
      if t.Ask? { TurnAccount(env, s, t.r, t.io); }
    }
  }

  lemma TurnAccount(env: Env, s: State, r: Request, io: Input)
    ensures var o := Handle(env, s, r, io); var gated := Gate(env, s, r, io);
            && s.audit <= o.state.audit
            && Count(o.state.audit, SUCCESS)
               == Count(s.audit, SUCCESS) + (if gated && o.response.code == 200 then 1 else 0)
            && Count(o.state.audit, FAILURE)
               == Count(s.audit, FAILURE) + (if gated && o.response.code == 400 then 1 else 0)
  {
    OnlyGatedActionsWrite(env, s, r, io);
    if Gate(env, s, r, io) {
      ActionAccount(env, s, r, io);
      var o := Handle(env, s, r, io);
      hide Handle, Gate;
      if o.state.audit != s.audit {
        assert o.state.audit[..|o.state.audit| - 1] == s.audit;
      }
    }
  }

  // ---- modes never change ----

  /** Connection ids are random: never one that was there before, and never the same twice. */
  predicate FreshConnections(s0: State, turns: seq<Turn>) {
    && (forall i :: 0 <= i < |turns| && turns[i].Ask? ==> turns[i].io.newId !in s0.connections)
    && (forall i, j :: 0 <= i < j < |turns| && turns[i].Ask? && turns[j].Ask? ==>
          turns[i].io.newId != turns[j].io.newId)
  }

  lemma TurnConnections(env: Env, s: State, t: Turn, id: string)
    ensures var s' := After(env, s, t);
            id in s'.connections ==>
              || (id in s.connections && s'.connections[id] == s.connections[id])
              || (t.Ask? && t.io.newId == id && id !in s.connections)
  {
    hide RunAction, Config.Validate, Lookup;
  }

  lemma {:induction false} ConnectionOrigin(env: Env, s0: State, turns: seq<Turn>, i: nat, id: string)
    requires i <= |turns| && id in StateAt(env, s0, turns, i).connections
    ensures id in s0.connections || exists k :: 0 <= k < i && turns[k].Ask? && turns[k].io.newId == id
  {
    if i > 0 {
      TurnConnections(env, StateAt(env, s0, turns, i - 1), turns[i - 1], id);
      if id in StateAt(env, s0, turns, i - 1).connections { ConnectionOrigin(env, s0, turns, i - 1, id); }
    }
  }

  /** Wherever a connection id appears in a run, it names the same connection, mode included. */
  lemma {:induction false} ConnectionNeverChanges(env: Env, s0: State, turns: seq<Turn>, i: nat, j: nat, id: string)
    requires FreshConnections(s0, turns) && i <= j <= |turns|
    requires id in StateAt(env, s0, turns, i).connections && id in StateAt(env, s0, turns, j).connections
    ensures StateAt(env, s0, turns, i).connections[id] == StateAt(env, s0, turns, j).connections[id]
    decreases j
  {
    if i < j {
      hide After;
      TurnConnections(env, StateAt(env, s0, turns, j - 1), turns[j - 1], id);
      ConnectionOrigin(env, s0, turns, i, id);
      if id in StateAt(env, s0, turns, j - 1).connections { ConnectionNeverChanges(env, s0, turns, i, j - 1, id); }
    }
  }

  /**
   * If a connection is read-only at any time of a run, no request through it writes to Redis or to the
   * audit log at any other time; and every write is made under a live session.
   */
  lemma ReadOnlyNeverWrites(env: Env, s0: State, turns: seq<Turn>, i: nat, j: nat, id: string)
    requires FreshConnections(s0, turns) && i <= |turns| && j < |turns|
    requires id in StateAt(env, s0, turns, i).connections && StateAt(env, s0, turns, i).connections[id].mode != OPERATOR
    requires turns[j].Ask? && turns[j].r.MessageAction? && turns[j].r.connectionId == id
    ensures var s, s' := StateAt(env, s0, turns, j), StateAt(env, s0, turns, j + 1);
            s'.servers == s.servers && s'.audit == s.audit
  {
    var s := StateAt(env, s0, turns, j);
    OnlyGatedActionsWrite(env, s, turns[j].r, turns[j].io);
    if id in s.connections {
      if i <= j {
        ConnectionNeverChanges(env, s0, turns, i, j, id);
      } else {
        ConnectionNeverChanges(env, s0, turns, j, i, id);
      }
    }
    hide Handle;
  }

  /** Every write of a run went through a live session and a connection that was operator all along. */
  lemma WritesAreAuthorised(env: Env, s0: State, turns: seq<Turn>, j: nat, i: nat)
    requires FreshConnections(s0, turns) && j < |turns| && turns[j].Ask? && i <= |turns|
    requires var s, s' := StateAt(env, s0, turns, j), StateAt(env, s0, turns, j + 1);
             s'.servers != s.servers || s'.audit != s.audit
    ensures var s, r, io := StateAt(env, s0, turns, j), turns[j].r, turns[j].io;
            && r.MessageAction? && Authenticate(env, s, r.cookie, io.now).Some?
            && r.connectionId in s.connections && s.connections[r.connectionId].mode == OPERATOR
            && (r.connectionId in StateAt(env, s0, turns, i).connections
                ==> StateAt(env, s0, turns, i).connections[r.connectionId].mode == OPERATOR)
  {
    var s, r := StateAt(env, s0, turns, j), turns[j].r;
    OnlyGatedActionsWrite(env, s, r, turns[j].io);
    if r.connectionId in StateAt(env, s0, turns, i).connections {
      if i <= j { ConnectionNeverChanges(env, s0, turns, i, j, r.connectionId); }
      else { ConnectionNeverChanges(env, s0, turns, j, i, r.connectionId); }
    }
    hide Handle;
  }

  // ---- what is stored ----

  /**
   * A connection as creation leaves it: under its own id, known provider, one of two modes, validated
   * configuration.
   */
  ghost predicate WellFormed(env: Env, id: string, c: Connection) {
    && c.id == id && c.provider in PROVIDERS && c.mode in {READ_ONLY, OPERATOR}
    && Config.Validate(env.config, c.provider, c.config) == Ok(c.config)
  }

  ghost predicate AllWellFormed(env: Env, connections: map<string, Connection>) {
    forall id :: id in connections ==> WellFormed(env, id, connections[id])
  }

  /** Only a creation that asked for operator mode by name gives one. */
  lemma CreationGivesWhatWasAsked(env: Env, s: State, r: Request, io: Input)
    requires Config.KeepsDefaults(env.config) && r.CreateConnection?
    ensures var o := Handle(env, s, r, io);
            if o.response.code == 201 then
              && io.newId !in s.connections && io.newId in o.state.connections
              && o.state == s.(connections := s.connections[io.newId := o.state.connections[io.newId]])
              && WellFormed(env, io.newId, o.state.connections[io.newId])
              && var c := o.state.connections[io.newId];
                 && c.id == io.newId && c.provider == r.provider && c.name == TrimSpace(env.config.space, r.name)
                 && c.mode == (if r.mode == "operator" then "operator" else "read_only")
                 && Config.Validate(env.config, r.provider, r.config) == Ok(c.config)
            else o.state == s
  {
    hide Authenticate, Config.KeepsDefaults, Config.Validate, TrimSpace;
    if Config.Validate(env.config, r.provider, r.config).Ok? {
      Config.ValidateIdempotent(env.config, r.provider, r.config);
    }
  }

  /**
   * What a creation was given is what is stored, without the white space around it; a prefix or vhost that was not
   * given is `bull` or `/`, a profile or endpoint that was not given is left out, and all else was given.
   */
  lemma CreationStoresConfig(env: Env, s: State, r: Request, io: Input)
    requires Config.KeepsDefaults(env.config) && r.CreateConnection?
    requires Handle(env, s, r, io).response.code == 201
    ensures io.newId in Handle(env, s, r, io).state.connections
    ensures var stored := Handle(env, s, r, io).state.connections[io.newId].config;
            && r.provider in {"bullmq", "sqs", "rabbitmq"}
            && (r.provider == "bullmq" ==>
                  && stored.Keys == {"redisUrl", "prefix"} && Kept(env, r, stored, "redisUrl")
                  && (Kept(env, r, stored, "prefix") || Defaulted(env, r, stored, "prefix", "bull")))
            && (r.provider == "rabbitmq" ==>
                  && stored.Keys == {"amqpUrl", "vhost"} && Kept(env, r, stored, "amqpUrl")
                  && (Kept(env, r, stored, "vhost") || Defaulted(env, r, stored, "vhost", "/")))
            && (r.provider == "sqs" ==>
                  && {"region", "queueUrl"} <= stored.Keys <= {"region", "queueUrl", "profile", "endpointUrl"}
                  && Kept(env, r, stored, "region") && Kept(env, r, stored, "queueUrl")
                  && (Kept(env, r, stored, "profile") || Absent(env, r, stored, "profile"))
                  && (Kept(env, r, stored, "endpointUrl") || Absent(env, r, stored, "endpointUrl")))
  {
    hide Handle, Config.Validate, Config.Given, Config.Trimmed, Config.Points, TrimSpace, Authenticate;
    CreationGivesWhatWasAsked(env, s, r, io);
    if r.provider == "bullmq" { Config.BullMQStores(env.config, r.config); }
    else if r.provider == "rabbitmq" { Config.RabbitMQStores(env.config, r.config); }
    else { Config.SQSStores(env.config, r.config); }
  }

  predicate Kept(env: Env, r: Request, stored: Config.Settings, key: string)
    requires r.CreateConnection?
  {
    Config.Given(env.config, r.config, key) && key in stored && stored[key] == Config.Trimmed(env.config, r.config, key)
  }

  predicate Defaulted(env: Env, r: Request, stored: Config.Settings, key: string, value: string)
    requires r.CreateConnection?
  {
    !Config.Given(env.config, r.config, key) && key in stored && stored[key] == Config.Str(value)
  }

  predicate Absent(env: Env, r: Request, stored: Config.Settings, key: string)
    requires r.CreateConnection?
  {
    !Config.Given(env.config, r.config, key) && key !in stored
  }

  lemma {:induction false} StoredConnectionsWellFormed(env: Env, s0: State, turns: seq<Turn>, i: nat)
    requires Config.KeepsDefaults(env.config) && AllWellFormed(env, s0.connections) && i <= |turns|
    ensures AllWellFormed(env, StateAt(env, s0, turns, i).connections)
  {
    hide AllWellFormed, After, Config.KeepsDefaults;
    if i > 0 {
      StoredConnectionsWellFormed(env, s0, turns, i - 1);
      TurnWellFormed(env, StateAt(env, s0, turns, i - 1), turns[i - 1]);
    }
  }

  lemma TurnWellFormed(env: Env, s: State, t: Turn)
    requires Config.KeepsDefaults(env.config) && AllWellFormed(env, s.connections)
    ensures AllWellFormed(env, After(env, s, t).connections)
  {
    hide WellFormed, Config.KeepsDefaults, HandleCreate, HandleAction, HandleLogin, HandleLogout, Authenticate;
    if t.Ask? && t.r.CreateConnection? {
      CreationGivesWhatWasAsked(env, s, t.r, t.io);
    } else if t.Ask? && !t.r.DeleteConnection? {
      ConnectionsElsewhere(env, s, t.r, t.io);
    }
  }

  lemma ConnectionsElsewhere(env: Env, s: State, r: Request, io: Input)
    requires !r.CreateConnection? && !r.DeleteConnection?
    ensures Handle(env, s, r, io).state.connections == s.connections
  {}

  /**
   * So behind every BullMQ connection the adapter reads the validated URL and prefix, and no action is turned
   * away for its provider.
   */
  lemma AdapterReadsWhatIsStored(env: Env, s0: State, turns: seq<Turn>, i: nat, id: string)
    requires Config.KeepsDefaults(env.config) && AllWellFormed(env, s0.connections) && i <= |turns|
    requires id in StateAt(env, s0, turns, i).connections
             && StateAt(env, s0, turns, i).connections[id].provider == "bullmq"
    ensures var c := StateAt(env, s0, turns, i).connections[id];
            && c.config == map["redisUrl" := Config.Str(UrlOf(c)), "prefix" := Config.Str(PrefixOf(c))]
            && UrlOf(c) != "" && PrefixOf(c) != ""
  {
    StoredConnectionsWellFormed(env, s0, turns, i);
    var c := StateAt(env, s0, turns, i).connections[id];
    assert WellFormed(env, id, c);
    Config.ReaderAgrees(env.config, c.config, Config.DEFAULT_REDIS_URL);
    Config.ReaderAgrees(env.config, c.config, Config.DEFAULT_PREFIX);
    Config.TrimmedStays(env.config, c.config, "redisUrl", "");
    hide Config.RequiredString, Config.OptionalString, Config.ValidUrl;
  }

  // ---- sessions of a run ----

  /** The login or logout that a turn carries out, if any. */
  function Noted(env: Env, s: State, t: Turn): seq<Event> {
    if t.Other? || Handle(env, s, t.r, t.io).response.code != 200 then []
    else if t.r.Login? && t.io.randomId.Some? then [Created(t.io.randomId.value, Admin(env), t.io.now)]
    else if t.r.Logout? && t.r.cookie.Some? then [Deleted(t.r.cookie.value)]
    else []
  }

  function History(env: Env, s0: State, turns: seq<Turn>, i: nat): seq<Event>
    requires i <= |turns|
  {
    if i == 0 then [] else History(env, s0, turns, i - 1) + Noted(env, StateAt(env, s0, turns, i - 1), turns[i - 1])
  }

  lemma {:induction false} SessionsFollowHistory(env: Env, s0: State, turns: seq<Turn>, i: nat)
    requires i <= |turns| && s0.sessions == map[]
    ensures StateAt(env, s0, turns, i).sessions == Table(env.mac, History(env, s0, turns, i))
  {
    hide After, Noted, Table;
    if i > 0 {
      SessionsFollowHistory(env, s0, turns, i - 1);
      TurnSessions(env, StateAt(env, s0, turns, i - 1), turns[i - 1], History(env, s0, turns, i - 1));
    } else {
      NoEvents(env.mac);
    }
  }

  lemma NoEvents(mac: string -> string)
    ensures Table(mac, []) == map[]
  {}

  lemma TurnSessions(env: Env, s: State, t: Turn, before: seq<Event>)
    requires s.sessions == Table(env.mac, before)
    ensures After(env, s, t).sessions == Table(env.mac, before + Noted(env, s, t))
  {
    hide HandleCreate, HandleDelete, HandleAction, Dropped, Lookup;
    assert before + [] == before;
    if t.Ask? && t.r.Login? && t.io.randomId.Some? {
      var e := Created(t.io.randomId.value, Admin(env), t.io.now);
      assert (before + [e])[..|before|] == before;
    } else if t.Ask? && t.r.Logout? && t.r.cookie.Some? {
      assert (before + [Deleted(t.r.cookie.value)])[..|before|] == before;
    } else if t.Ask? {
      SessionsElsewhere(env, s, t.r, t.io);
    }
  }

  lemma SessionsElsewhere(env: Env, s: State, r: Request, io: Input)
    requires !r.Logout? || r.cookie.None?
    requires !r.Login? || io.randomId.None?
    ensures Handle(env, s, r, io).state.sessions == s.sessions
  {
    hide RunAction, Config.Validate, Lookup;
  }

  /**
   * In a server that started without sessions, a write was asked for with a token a login issued at most twelve
   * hours before, and no logout took back.
   */
  lemma WritesFollowLogin(env: Env, s0: State, turns: seq<Turn>, j: nat)
    requires s0.sessions == map[] && NonemptyMac(env.mac)
    requires j < |turns| && turns[j].Ask? && FreshIds(History(env, s0, turns, j))
    requires var s, s' := StateAt(env, s0, turns, j), StateAt(env, s0, turns, j + 1);
             s'.servers != s.servers || s'.audit != s.audit
    ensures turns[j].r.MessageAction? && turns[j].r.cookie.Some?
    ensures var events, token := History(env, s0, turns, j), turns[j].r.cookie.value;
            exists i :: IssuedAt(env.mac, events, token, i) && !DeletedAfter(events, token, i)
                        && turns[j].io.now <= events[i].at + LIFETIME
  {
    var s := StateAt(env, s0, turns, j);
    OnlyGatedActionsWrite(env, s, turns[j].r, turns[j].io);
    SessionsFollowHistory(env, s0, turns, j);
    GetSucceedsIff(env.mac, History(env, s0, turns, j), turns[j].r.cookie.value, turns[j].io.now);
    hide Handle;
  }

  /**
   * Only the administrator's credentials log in; the token then authenticates for twelve hours, until a logout
   * with it.
   */
  lemma LoginRoundTrip(env: Env, s: State, email: string, password: string, io: Input, later: Input, id: string)
    requires NonemptyMac(env.mac) && TokenId(id) && io.randomId == Some(id) && io.now <= later.now
    ensures var o := Handle(env, s, Login(email, password), io); var token := Sign(env.mac, id);
            && (o.response.code == 200 <==>
                  env.validEmail(email) && password != "" && env.sameEmail(email, env.adminEmail)
                  && password == env.adminPassword)
            && (o.response.code != 200 ==> o.state == s)
            && (o.response.code == 200 ==>
                  && Authenticate(env, o.state, Some(token), later.now)
                     == (if later.now <= io.now + LIFETIME then Some(Session(id, Admin(env), io.now + LIFETIME))
                         else None)
                  && (later.now <= io.now + LIFETIME ==>
                        Authenticate(env, Handle(env, o.state, Logout(Some(token)), later).state, Some(token),
                                     later.now).None?))
  {
    VerifyIff(env.mac, Sign(env.mac, id), id);
    hide Verify, Sign, NonemptyMac;
  }

  /** Deleting a connection makes every later action through it a 404, until its id is handed out again. */
  lemma DeletedConnectionIsGone(env: Env, s: State, cookie: Option<string>, id: string, io: Input, r: Request,
                                later: Input)
    requires Handle(env, s, DeleteConnection(cookie, id), io).response.code == 200
    requires r.MessageAction? && r.connectionId == id && later.storeUp
             && Authenticate(env, s, r.cookie, later.now).Some?
    ensures id in s.connections
    ensures Handle(env, Handle(env, s, DeleteConnection(cookie, id), io).state, r, later).response
            == Response(404, CONNECTION_NOT_FOUND)
  {}
}
