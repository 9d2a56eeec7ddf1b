/** What a request does, from the HTTP answer down to the queue, and the order in which requests are refused. */
module EndToEnd {
  import opened Text
  import opened Keys
  import opened Redis
  import opened Queues
  import opened Views
  import opened BullMQ
  import opened Sessions
  import opened Store
  import opened Api
  import opened Pipeline
  import opened Replay
  import Config
  import Effects

  lemma OneServer(servers: map<string, Keyspace>, url: string, db: Keyspace, other: string)
    ensures ServerAt(WithServer(servers, url, db), other) == if other == url then db else ServerAt(servers, other)
  {}

  /**
   * Past the gate, a retry request is a retry and a delete request a delete, of its queue and message, on the server
   * its connection names and no other, whatever the network does; and the answer is that operation's own.
   */
  lemma ActionRan(env: Env, s: State, r: Request, io: Input, url: string)
    requires Gate(env, s, r, io) && s.connections[r.connectionId].provider == "bullmq"
    ensures var c := s.connections[r.connectionId]; var db := ServerAt(s.servers, UrlOf(c));
            var ran := if r.action == RETRY then Retry(db, PrefixOf(c), r.queueName, r.messageId, io.net)
                       else Delete(db, PrefixOf(c), r.queueName, r.messageId, io.net);
            var o := Handle(env, s, r, io);
            if !env.dial(UrlOf(c)) then
              o.state.servers == s.servers && (io.auditUp ==> o.response == Response(400, "redis: invalid URL"))
            else
              && ServerAt(o.state.servers, url) == (if url == UrlOf(c) then ran.db else ServerAt(s.servers, url))
              && (io.auditUp ==> o.response == if ran.result.Ok? then Response(200, "")
                                               else Response(400, ran.result.message))
  {
    var c := s.connections[r.connectionId];
    var db := ServerAt(s.servers, UrlOf(c));
    hide UrlOf, PrefixOf, Retry, Delete, ServerAt, WithServer, Lookup;
    OneServer(s.servers, UrlOf(c), Retry(db, PrefixOf(c), r.queueName, r.messageId, io.net).db, url);
    OneServer(s.servers, UrlOf(c), Delete(db, PrefixOf(c), r.queueName, r.messageId, io.net).db, url);
  }

  /** A request that answered 200 ran its own operation to the end, on the server and queue its connection names. */
  lemma SuccessRan(env: Env, s: State, r: Request, io: Input, url: string)
    requires r.MessageAction? && Handle(env, s, r, io).response.code == 200
    ensures r.connectionId in s.connections && s.connections[r.connectionId].provider == "bullmq"
    ensures var c := s.connections[r.connectionId]; var db := ServerAt(s.servers, UrlOf(c));
            var ran := if r.action == RETRY then Retry(db, PrefixOf(c), r.queueName, r.messageId, QUIET)
                       else Delete(db, PrefixOf(c), r.queueName, r.messageId, QUIET);
            && ran.result.Ok?
            && ServerAt(Handle(env, s, r, io).state.servers, url)
               == if url == UrlOf(c) then ran.db else ServerAt(s.servers, url)
  {
    SuccessIsGated(env, s, r, io);
    var c := s.connections[r.connectionId];
    var db := ServerAt(s.servers, UrlOf(c));
    SuccessIsQuiet(db, PrefixOf(c), r.queueName, r.messageId, io.net);
    hide UrlOf, PrefixOf, Retry, Delete, ServerAt, WithServer, Lookup;
    OneServer(s.servers, UrlOf(c), Retry(db, PrefixOf(c), r.queueName, r.messageId, io.net).db, url);
    OneServer(s.servers, UrlOf(c), Delete(db, PrefixOf(c), r.queueName, r.messageId, io.net).db, url);
  }

  /**
   * A retry request that answers 200 has taken the job out of `failed` and pushed it where the pause flag points, in
   * the queue its connection names and nowhere else, and is logged as a retry that succeeded.
   */
  lemma RetryRequest(env: Env, s: State, r: Request, io: Input)
    requires r.MessageAction? && r.action == RETRY && Handle(env, s, r, io).response.code == 200
    ensures r.connectionId in s.connections
    ensures var c := s.connections[r.connectionId]; var db := ServerAt(s.servers, UrlOf(c));
            var servers := Handle(env, s, r, io).state.servers;
            && (forall url :: url != UrlOf(c) ==> ServerAt(servers, url) == ServerAt(s.servers, url))
            && (Typed(db, PrefixOf(c), r.queueName) && Effects.Compact(db) && r.messageId !in STATE_SUFFIXES ==>
                  var q := View(db, PrefixOf(c), r.queueName);
                  && r.messageId in q.failed
                  && View(ServerAt(servers, UrlOf(c)), PrefixOf(c), r.queueName)
                     == q.Claimed(r.messageId).Requeued(r.messageId, if q.isPaused then Paused else Wait))
    ensures Logged(env, s, r, io, "retry_message")
  {
    hide Handle, UrlOf, PrefixOf, Retry, ServerAt, Typed, View, Effects.Compact;
    SuccessRan(env, s, r, io, "");
    forall url { SuccessRan(env, s, r, io, url); }
    var c := s.connections[r.connectionId];
    var db := ServerAt(s.servers, UrlOf(c));
    if Typed(db, PrefixOf(c), r.queueName) && Effects.Compact(db) && r.messageId !in STATE_SUFFIXES {
      Effects.RetryMeaning(db, PrefixOf(c), r.queueName, r.messageId, QUIET);
    }
    SuccessLogged(env, s, r, io);
  }

  /** Likewise a delete request: the job is gone, and is logged as a delete that succeeded. */
  lemma DeleteRequest(env: Env, s: State, r: Request, io: Input)
    requires r.MessageAction? && r.action == DELETE && Handle(env, s, r, io).response.code == 200
    ensures r.connectionId in s.connections
    ensures var c := s.connections[r.connectionId]; var db := ServerAt(s.servers, UrlOf(c));
            var servers := Handle(env, s, r, io).state.servers;
            && (forall url :: url != UrlOf(c) ==> ServerAt(servers, url) == ServerAt(s.servers, url))
            && (Typed(db, PrefixOf(c), r.queueName) ==>
                  View(ServerAt(servers, UrlOf(c)), PrefixOf(c), r.queueName)
                  == Effects.Deleted(View(db, PrefixOf(c), r.queueName), r.messageId))
    ensures Logged(env, s, r, io, "delete_message")
  {
    hide Handle, UrlOf, PrefixOf, Delete, ServerAt, Typed, View, Effects.Deleted;
    assert DELETE != RETRY;
    SuccessRan(env, s, r, io, "");
    forall url { SuccessRan(env, s, r, io, url); }
    var c := s.connections[r.connectionId];
    var db := ServerAt(s.servers, UrlOf(c));
    if Typed(db, PrefixOf(c), r.queueName) {
      Effects.DeleteAnyId(db, PrefixOf(c), r.queueName, r.messageId, QUIET);
    }
    SuccessLogged(env, s, r, io);
  }

  /** The one new entry says who did what to which message, and that it succeeded. */
  predicate Logged(env: Env, s: State, r: Request, io: Input, action: string)
    requires r.MessageAction?
  {
    var audit := Handle(env, s, r, io).state.audit;
    && |audit| == |s.audit| + 1 && s.audit <= audit
    && var e := audit[|s.audit|];
       && e.action == action && e.result == "success" && e.error == "" && e.queueName == r.queueName
       && e.messageId == r.messageId && r.connectionId in s.connections
       && e.connectionId == s.connections[r.connectionId].id && e.provider == s.connections[r.connectionId].provider
  }

  lemma SuccessLogged(env: Env, s: State, r: Request, io: Input)
    requires r.MessageAction? && Handle(env, s, r, io).response.code == 200
    ensures Logged(env, s, r, io, if r.action == RETRY then "retry_message" else "delete_message")
  {
    SuccessIsGated(env, s, r, io);
    ActionAccount(env, s, r, io);
    hide Handle, Gate, Verdict;
  }

  /** An action on a provider without one fails, says so, and changes no server. */
  lemma OtherProviders(env: Env, s: State, r: Request, io: Input)
    requires Gate(env, s, r, io) && io.auditUp && s.connections[r.connectionId].provider != "bullmq"
    ensures var o := Handle(env, s, r, io); var p := s.connections[r.connectionId].provider;
            && o.state.servers == s.servers && p in {"sqs", "rabbitmq"}
            && o.response == Response(400, p + (if r.action == RETRY then " retry" else " delete")
                                              + " is not implemented yet")
  {
    hide Retry, Delete, Lookup;
  }

  // ---- refusals, in their order ----

  /** Every request but a login needs a live session, before anything else is looked at. */
  lemma SessionFirst(env: Env, s: State, r: Request, io: Input)
    requires !r.Login? && Authenticate(env, s, r.cookie, io.now).None?
    ensures Handle(env, s, r, io) == Outcome(s, Response(401, "authentication required"))
  {
    hide Lookup;
  }

  lemma LoginAnswers(env: Env, s: State, email: string, password: string, io: Input)
    ensures var o := Handle(env, s, Login(email, password), io);
            if !env.validEmail(email) || password == "" then o == Outcome(s, Response(400, "invalid login payload"))
            else if !(env.sameEmail(email, env.adminEmail) && password == env.adminPassword) then
              o == Outcome(s, Response(401, "invalid email or password"))
            else if io.randomId.None? then o == Outcome(s, Response(500, "could not create session"))
            else
              var id := io.randomId.value;
              && o.response == Response(200, "")
              && o.state == s.(sessions := s.sessions[id := Session(id, User("local-admin", env.adminEmail, "admin"),
                                                                    io.now + 12 * 3600 * 1_000_000_000)])
  {}

  /** A creation is refused for its payload, provider, mode, configuration or the database, in this order. */
  lemma CreationAnswers(env: Env, s: State, r: Request, io: Input)
    requires r.CreateConnection? && Authenticate(env, s, r.cookie, io.now).Some?
    ensures var code := Handle(env, s, r, io).response;
            if r.name == "" || r.provider == "" then code == Response(400, "invalid connection payload")
            else if r.provider !in {"bullmq", "sqs", "rabbitmq"} then code == Response(400, "unsupported provider")
            else if r.mode !in {"", "read_only", "operator"} then code == Response(400, "invalid connection mode")
            else if Config.Validate(env.config, r.provider, r.config).Err? then
              code == Response(400, Config.Validate(env.config, r.provider, r.config).message)
            else if !io.storeUp || io.newId in s.connections then code == Response(500, "could not create connection")
            else code == Response(201, "")
  {
    hide Config.Validate, Lookup;
  }

  /** A deletion takes exactly its own connection, or says why not. */
  lemma DeletionAnswers(env: Env, s: State, cookie: Option<string>, id: string, io: Input)
    requires Authenticate(env, s, cookie, io.now).Some?
    ensures var o := Handle(env, s, DeleteConnection(cookie, id), io);
            if !io.storeUp then o == Outcome(s, Response(500, "could not delete connection"))
            else if id !in s.connections then o == Outcome(s, Response(404, "connection not found"))
            else
              && o.response == Response(200, "")
              && o.state == s.(connections := o.state.connections)
              && (forall x :: x in o.state.connections <==> x in s.connections && x != id)
              && forall x :: x in o.state.connections ==> o.state.connections[x] == s.connections[x]
  {
    hide Lookup;
  }

  /** An action is refused for the database, the connection, its provider or its mode, in this order; else it runs. */
  lemma ActionAnswers(env: Env, s: State, r: Request, io: Input)
    requires r.MessageAction? && Authenticate(env, s, r.cookie, io.now).Some?
    ensures var o := Handle(env, s, r, io);
            if !io.storeUp then o == Outcome(s, Response(500, "could not load connection"))
            else if r.connectionId !in s.connections then o == Outcome(s, Response(404, "connection not found"))
            else
              var c := s.connections[r.connectionId];
              if c.provider !in {"bullmq", "sqs", "rabbitmq"}
                then o == Outcome(s, Response(400, "unsupported provider"))
              else if c.mode != "operator" then o == Outcome(s, Response(403, "connection is read-only"))
              else
                && Gate(env, s, r, io)
                && (!io.auditUp ==> o.response == Response(500, "action ran but audit logging failed"))
  {
    hide RunAction, Lookup;
  }

  /** A logout takes exactly the session of its cookie. */
  lemma LogoutAnswers(env: Env, s: State, token: string, io: Input)
    requires NonemptyMac(env.mac) && Authenticate(env, s, Some(token), io.now).Some?
    ensures var o := Handle(env, s, Logout(Some(token)), io);
            && o.response == Response(200, "") && o.state == s.(sessions := o.state.sessions)
            && exists id :: id != "" && '.' !in id && token == id + "." + env.mac(id)
                            && o.state.sessions == s.sessions - {id}
  {
    var v := Verify(env.mac, token);
    VerifyIff(env.mac, token, v.value);
    hide Verify;
  }
}
