/** The HTTP handlers as steps over sessions, connections, Redis servers and the audit log. */
module Api {
  import opened Text
  import opened Redis
  import opened BullMQ
  import opened Sessions
  import opened Store
  import Config

  /** Text comparison, URL parsing and the MAC, left open. */
  datatype Env = Env(
    config: Config.Env,
    mac: string -> string,
    dial: string -> bool,                     // redis.ParseURL accepts the URL
    validEmail: string -> bool,
    sameEmail: (string, string) -> bool,
    adminEmail: string,
    adminPassword: string)

  function Admin(env: Env): User { User("local-admin", env.adminEmail, "admin") }

  /** What the outside decides during one request. */
  datatype Input = Input(now: int, randomId: Option<string>, newId: string, storeUp: bool, auditUp: bool, net: Network)

  datatype Request =
    | Login(email: string, password: string)
    | Logout(cookie: Option<string>)
    | CreateConnection(cookie: Option<string>, name: string, provider: string, mode: string, config: Config.Settings)
    | DeleteConnection(cookie: Option<string>, connectionId: string)
    | MessageAction(cookie: Option<string>, action: AuditAction, connectionId: string, queueName: string,
                    messageId: string)

  datatype Response = Response(code: int, error: string)

  datatype State = State(
    sessions: map<string, Session>,
    connections: map<string, Connection>,
    audit: seq<Entry>,
    servers: map<string, Keyspace>)           // by URL; a server not listed is empty

  datatype Outcome = Outcome(state: State, response: Response)

  function ServerAt(servers: map<string, Keyspace>, url: string): Keyspace {
    if url in servers then servers[url] else map[]
  }

  function WithServer(servers: map<string, Keyspace>, url: string, db: Keyspace): map<string, Keyspace> {
    if ServerAt(servers, url) == db then servers else servers[url := db]
  }

  function UrlOf(connection: Connection): string {
    Config.StringConfig(connection.config, "redisUrl", Config.DEFAULT_REDIS_URL)
  }

  function PrefixOf(connection: Connection): string {
    Config.StringConfig(connection.config, "prefix", Config.DEFAULT_PREFIX)
  }

  const PROVIDERS := {"bullmq", "sqs", "rabbitmq"}

  const BAD_URL := "redis: invalid URL"

  function NotImplemented(provider: string, action: AuditAction): string {
    provider + (if action == RETRY then " retry" else " delete") + " is not implemented yet"
  }

  /** `run`: the adapter call behind an action. */
  function RunAction(env: Env, servers: map<string, Keyspace>, connection: Connection, action: AuditAction,
                     queue: string, id: string, net: Network)
    : (map<string, Keyspace>, Result<()>)
  {
    if connection.provider != "bullmq" then (servers, Err(NotImplemented(connection.provider, action)))
    else if !env.dial(UrlOf(connection)) then (servers, Err(BAD_URL))
    else
      var url, prefix := UrlOf(connection), PrefixOf(connection);
      var db := ServerAt(servers, url);
      var r := if action == RETRY then Retry(db, prefix, queue, id, net) else Delete(db, prefix, queue, id, net);
      (WithServer(servers, url, r.db), r.result)
  }

  function Authenticate(env: Env, s: State, cookie: Option<string>, now: int): Option<Session> {
    if cookie.None? then None else Lookup(env.mac, s.sessions, cookie.value, now)
  }

  const UNAUTHENTICATED := Response(401, "authentication required")

  function HandleLogin(env: Env, s: State, email: string, password: string, io: Input): Outcome {
    if !env.validEmail(email) || password == "" then Outcome(s, Response(400, "invalid login payload"))
    else if !env.sameEmail(email, env.adminEmail) || password != env.adminPassword then
      Outcome(s, Response(401, "invalid email or password"))
    else
      match io.randomId
      case None => Outcome(s, Response(500, "could not create session"))
      case Some(id) =>
        Outcome(s.(sessions := s.sessions[id := Session(id, Admin(env), io.now + LIFETIME)]), Response(200, ""))
  }

  function HandleLogout(env: Env, s: State, cookie: Option<string>, io: Input): Outcome {
    if Authenticate(env, s, cookie, io.now).None? then Outcome(s, UNAUTHENTICATED)
    else Outcome(s.(sessions := Dropped(env.mac, s.sessions, cookie.value)), Response(200, ""))
  }

  function HandleCreate(env: Env, s: State, r: Request, io: Input): Outcome
    requires r.CreateConnection?
  {
    if Authenticate(env, s, r.cookie, io.now).None? then Outcome(s, UNAUTHENTICATED)
    else if r.name == "" || r.provider == "" then Outcome(s, Response(400, "invalid connection payload"))
    else if r.provider !in PROVIDERS then Outcome(s, Response(400, "unsupported provider"))
    else
      var mode := if r.mode == "" then READ_ONLY else r.mode;
      if mode != READ_ONLY && mode != OPERATOR then Outcome(s, Response(400, "invalid connection mode"))
      else
        match Config.Validate(env.config, r.provider, r.config)
        case Err(e) => Outcome(s, Response(400, e))
        case Ok(config) =>
          if !io.storeUp || io.newId in s.connections then Outcome(s, Response(500, "could not create connection"))
          else
            var connection := Connection(io.newId, TrimSpace(env.config.space, r.name), r.provider, mode, config);
            Outcome(s.(connections := s.connections[io.newId := connection]), Response(201, ""))
  }

  function HandleDelete(env: Env, s: State, cookie: Option<string>, id: string, io: Input): Outcome {
    if Authenticate(env, s, cookie, io.now).None? then Outcome(s, UNAUTHENTICATED)
    else if !io.storeUp then Outcome(s, Response(500, "could not delete connection"))
    else if id !in s.connections then Outcome(s, Response(404, CONNECTION_NOT_FOUND))
    else Outcome(s.(connections := s.connections - {id}), Response(200, ""))
  }

  function EntryFor(user: User, connection: Connection, r: Request, result: Result<()>): Entry
    requires r.MessageAction?
  {
    Entry(user.id, user.email, r.action, if result.Ok? then SUCCESS else FAILURE, connection.provider, connection.id,
          r.queueName, r.messageId, if result.Ok? then "" else result.message)
  }

  function HandleAction(env: Env, s: State, r: Request, io: Input): Outcome
    requires r.MessageAction?
  {
    var session := Authenticate(env, s, r.cookie, io.now);
    if session.None? then Outcome(s, UNAUTHENTICATED)
    else if !io.storeUp then Outcome(s, Response(500, "could not load connection"))
    else if r.connectionId !in s.connections then Outcome(s, Response(404, CONNECTION_NOT_FOUND))
    else
      var connection := s.connections[r.connectionId];
      if connection.provider !in PROVIDERS then Outcome(s, Response(400, "unsupported provider"))
      else if connection.mode != OPERATOR then Outcome(s, Response(403, "connection is read-only"))
      else
        var (servers, result) := RunAction(env, s.servers, connection, r.action, r.queueName, r.messageId, io.net);
        var ran := s.(servers := servers);
        if !io.auditUp then Outcome(ran, Response(500, "action ran but audit logging failed"))
        else
          Outcome(ran.(audit := s.audit + [EntryFor(session.value.user, connection, r, result)]),
                  if result.Ok? then Response(200, "") else Response(400, result.message))
  }

  function Handle(env: Env, s: State, r: Request, io: Input): Outcome {
    match r
    case Login(email, password) => HandleLogin(env, s, email, password, io)
    case Logout(cookie) => HandleLogout(env, s, cookie, io)
    case CreateConnection(_, _, _, _, _) => HandleCreate(env, s, r, io)
    case DeleteConnection(cookie, id) => HandleDelete(env, s, cookie, id, io)
    case MessageAction(_, _, _, _, _) => HandleAction(env, s, r, io)
  }

  // ---- the server object ----

  class RedisServers {
    var servers: map<string, Keyspace>
    constructor ()
      ensures servers == map[]
    {
      servers := map[];
    }
  }

  class Server {
    const env: Env
    const auth: Manager
    const store: ConnectionStore
    const redis: RedisServers

    constructor (env: Env)
      ensures this.env == env && auth.mac == env.mac && fresh(auth) && fresh(store) && fresh(redis)
      ensures Now() == State(map[], map[], [], map[])
    {
      this.env := env;
      auth := new Manager(env.mac);
      store := new ConnectionStore();
      redis := new RedisServers();
    }

    ghost predicate Valid() { auth.mac == env.mac }

    function Now(): State
      reads auth, store, redis
    {
      State(auth.sessions, store.connections, store.audit, redis.servers)
    }

    method RequireAuth(cookie: Option<string>, io: Input) returns (session: Option<Session>)
      requires Valid()
      ensures session == Authenticate(env, Now(), cookie, io.now)
    {
      if cookie.None? { return None; }
      session := auth.Get(cookie.value, io.now);
    }

    method Login(email: string, password: string, io: Input) returns (response: Response)
      requires Valid()
      modifies auth
      ensures Outcome(Now(), response) == HandleLogin(env, old(Now()), email, password, io)
    {
      if !env.validEmail(email) || password == "" { return Response(400, "invalid login payload"); }
      if !env.sameEmail(email, env.adminEmail) || password != env.adminPassword {
        return Response(401, "invalid email or password");
      }
      var created := auth.Create(Admin(env), io.randomId, io.now);
      if created.Err? { return Response(500, "could not create session"); }
      return Response(200, "");
    }

    method Logout(cookie: Option<string>, io: Input) returns (response: Response)
      requires Valid()
      modifies auth
      ensures Outcome(Now(), response) == HandleLogout(env, old(Now()), cookie, io)
    {
      var session := RequireAuth(cookie, io);
      if session.None? { return UNAUTHENTICATED; }
      if cookie.Some? { auth.Delete(cookie.value); }
      return Response(200, "");
    }

    method CreateConnection(r: Request, io: Input) returns (response: Response)
      requires Valid() && r.CreateConnection?
      modifies store
      ensures Outcome(Now(), response) == HandleCreate(env, old(Now()), r, io)
    {
      var session := RequireAuth(r.cookie, io);
      if session.None? { return UNAUTHENTICATED; }
      if r.name == "" || r.provider == "" { return Response(400, "invalid connection payload"); }
      if r.provider !in PROVIDERS { return Response(400, "unsupported provider"); }
      var mode := r.mode;
      if mode == "" { mode := READ_ONLY; }
      if mode != READ_ONLY && mode != OPERATOR { return Response(400, "invalid connection mode"); }
      var validated := Config.Validate(env.config, r.provider, r.config);
      if validated.Err? { return Response(400, validated.message); }
      var created := Connection("", TrimSpace(env.config.space, r.name), r.provider, mode, validated.value);
      var stored := store.Create(created, io.newId, io.storeUp);
      if stored.Err? { return Response(500, "could not create connection"); }
      return Response(201, "");
    }

    method DeleteConnection(cookie: Option<string>, id: string, io: Input) returns (response: Response)
      requires Valid()
      modifies store
      ensures Outcome(Now(), response) == HandleDelete(env, old(Now()), cookie, id, io)
    {
      var session := RequireAuth(cookie, io);
      if session.None? { return UNAUTHENTICATED; }
      var deleted := store.Delete(id, io.storeUp);
      if deleted.Err? {
        if deleted.message == CONNECTION_NOT_FOUND { return Response(404, CONNECTION_NOT_FOUND); }
        return Response(500, "could not delete connection");
      }
      return Response(200, "");
    }

    method Run(connection: Connection, action: AuditAction, queue: string, id: string, net: Network)
      returns (r: Result<()>)
      modifies redis
      ensures (redis.servers, r) == RunAction(env, old(redis.servers), connection, action, queue, id, net)
    {
      if connection.provider != "bullmq" { return Err(NotImplemented(connection.provider, action)); }
      if !env.dial(UrlOf(connection)) { return Err(BAD_URL); }
      var client := new RedisServer(ServerAt(redis.servers, UrlOf(connection)));
      if action == RETRY {
        r := RetryMessage(client, PrefixOf(connection), queue, id, net);
      } else {
        r := DeleteMessage(client, PrefixOf(connection), queue, id, net);
      }
      redis.servers := WithServer(redis.servers, UrlOf(connection), client.db);
    }

    method HandleMessageAction(r: Request, io: Input) returns (response: Response)
      requires Valid() && r.MessageAction?
      modifies store, redis
      ensures Outcome(Now(), response) == HandleAction(env, old(Now()), r, io)
    {
      var session := RequireAuth(r.cookie, io);
      if session.None? { return UNAUTHENTICATED; }
      var found := store.Get(r.connectionId, io.storeUp);
      if found.Err? {
        if found.message == CONNECTION_NOT_FOUND { return Response(404, CONNECTION_NOT_FOUND); }
        return Response(500, "could not load connection");
      }
      var connection := found.value;
      if connection.provider !in PROVIDERS { return Response(400, "unsupported provider"); }
      if connection.mode != OPERATOR { return Response(403, "connection is read-only"); }

      var user := session.value.user;
      var result, errorMessage := SUCCESS, "";
      var run := Run(connection, r.action, r.queueName, r.messageId, io.net);
      if run.Err? {
        result, errorMessage := FAILURE, run.message;
      }
      var logged := store.CreateAuditEntry(
        Entry(user.id, user.email, r.action, result, connection.provider, connection.id, r.queueName, r.messageId,
              errorMessage), io.auditUp);
      if logged.Err? { return Response(500, "action ran but audit logging failed"); }
      if run.Err? { return Response(400, errorMessage); }
      return Response(200, "");
    }
  }
}
