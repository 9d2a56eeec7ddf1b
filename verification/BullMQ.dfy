/**
 * RetryMessage and DeleteMessage against a Redis server. Each round trip may break, before or after
 * the server has carried the command out; the outcome of every trip is part of the input. The client sends a
 * command once.
 */
module BullMQ {
  import opened Text
  import opened Keys
  import opened Redis
  import opened Queues
  import opened Views

  const MESSAGE_NOT_FOUND := "message not found"
  const NOT_IN_FAILED_STATE := "message is not in failed state"
  /** Stands for whatever text the Redis client reports. */
  const REDIS_ERROR := "redis error"

  datatype Wire = Fine | Broken(effect: bool)

  type Network = nat -> Wire

  datatype Reply<+T> = Reply(db: Keyspace, result: Result<T>)

  // ---- round trips ----

  function ExistsTrip(db: Keyspace, key: string, wire: Wire): Result<bool> {
    if wire.Broken? then Err(REDIS_ERROR) else Ok(key in db)
  }

  /** ZREM: whether the member was there. */
  function ZRemTrip(db: Keyspace, key: string, member: string, wire: Wire): Reply<bool> {
    match Apply(db, ZRem(key, member))
    case None => Reply(db, Err(REDIS_ERROR))
    case Some(db') =>
      if wire.Broken? then Reply(if wire.effect then db' else db, Err(REDIS_ERROR))
      else Reply(db', Ok(member in RanksOf(db, key)))
  }

  /** HGET: a missing field is not an error. */
  function HGetTrip(db: Keyspace, key: string, field: string, wire: Wire): Result<Option<string>> {
    match HashAt(db, key)
    case None => Err(REDIS_ERROR)
    case Some(h) =>
      if wire.Broken? then Err(REDIS_ERROR) else Ok(if field in h then Some(h[field]) else None)
  }

  function ExecTrip(db: Keyspace, commands: seq<Command>, wire: Wire): Reply<()> {
    var e := Exec(db, commands);
    if wire.Broken? then Reply(if wire.effect then e.db else db, Err(REDIS_ERROR))
    else Reply(e.db, if e.clean then Ok(()) else Err(REDIS_ERROR))
  }

  class RedisServer {
    var db: Keyspace

    constructor (db: Keyspace)
      ensures this.db == db
    {
      this.db := db;
    }

    method Exists(key: string, wire: Wire) returns (r: Result<bool>)
      ensures r == ExistsTrip(db, key, wire)
    {
      r := ExistsTrip(db, key, wire);
    }

    method ZRem(key: string, member: string, wire: Wire) returns (r: Result<bool>)
      modifies this
      ensures Reply(db, r) == ZRemTrip(old(db), key, member, wire)
    {
      var reply := ZRemTrip(db, key, member, wire);
      db, r := reply.db, reply.result;
    }

    method HGet(key: string, field: string, wire: Wire) returns (r: Result<Option<string>>)
      ensures r == HGetTrip(db, key, field, wire)
    {
      r := HGetTrip(db, key, field, wire);
    }

    method TxExec(commands: seq<Command>, wire: Wire) returns (r: Result<()>)
      modifies this
      ensures Reply(db, r) == ExecTrip(old(db), commands, wire)
    {
      var reply := ExecTrip(db, commands, wire);
      db, r := reply.db, reply.result;
    }
  }

  // ---- the two operations ----

  function RetryCommands(prefix: string, queue: string, id: string, target: string): seq<Command> {
    [HDel(Key(prefix, queue, id), VOLATILE),
     LPush(target, id),
     ZAdd(Key(prefix, queue, "marker"), 0, "0"),
     XAdd(Key(prefix, queue, "events"), WaitingEvent(id))]
  }

  const PLACES := [Wait, Active, Paused, Delayed, Failed, Completed, Prioritized]

  function Removals(prefix: string, queue: string, places: seq<Place>, id: string): seq<Command> {
    if places == [] then [] else [RemoveFrom(prefix, queue, places[0], id)] + Removals(prefix, queue, places[1..], id)
  }

  function DeleteCommands(prefix: string, queue: string, id: string): seq<Command> {
    Removals(prefix, queue, PLACES, id)
    + [Del(DeletedKeys(prefix, queue, id)), XAdd(Key(prefix, queue, "events"), RemovedEvent(id))]
  }

  function TargetKey(prefix: string, queue: string, paused: Option<string>): string {
    Key(prefix, queue, if paused.Some? && paused.value != "" then "paused" else "wait")
  }

  /** The retry from its claim on. */
  function RetryClaimed(db: Keyspace, prefix: string, queue: string, id: string, net: Network): Reply<()> {
    match HGetTrip(db, Key(prefix, queue, "meta"), "paused", net(2))
    case Err(e) => Reply(db, Err(e))
    case Ok(paused) => ExecTrip(db, RetryCommands(prefix, queue, id, TargetKey(prefix, queue, paused)), net(3))
  }

  function Retry(db: Keyspace, prefix: string, queue: string, id: string, net: Network): Reply<()> {
    match ExistsTrip(db, Key(prefix, queue, id), net(0))
    case Err(e) => Reply(db, Err(e))
    case Ok(exists_) =>
      if !exists_ then Reply(db, Err(MESSAGE_NOT_FOUND))
      else
        var claim := ZRemTrip(db, Key(prefix, queue, "failed"), id, net(1));
        match claim.result
        case Err(e) => Reply(claim.db, Err(e))
        case Ok(removed) =>
          if !removed then Reply(claim.db, Err(NOT_IN_FAILED_STATE))
          else RetryClaimed(claim.db, prefix, queue, id, net)
  }

  function Delete(db: Keyspace, prefix: string, queue: string, id: string, net: Network): Reply<()> {
    match ExistsTrip(db, Key(prefix, queue, id), net(0))
    case Err(e) => Reply(db, Err(e))
    case Ok(exists_) =>
      if !exists_ then Reply(db, Err(MESSAGE_NOT_FOUND))
      else ExecTrip(db, DeleteCommands(prefix, queue, id), net(1))
  }

  method RetryMessage(server: RedisServer, prefix: string, queue: string, id: string, net: Network)
    returns (r: Result<()>)
    modifies server
    ensures Reply(server.db, r) == Retry(old(server.db), prefix, queue, id, net)
  {
    var jobKey := Key(prefix, queue, id);
    var known := server.Exists(jobKey, net(0));
    if known.Err? { return Err(known.message); }
    if !known.value { return Err(MESSAGE_NOT_FOUND); }

    var removed := server.ZRem(Key(prefix, queue, "failed"), id, net(1));
    if removed.Err? { return Err(removed.message); }
    if !removed.value { return Err(NOT_IN_FAILED_STATE); }

    var targetKey := Key(prefix, queue, "wait");
    var paused := server.HGet(Key(prefix, queue, "meta"), "paused", net(2));
    if paused.Err? { return Err(paused.message); }
    if paused.value.Some? && paused.value.value != "" {
      targetKey := Key(prefix, queue, "paused");
    }

    var pipe := [HDel(jobKey, VOLATILE)];
    pipe := pipe + [LPush(targetKey, id)];
    pipe := pipe + [ZAdd(Key(prefix, queue, "marker"), 0, "0")];
    pipe := pipe + [XAdd(Key(prefix, queue, "events"), WaitingEvent(id))];
    assert pipe == RetryCommands(prefix, queue, id, TargetKey(prefix, queue, paused.value));
    r := server.TxExec(pipe, net(3));
  }

  method DeleteMessage(server: RedisServer, prefix: string, queue: string, id: string, net: Network)
    returns (r: Result<()>)
    modifies server
    ensures Reply(server.db, r) == Delete(old(server.db), prefix, queue, id, net)
  {
    var key := Key(prefix, queue, id);
    var known := server.Exists(key, net(0));
    if known.Err? { return Err(known.message); }
    if !known.value { return Err(MESSAGE_NOT_FOUND); }

    var pipe := [LRem(Key(prefix, queue, "wait"), id), LRem(Key(prefix, queue, "active"), id),
                 LRem(Key(prefix, queue, "paused"), id), ZRem(Key(prefix, queue, "delayed"), id),
                 ZRem(Key(prefix, queue, "failed"), id), ZRem(Key(prefix, queue, "completed"), id),
                 ZRem(Key(prefix, queue, "prioritized"), id)];
    RemovalsAre(prefix, queue, id);
    pipe := pipe
      + [Del({key, key + ":logs", key + ":dependencies", key + ":processed", key + ":failed", key + ":unsuccessful"})];
    pipe := pipe + [XAdd(Key(prefix, queue, "events"), RemovedEvent(id))];
    assert pipe == DeleteCommands(prefix, queue, id);
    r := server.TxExec(pipe, net(1));
  }

  lemma RemovalsAre(prefix: string, queue: string, id: string)
    ensures Removals(prefix, queue, PLACES, id)
            == [LRem(Key(prefix, queue, "wait"), id), LRem(Key(prefix, queue, "active"), id),
                LRem(Key(prefix, queue, "paused"), id), ZRem(Key(prefix, queue, "delayed"), id),
                ZRem(Key(prefix, queue, "failed"), id), ZRem(Key(prefix, queue, "completed"), id),
                ZRem(Key(prefix, queue, "prioritized"), id)]
  {
    hide Key, Suffix;
    Cons(prefix, queue, Prioritized, [], id);
    Cons(prefix, queue, Completed, [Prioritized], id);
    Cons(prefix, queue, Failed, [Completed, Prioritized], id);
    Cons(prefix, queue, Delayed, [Failed, Completed, Prioritized], id);
    Cons(prefix, queue, Paused, [Delayed, Failed, Completed, Prioritized], id);
    Cons(prefix, queue, Active, [Paused, Delayed, Failed, Completed, Prioritized], id);
    Cons(prefix, queue, Wait, [Active, Paused, Delayed, Failed, Completed, Prioritized], id);
    SuffixesAre();
  }

  lemma SuffixesAre()
    ensures Suffix(Wait) == "wait" && Suffix(Active) == "active" && Suffix(Paused) == "paused"
    ensures Suffix(Delayed) == "delayed" && Suffix(Failed) == "failed"
    ensures Suffix(Completed) == "completed" && Suffix(Prioritized) == "prioritized"
  {}

  lemma Cons(prefix: string, queue: string, p: Place, rest: seq<Place>, id: string)
    ensures Removals(prefix, queue, [p] + rest, id)
            == [RemoveFrom(prefix, queue, p, id)] + Removals(prefix, queue, rest, id)
  {}
}
