/** What any sequence of retries and deletes on one queue, over any network, leaves as it was. */
module Frames {
  import opened Text
  import opened Keys
  import opened Redis
  import opened Queues
  import opened Views
  import opened BullMQ
  import opened Effects

  datatype Action = RetryOf(id: string, net: Network) | DeleteOf(id: string, net: Network)

  function Act(db: Keyspace, prefix: string, queue: string, a: Action): Keyspace {
    match a
    case RetryOf(id, net) => Retry(db, prefix, queue, id, net).db
    case DeleteOf(id, net) => Delete(db, prefix, queue, id, net).db
  }

  function ActAll(db: Keyspace, prefix: string, queue: string, actions: seq<Action>): Keyspace
    decreases |actions|
  {
    if actions == [] then db else ActAll(Act(db, prefix, queue, actions[0]), prefix, queue, actions[1..])
  }

  // ---- other queues ----

  ghost predicate OwnKey(prefix: string, queue: string, key: string) { exists s :: key == Key(prefix, queue, s) }

  ghost predicate OwnCommand(prefix: string, queue: string, c: Command) {
    forall k :: k in Touched(c) ==> OwnKey(prefix, queue, k)
  }

  ghost predicate OwnCommands(prefix: string, queue: string, commands: seq<Command>) {
    forall c :: c in commands ==> OwnCommand(prefix, queue, c)
  }

  lemma RetryOwn(prefix: string, queue: string, id: string, paused: Option<string>)
    ensures OwnCommands(prefix, queue, RetryCommands(prefix, queue, id, TargetKey(prefix, queue, paused)))
  {}

  lemma {:induction false} RemovalsOwn(prefix: string, queue: string, places: seq<Place>, id: string)
    ensures OwnCommands(prefix, queue, Removals(prefix, queue, places, id))
    decreases |places|
  {
    hide Key;
    if places != [] {
      RemovalsOwn(prefix, queue, places[1..], id);
      assert OwnKey(prefix, queue, Key(prefix, queue, Suffix(places[0])));
    }
  }

  lemma DeleteOwn(prefix: string, queue: string, id: string)
    ensures OwnCommands(prefix, queue, DeleteCommands(prefix, queue, id))
  {
    hide Key, DeletedKeys, Removals;
    RemovalsOwn(prefix, queue, PLACES, id);
    var del := Del(DeletedKeys(prefix, queue, id));
    var add := XAdd(Key(prefix, queue, "events"), RemovedEvent(id));
    forall k | k in DeletedKeys(prefix, queue, id) ensures OwnKey(prefix, queue, k) {
      DeletedKeysAre(prefix, queue, id);
      assert k == Key(prefix, queue, id) || exists sub :: sub in SUB_SUFFIXES && k == Key(prefix, queue, id + sub);
    }
    assert OwnCommand(prefix, queue, del);
    assert OwnKey(prefix, queue, add.key);
    assert OwnCommand(prefix, queue, add);
  }

  lemma ExecElsewhere(db: Keyspace, commands: seq<Command>, prefix: string, queue: string, other: string)
    requires OwnCommands(prefix, queue, commands) && Apart(queue, other)
    ensures SameQueue(db, Exec(db, commands).db, prefix, other)
  {
    hide Key;
    forall s ensures SameAt(db, Exec(db, commands).db, Key(prefix, other, s)) {
      forall c | c in commands ensures Key(prefix, other, s) !in Touched(c) {
        assert OwnCommand(prefix, queue, c);
        if Key(prefix, other, s) in Touched(c) {
          var t :| Key(prefix, other, s) == Key(prefix, queue, t);
          ApartIff(prefix, queue, other);
        }
      }
      ExecFrame(db, commands, Key(prefix, other, s));
    }
  }

  lemma ActElsewhere(db: Keyspace, prefix: string, queue: string, a: Action, other: string)
    requires Apart(queue, other)
    ensures SameQueue(db, Act(db, prefix, queue, a), prefix, other)
  {
    hide Key, Exec, DeleteCommands, RetryCommands, Apply;
    match a
    case RetryOf(id, net) =>
      var claim := ZRemTrip(db, Key(prefix, queue, "failed"), id, net(1));
      ClaimElsewhere(db, prefix, queue, id, other);
      var flag := HGetTrip(claim.db, Key(prefix, queue, "meta"), "paused", net(2));
      if flag.Ok? {
        var commands := RetryCommands(prefix, queue, id, TargetKey(prefix, queue, flag.value));
        RetryOwn(prefix, queue, id, flag.value);
        ExecElsewhere(claim.db, commands, prefix, queue, other);
        SameTransitive(db, claim.db, Exec(claim.db, commands).db, prefix, other);
      }
    case DeleteOf(id, net) =>
      DeleteOwn(prefix, queue, id);
      ExecElsewhere(db, DeleteCommands(prefix, queue, id), prefix, queue, other);
  }

  lemma SameTransitive(a: Keyspace, b: Keyspace, c: Keyspace, prefix: string, queue: string)
    requires SameQueue(a, b, prefix, queue) && SameQueue(b, c, prefix, queue)
    ensures SameQueue(a, c, prefix, queue)
  {}

  lemma ClaimElsewhere(db: Keyspace, prefix: string, queue: string, id: string, other: string)
    requires Apart(queue, other)
    ensures var r := Apply(db, ZRem(Key(prefix, queue, "failed"), id));
            r.Some? ==> SameQueue(db, r.value, prefix, other)
  {
    hide Key;
    ApartIff(prefix, queue, other);
  }

  /**
   * Any retries and deletes on one queue, with any ids, leave every key of another queue unchanged, unless
   * one of the two names is nested in the other. Of nested queues a single delete reaches across:
   * see `Keys.DeleteReachesNestedQueue`.
   */
  lemma {:induction false} OtherQueuesUntouched(db: Keyspace, prefix: string, queue: string, actions: seq<Action>,
                                                other: string)
    requires Apart(queue, other)
    ensures SameQueue(db, ActAll(db, prefix, queue, actions), prefix, other)
    decreases |actions|
  {
    if actions != [] {
      var db1 := Act(db, prefix, queue, actions[0]);
      ActElsewhere(db, prefix, queue, actions[0], other);
      OtherQueuesUntouched(db1, prefix, queue, actions[1..], other);
      SameTransitive(db, db1, ActAll(db1, prefix, queue, actions[1..]), prefix, other);
    }
  }

  // ---- other jobs of the same queue ----

  /** What is left of a list when some ids are crossed out, in order. */
  function CrossedOut(s: seq<string>, ids: set<string>): seq<string> {
    if s == [] then []
    else if s[0] in ids then CrossedOut(s[1..], ids)
    else [s[0]] + CrossedOut(s[1..], ids)
  }

  lemma {:induction false} CrossedOutWithout(s: seq<string>, id: string, ids: set<string>)
    requires id in ids
    ensures CrossedOut(Without(s, id), ids) == CrossedOut(s, ids)
  {
    if s != [] {
      CrossedOutWithout(s[1..], id, ids);
      if s[0] != id { assert ([s[0]] + Without(s[1..], id))[1..] == Without(s[1..], id); }
    }
  }

  /** The hashes of other jobs, and the relative order of other ids in each of the seven structures. */
  ghost predicate OthersAlike(a: Queue, b: Queue, ids: set<string>) {
    && (forall p: Place :: CrossedOut(a.At(p), ids) == CrossedOut(b.At(p), ids))
    && (forall x :: x !in ids ==> (x in a.jobs <==> x in b.jobs) && (x in a.jobs ==> a.jobs[x] == b.jobs[x]))
    && a.isPaused == b.isPaused
  }

  lemma ClaimedAlike(q: Queue, id: string, ids: set<string>)
    requires id in ids
    ensures OthersAlike(q, q.Claimed(id), ids)
  {
    CrossedOutWithout(q.failed, id, ids);
  }

  lemma RequeuedAlike(q: Queue, id: string, target: Place, ids: set<string>)
    requires id in ids
    ensures OthersAlike(q, q.Requeued(id, target), ids)
  {
    assert ([id] + q.At(target))[1..] == q.At(target);
  }

  lemma RemovedAlike(q: Queue, id: string, ids: set<string>)
    requires id in ids
    ensures OthersAlike(q, q.Removed(id), ids)
  {
    forall p: Place ensures CrossedOut(q.At(p), ids) == CrossedOut(q.Removed(id).At(p), ids) {
      CrossedOutWithout(q.At(p), id, ids);
    }
  }

  /**
   * Any retries and deletes of the given jobs, even over a broken connection, keep every other job's
   * hash and the relative order of all other ids.
   */
  lemma {:induction false} OtherJobsUntouched(db: Keyspace, prefix: string, queue: string, actions: seq<Action>,
                                              ids: set<string>)
    requires Typed(db, prefix, queue) && Compact(db)
    requires forall a :: a in actions ==> a.id in ids && a.id !in STATE_SUFFIXES
    ensures OthersAlike(View(db, prefix, queue), View(ActAll(db, prefix, queue, actions), prefix, queue), ids)
    ensures Typed(ActAll(db, prefix, queue, actions), prefix, queue)
    decreases |actions|
  {
    if actions != [] {
      hide View, Typed, Compact, OthersAlike;
      var a := actions[0];
      assert a in actions;
      var db1 := Act(db, prefix, queue, a);
      ActAlike(db, prefix, queue, a, ids);
      ActCompact(db, prefix, queue, a);
      OtherJobsUntouched(db1, prefix, queue, actions[1..], ids);
      AlikeTransitive(View(db, prefix, queue), View(db1, prefix, queue),
                      View(ActAll(db1, prefix, queue, actions[1..]), prefix, queue), ids);
    } else {
      assert OthersAlike(View(db, prefix, queue), View(db, prefix, queue), ids);
    }
  }

  lemma AlikeTransitive(a: Queue, b: Queue, c: Queue, ids: set<string>)
    requires OthersAlike(a, b, ids) && OthersAlike(b, c, ids)
    ensures OthersAlike(a, c, ids)
  {}

  lemma ActAlike(db: Keyspace, prefix: string, queue: string, a: Action, ids: set<string>)
    requires Typed(db, prefix, queue) && Compact(db) && a.id in ids && a.id !in STATE_SUFFIXES
    ensures var db' := Act(db, prefix, queue, a);
            Typed(db', prefix, queue) && OthersAlike(View(db, prefix, queue), View(db', prefix, queue), ids)
  {
    hide View, Typed, Compact, Retry, Delete, CrossedOut, JobTyped, Deleted;
    var q := View(db, prefix, queue);
    match a
    case RetryOf(id, net) =>
      RetryOutcomes(db, prefix, queue, id, net);
      ClaimedAlike(q, id, ids);
      RequeuedAlike(q.Claimed(id), id, q.Target(), ids);
      AlikeTransitive(q, q.Claimed(id), q.Claimed(id).Requeued(id, q.Target()), ids);
    case DeleteOf(id, net) =>
      DeleteOutcomes(db, prefix, queue, id, net);
      DeletedIsRemoved(q, id);
      RemovedAlike(q, id, ids);
  }

  lemma ApplyCompact(db: Keyspace, c: Command)
    requires Compact(db) && Apply(db, c).Some?
    ensures Compact(Apply(db, c).value)
  {}

  lemma {:induction false} ExecCompact(db: Keyspace, commands: seq<Command>)
    requires Compact(db)
    ensures Compact(Exec(db, commands).db)
    decreases |commands|
  {
    hide Compact, Apply;
    if commands != [] {
      match Apply(db, commands[0])
      case None => ExecCompact(db, commands[1..]);
      case Some(db') =>
        ApplyCompact(db, commands[0]);
        ExecCompact(db', commands[1..]);
    }
  }

  lemma ActCompact(db: Keyspace, prefix: string, queue: string, a: Action)
    requires Compact(db)
    ensures Compact(Act(db, prefix, queue, a))
  {
    hide Key, Exec, DeleteCommands, RetryCommands, Apply, Compact;
    match a
    case RetryOf(id, net) =>
      var claim := ZRemTrip(db, Key(prefix, queue, "failed"), id, net(1));
      if Apply(db, ZRem(Key(prefix, queue, "failed"), id)).Some? {
        ApplyCompact(db, ZRem(Key(prefix, queue, "failed"), id));
      }
      var flag := HGetTrip(claim.db, Key(prefix, queue, "meta"), "paused", net(2));
      if flag.Ok? { ExecCompact(claim.db, RetryCommands(prefix, queue, id, TargetKey(prefix, queue, flag.value))); }
    case DeleteOf(id, net) => ExecCompact(db, DeleteCommands(prefix, queue, id));
  }
}
