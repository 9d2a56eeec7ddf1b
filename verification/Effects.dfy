/** What a retry and a delete mean for the queue they act on, and what they leave alone. */
module Effects {
  import opened Text
  import opened Keys
  import opened Redis
  import opened Queues
  import opened Views
  import opened BullMQ

  ghost predicate Reliable(net: Network) { forall i: nat :: net(i) == Fine }

  // ---- the two transactions, read through the view ----

  lemma ExecCons(db: Keyspace, c: Command, rest: seq<Command>)
    requires Apply(db, c).Some?
    ensures Exec(db, [c] + rest) == Exec(Apply(db, c).value, rest)
  {}

  lemma ExecRefused(db: Keyspace, c: Command, rest: seq<Command>)
    requires Apply(db, c).None?
    ensures Exec(db, [c] + rest) == Exec(db, rest).(clean := false)
  {}

  lemma RetryExec(db: Keyspace, prefix: string, queue: string, id: string, target: Place)
    requires Typed(db, prefix, queue) && id !in STATE_SUFFIXES && target in {Wait, Paused}
    ensures var e := Exec(db, RetryCommands(prefix, queue, id, Key(prefix, queue, Suffix(target))));
            && (e.clean <==> JobTyped(db, prefix, queue, id)) && Typed(e.db, prefix, queue)
            && View(e.db, prefix, queue) == View(db, prefix, queue).Requeued(id, target)
  {
    hide Apply, View, Typed, JobTyped, Key, Exec;
    var key := Key(prefix, queue, Suffix(target));
    var c1, c2 := HDel(Key(prefix, queue, id), VOLATILE), LPush(key, id);
    var c3, c4 := ZAdd(Key(prefix, queue, "marker"), 0, "0"), XAdd(Key(prefix, queue, "events"), WaitingEvent(id));
    ClearView(db, prefix, queue, id);
    var db1 := if Apply(db, c1).Some? then Apply(db, c1).value else db;
    PushView(db1, prefix, queue, target, id);
    var db2 := Apply(db1, c2).value;
    MarkView(db2, prefix, queue);
    var db3 := Apply(db2, c3).value;
    EventView(db3, prefix, queue, WaitingEvent(id));
    if Apply(db, c1).Some? { ExecCons(db, c1, [c2, c3, c4]); } else { ExecRefused(db, c1, [c2, c3, c4]); }
    ExecCons(db1, c2, [c3, c4]);
    ExecCons(db2, c3, [c4]);
    ExecCons(db3, c4, []);
    assert [c1] + [c2, c3, c4] == [c1, c2, c3, c4] && [c2] + [c3, c4] == [c2, c3, c4];
    assert [c3] + [c4] == [c3, c4] && [c4] + [] == [c4];
    ExecNothing(Apply(db3, c4).value);
  }

  lemma ExecNothing(db: Keyspace)
    ensures Exec(db, []) == Executed(db, true)
  {}

  /** The queue with an id taken out of some places, in order. */
  function TakenOut(q: Queue, places: seq<Place>, id: string): Queue
    decreases |places|
  {
    if places == [] then q
    else TakenOut(q.With(places[0], Without(q.At(places[0]), id)), places[1..], id)
  }

  lemma {:induction false} RemovalsExec(db: Keyspace, prefix: string, queue: string, places: seq<Place>, id: string,
                                        rest: seq<Command>)
    returns (db': Keyspace)
    requires Typed(db, prefix, queue)
    ensures Exec(db, Removals(prefix, queue, places, id) + rest) == Exec(db', rest)
    ensures Typed(db', prefix, queue)
    ensures View(db', prefix, queue) == TakenOut(View(db, prefix, queue), places, id)
    decreases |places|
  {
    hide Apply, View, Typed, Key, Exec;
    if places == [] {
      assert Removals(prefix, queue, places, id) + rest == rest;
      db' := db;
    } else {
      var c := RemoveFrom(prefix, queue, places[0], id);
      RemoveView(db, prefix, queue, places[0], id);
      db' := RemovalsExec(Apply(db, c).value, prefix, queue, places[1..], id, rest);
      assert Removals(prefix, queue, places, id) + rest == [c] + (Removals(prefix, queue, places[1..], id) + rest);
      ExecCons(db, c, Removals(prefix, queue, places[1..], id) + rest);
    }
  }

  lemma AllTakenOut(q: Queue, id: string)
    ensures TakenOut(q, PLACES, id)
            == Queue(Without(q.wait, id), Without(q.active, id), Without(q.paused, id), Without(q.delayed, id),
                     Without(q.failed, id), Without(q.completed, id), Without(q.prioritized, id),
                     q.isPaused, q.jobs, q.marker, q.events)
  {}

  /**
   * What a delete leaves, for any id: the id and its job are gone, and so is the state key whose suffix
   * the id is, if it is one.
   */
  function Deleted(q: Queue, id: string): Queue {
    if id == "events" then q.Removed(id).(events := [RemovedEvent(id)]) else Blanked(q.Removed(id), id)
  }

  lemma DeletedIsRemoved(q: Queue, id: string)
    requires id !in STATE_SUFFIXES
    ensures Deleted(q, id) == q.Removed(id)
  {}

  lemma DeletedInSteps(q: Queue, id: string)
    ensures var b := Blanked(TakenOut(q, PLACES, id), id);
            b.(events := b.events + [RemovedEvent(id)]) == Deleted(q, id)
  {
    AllTakenOut(q, id);
    hide TakenOut, Without;
  }

  lemma DeleteExec(db: Keyspace, prefix: string, queue: string, id: string)
    requires Typed(db, prefix, queue)
    ensures var e := Exec(db, DeleteCommands(prefix, queue, id));
            && e.clean && Typed(e.db, prefix, queue)
            && View(e.db, prefix, queue) == Deleted(View(db, prefix, queue), id)
  {
    hide Apply, View, Typed, Key, Exec, DeletedKeys, TakenOut, Deleted, Blanked;
    var c1, c2 := Del(DeletedKeys(prefix, queue, id)), XAdd(Key(prefix, queue, "events"), RemovedEvent(id));
    var db1 := RemovalsExec(db, prefix, queue, PLACES, id, [c1, c2]);
    DeletedInSteps(View(db, prefix, queue), id);
    DelView(db1, prefix, queue, id);
    var db2 := Apply(db1, c1).value;
    EventView(db2, prefix, queue, RemovedEvent(id));
    ExecCons(db1, c1, [c2]);
    ExecCons(db2, c2, []);
    assert [c1] + [c2] == [c1, c2] && [c2] + [] == [c2];
    ExecNothing(Apply(db2, c2).value);
  }

  lemma ClaimView(db: Keyspace, prefix: string, queue: string, id: string)
    requires Typed(db, prefix, queue)
    ensures var r := Apply(db, ZRem(Key(prefix, queue, "failed"), id));
            && r.Some? && Typed(r.value, prefix, queue)
            && View(r.value, prefix, queue) == View(db, prefix, queue).Claimed(id)
    ensures id in RanksOf(db, Key(prefix, queue, "failed")) <==> id in View(db, prefix, queue).failed
    ensures id !in View(db, prefix, queue).failed && Compact(db)
            ==> Apply(db, ZRem(Key(prefix, queue, "failed"), id)) == Some(db)
  {
    hide View, Typed, Drop, Members, Compact;
    RemoveView(db, prefix, queue, Failed, id);
    ViewAt(db, prefix, queue, Failed);
    if id !in View(db, prefix, queue).failed && Compact(db) { NoClaim(db, Key(prefix, queue, "failed"), id); }
  }

  lemma NoClaim(db: Keyspace, key: string, id: string)
    requires Compact(db) && ZSetAt(db, key).Some? && id !in RanksOf(db, key)
    ensures Apply(db, ZRem(key, id)) == Some(db)
  {
    DropAbsent(ZSetAt(db, key).value, id);
    if key in db {
      assert !Vacant(db[key]);
      assert db[key := db[key]] == db;
    } else {
      assert db - {key} == db;
    }
  }

  /** Redis stores nothing empty. */
  predicate Compact(db: Keyspace) { forall k :: k in db ==> !Vacant(db[k]) }

  lemma {:induction false} DropAbsent(entries: seq<ZEntry>, member: string)
    requires member !in Members(entries)
    ensures Drop(entries, member) == entries
  {
    if entries != [] {
      assert Members(entries)[0] == entries[0].member;
      assert Members(entries)[1..] == Members(entries[1..]);
      DropAbsent(entries[1..], member);
    }
  }

  lemma FlagView(db: Keyspace, prefix: string, queue: string)
    requires Typed(db, prefix, queue)
    ensures var r := HGetTrip(db, Key(prefix, queue, "meta"), "paused", Fine);
            && r.Ok?
            && TargetKey(prefix, queue, r.value) == Key(prefix, queue, Suffix(View(db, prefix, queue).Target()))
  {}

  lemma KnownView(db: Keyspace, prefix: string, queue: string, id: string)
    requires PlainId(id) && JobTyped(db, prefix, queue, id)
    ensures Key(prefix, queue, id) in db <==> id in View(db, prefix, queue).jobs
  {
    JobsAt(db, prefix, queue, id);
    ViewParts(db, prefix, queue);
  }

  // ---- what is no hash stays no hash, and what is one stays one ----

  predicate KeepsHash(c: Command, key: string) { key in Touched(c) ==> c.HDel? || c.Del? }

  lemma ApplyKeepsHash(db: Keyspace, c: Command, key: string)
    requires HashAt(db, key).Some? && KeepsHash(c, key) && Apply(db, c).Some?
    ensures HashAt(Apply(db, c).value, key).Some?
  {}

  lemma {:induction false} ExecKeepsHash(db: Keyspace, commands: seq<Command>, key: string)
    requires HashAt(db, key).Some? && forall c :: c in commands ==> KeepsHash(c, key)
    ensures HashAt(Exec(db, commands).db, key).Some?
    decreases |commands|
  {
    hide Apply, KeepsHash, HashAt;
    if commands != [] {
      assert commands[0] in commands;
      match Apply(db, commands[0])
      case None => ExecKeepsHash(db, commands[1..], key);
      case Some(db') =>
        ApplyKeepsHash(db, commands[0], key);
        ExecKeepsHash(db', commands[1..], key);
    }
  }

  /** No round trip of a retry or a delete of any job turns a job's key into something that is not a hash. */
  lemma ClaimKeepsJob(db: Keyspace, prefix: string, queue: string, id: string, x: string)
    requires PlainId(x) && JobTyped(db, prefix, queue, x)
    ensures var r := Apply(db, ZRem(Key(prefix, queue, "failed"), id)); r.Some? ==> JobTyped(r.value, prefix, queue, x)
  {
    SuffixInjective(prefix, queue, "failed", x);
    hide Key;
  }

  lemma RetryKeepsJob(db: Keyspace, prefix: string, queue: string, id: string, to: Place, x: string)
    requires PlainId(x) && JobTyped(db, prefix, queue, x)
    ensures JobTyped(Exec(db, RetryCommands(prefix, queue, id, Key(prefix, queue, Suffix(to)))).db, prefix, queue, x)
  {
    SuffixInjective(prefix, queue, Suffix(to), x);
    SuffixInjective(prefix, queue, "marker", x);
    SuffixInjective(prefix, queue, "events", x);
    hide Key, Exec;
    ExecKeepsHash(db, RetryCommands(prefix, queue, id, Key(prefix, queue, Suffix(to))), Key(prefix, queue, x));
  }

  lemma DeleteKeepsJob(db: Keyspace, prefix: string, queue: string, id: string, x: string)
    requires PlainId(x) && JobTyped(db, prefix, queue, x)
    ensures JobTyped(Exec(db, DeleteCommands(prefix, queue, id)).db, prefix, queue, x)
  {
    hide Key, Exec, Removals, DeletedKeys, Suffix;
    var key := Key(prefix, queue, x);
    SuffixInjective(prefix, queue, "events", x);
    RemovalsAvoid(prefix, queue, PLACES, id, x);
    forall c | c in DeleteCommands(prefix, queue, id) ensures KeepsHash(c, key) {}
    ExecKeepsHash(db, DeleteCommands(prefix, queue, id), key);
  }

  lemma {:induction false} RemovalsAvoid(prefix: string, queue: string, places: seq<Place>, id: string, x: string)
    requires PlainId(x)
    ensures forall c :: c in Removals(prefix, queue, places, id) ==> KeepsHash(c, Key(prefix, queue, x))
    decreases |places|
  {
    if places != [] {
      SuffixInjective(prefix, queue, Suffix(places[0]), x);
      hide Key;
      RemovalsAvoid(prefix, queue, places[1..], id, x);
    }
  }

  // ---- undisturbed operations ----

  /**
   * A retry succeeds exactly on a known, failed id under whose key there is a hash. If there is something else,
   * it reports an error, and has re-queued the id all the same. Otherwise it says why and changes nothing.
   */
  lemma RetryMeaning(db: Keyspace, prefix: string, queue: string, id: string, net: Network)
    requires Typed(db, prefix, queue) && Compact(db) && id !in STATE_SUFFIXES && Reliable(net)
    ensures var r := Retry(db, prefix, queue, id, net); var q := View(db, prefix, queue);
            && Typed(r.db, prefix, queue)
            && if Key(prefix, queue, id) !in db then r == Reply(db, Err(MESSAGE_NOT_FOUND))
               else if id !in q.failed then r == Reply(db, Err(NOT_IN_FAILED_STATE))
               else
                 && View(r.db, prefix, queue) == q.Claimed(id).Requeued(id, q.Target())
                 && r.result == if JobTyped(db, prefix, queue, id) then Ok(()) else Err(REDIS_ERROR)
    ensures PlainId(id) && JobTyped(db, prefix, queue, id) ==>
              (Key(prefix, queue, id) in db <==> id in View(db, prefix, queue).jobs)
  {
    hide View, Typed, JobTyped, PlainId, Exec, Apply, Compact;
    assert net(0) == net(1) == net(2) == net(3) == Fine;
    if PlainId(id) && JobTyped(db, prefix, queue, id) { KnownView(db, prefix, queue, id); }
    ClaimView(db, prefix, queue, id);
    var q := View(db, prefix, queue);
    if Key(prefix, queue, id) in db && id in q.failed {
      ClaimKeepsType(db, prefix, queue, id);
      var db1 := Apply(db, ZRem(Key(prefix, queue, "failed"), id)).value;
      FlagView(db1, prefix, queue);
      RetryExec(db1, prefix, queue, id, q.Target());
    }
  }

  lemma ClaimKeepsType(db: Keyspace, prefix: string, queue: string, id: string)
    requires id !in STATE_SUFFIXES
    ensures var r := Apply(db, ZRem(Key(prefix, queue, "failed"), id));
            r.Some? ==> (JobTyped(r.value, prefix, queue, id) <==> JobTyped(db, prefix, queue, id))
  {
    SuffixInjective(prefix, queue, "failed", id);
    hide Key;
  }

  /** A delete succeeds exactly on a known job; otherwise it changes nothing. */
  lemma DeleteMeaning(db: Keyspace, prefix: string, queue: string, id: string, net: Network)
    requires Typed(db, prefix, queue) && PlainId(id) && JobTyped(db, prefix, queue, id) && Reliable(net)
    ensures var r := Delete(db, prefix, queue, id, net); var q := View(db, prefix, queue);
            && Typed(r.db, prefix, queue)
            && if id !in q.jobs then r == Reply(db, Err(MESSAGE_NOT_FOUND))
               else r.result.Ok? && View(r.db, prefix, queue) == q.Removed(id)
  {
    hide View, Typed, JobTyped, Delete;
    KnownView(db, prefix, queue, id);
    DeleteAnyId(db, prefix, queue, id, net);
    DeletedIsRemoved(View(db, prefix, queue), id);
  }

  /** For any id at all: a delete succeeds exactly if there is a key under the id, and then wipes what the id names. */
  lemma DeleteAnyId(db: Keyspace, prefix: string, queue: string, id: string, net: Network)
    requires Typed(db, prefix, queue) && Reliable(net)
    ensures var r := Delete(db, prefix, queue, id, net);
            && Typed(r.db, prefix, queue)
            && if Key(prefix, queue, id) !in db then r == Reply(db, Err(MESSAGE_NOT_FOUND))
               else r.result.Ok? && View(r.db, prefix, queue) == Deleted(View(db, prefix, queue), id)
  {
    hide View, Typed, Exec, DeleteCommands, Deleted;
    assert net(0) == net(1) == Fine;
    DeleteExec(db, prefix, queue, id);
  }

  // ---- a broken connection ----

  datatype Outcome = Outcome(queue: Queue, answer: Result<()>)

  /**
   * What a retry does to a queue and answers, over a network that may break any of its round trips. `found` says
   * whether there is a key under the id, and `hash` whether it may hold a hash.
   */
  function RetryOutcome(q: Queue, id: string, found: bool, hash: bool, net: Network): Outcome {
    if net(0).Broken? then Outcome(q, Err(REDIS_ERROR))
    else if !found then Outcome(q, Err(MESSAGE_NOT_FOUND))
    else if net(1).Broken? then Outcome(if net(1).effect then q.Claimed(id) else q, Err(REDIS_ERROR))
    else if id !in q.failed then Outcome(q, Err(NOT_IN_FAILED_STATE))
    else if net(2).Broken? then Outcome(q.Claimed(id), Err(REDIS_ERROR))
    else
      var pushed := q.Claimed(id).Requeued(id, q.Target());
      if net(3).Broken? then Outcome(if net(3).effect then pushed else q.Claimed(id), Err(REDIS_ERROR))
      else Outcome(pushed, if hash then Ok(()) else Err(REDIS_ERROR))
  }

  function DeleteOutcome(q: Queue, id: string, found: bool, net: Network): Outcome {
    if net(0).Broken? then Outcome(q, Err(REDIS_ERROR))
    else if !found then Outcome(q, Err(MESSAGE_NOT_FOUND))
    else if net(1).Broken? then Outcome(if net(1).effect then Deleted(q, id) else q, Err(REDIS_ERROR))
    else Outcome(Deleted(q, id), Ok(()))
  }

  /** For every network: the queue and the answer after a retry are those of the outcome on the abstract queue. */
  lemma RetryOutcomes(db: Keyspace, prefix: string, queue: string, id: string, net: Network)
    requires Typed(db, prefix, queue) && Compact(db) && id !in STATE_SUFFIXES
    ensures var r := Retry(db, prefix, queue, id, net); var q := View(db, prefix, queue);
            && Typed(r.db, prefix, queue)
            && Outcome(View(r.db, prefix, queue), r.result)
               == RetryOutcome(q, id, Key(prefix, queue, id) in db, JobTyped(db, prefix, queue, id), net)
  {
    hide View, Typed, JobTyped, Exec, Apply, Compact, RetryCommands, Key, Queue.Requeued, Queue.Claimed, Queue.Target;
    ClaimView(db, prefix, queue, id);
    ClaimKeepsType(db, prefix, queue, id);
    var db1 := Apply(db, ZRem(Key(prefix, queue, "failed"), id)).value;
    FlagView(db1, prefix, queue);
    ClaimedTarget(View(db, prefix, queue), id);
    RetryExec(db1, prefix, queue, id, View(db, prefix, queue).Target());
    var meta := Key(prefix, queue, "meta");
    assert HGetTrip(db1, meta, "paused", net(2)).Ok? ==>
             HGetTrip(db1, meta, "paused", net(2)) == HGetTrip(db1, meta, "paused", Fine);
  }

  lemma ClaimedTarget(q: Queue, id: string)
    ensures q.Claimed(id).Target() == q.Target() && q.Target() in {Wait, Paused}
  {}

  /** Likewise for a delete, of any id. */
  lemma DeleteOutcomes(db: Keyspace, prefix: string, queue: string, id: string, net: Network)
    requires Typed(db, prefix, queue)
    ensures var r := Delete(db, prefix, queue, id, net); var q := View(db, prefix, queue);
            && Typed(r.db, prefix, queue)
            && Outcome(View(r.db, prefix, queue), r.result) == DeleteOutcome(q, id, Key(prefix, queue, id) in db, net)
  {
    hide View, Typed, Exec, DeleteCommands, Deleted;
    DeleteExec(db, prefix, queue, id);
  }

  // ---- a delete of an id that is also the suffix of a state key ----

  /** What the id names besides a job is empty, apart from the id itself. */
  predicate NamesNothingElse(q: Queue, id: string) {
    && (forall p: Place :: Suffix(p) == id ==> Without(q.At(p), id) == [])
    && (id == "meta" ==> !q.isPaused) && (id == "marker" ==> q.marker == {}) && (id == "events" ==> q.events == [])
  }

  /**
   * A delete takes its own job, and nothing else, out of the queue exactly when its id is not the suffix
   * of a state key that holds anything else. DeleteMessage does not check this.
   */
  lemma DeleteSparesRestIff(db: Keyspace, prefix: string, queue: string, id: string, net: Network)
    requires Typed(db, prefix, queue) && Key(prefix, queue, id) in db && Reliable(net)
    ensures var q := View(db, prefix, queue);
            View(Delete(db, prefix, queue, id, net).db, prefix, queue) == q.Removed(id) <==> NamesNothingElse(q, id)
  {
    hide View, Typed, Delete, Key, Without;
    DeleteAnyId(db, prefix, queue, id, net);
    BlankedIff(View(db, prefix, queue), id);
  }

  lemma BlankedIff(q: Queue, id: string)
    ensures Deleted(q, id) == q.Removed(id) <==> NamesNothingElse(q, id)
  {
    hide Without;
    var r := q.Removed(id);
    forall p: Place ensures r.At(p) == Without(q.At(p), id) {}
    assert id == "events" ==> forall p: Place :: Suffix(p) != id;
    hide Queue.Removed, Queue.Dropped, Blanked, Suffix, Queue.At;
    if id != "events" { BlankedSameIff(r, id); }
  }

  lemma BlankedSameIff(r: Queue, id: string)
    requires id !in r.jobs && id != "events"
    ensures Blanked(r, id) == r <==>
              (forall p: Place :: Suffix(p) == id ==> r.At(p) == [])
              && (id == "meta" ==> !r.isPaused) && (id == "marker" ==> r.marker == {})
  {
    hide Blanked, Suffix, Queue.At;
    forall p: Place ensures Blanked(r, id).At(p) == if Suffix(p) == id then [] else r.At(p) { BlankedAt(r, id, p); }
    BlankedParts(r, id);
    if forall p: Place :: Blanked(r, id).At(p) == r.At(p) {
      if (id == "meta" ==> !r.isPaused) && (id == "marker" ==> r.marker == {}) { EqualQueues(Blanked(r, id), r); }
    }
  }

  // ---- what the two operations do, spelled out ----

  predicate Has(jobs: map<string, Hash>, id: string, field: string) { id in jobs && field in jobs[id] }

  /** A job loses three fields and keeps the others as they are; no other job changes. */
  ghost predicate ThreeFieldsGone(jobs: map<string, Hash>, jobs': map<string, Hash>, id: string) {
    && (forall f :: Has(jobs', id, f) <==>
          Has(jobs, id, f) && f != "finishedOn" && f != "processedOn" && f != "failedReason")
    && (forall f :: Has(jobs', id, f) ==> jobs'[id][f] == jobs[id][f])
    && (forall x :: x != id ==> (x in jobs' <==> x in jobs) && (x in jobs ==> jobs'[x] == jobs[x]))
  }

  lemma ClearedFields(jobs: map<string, Hash>, id: string)
    ensures ThreeFieldsGone(jobs, Cleared(jobs, id), id)
  {
    if id in jobs {
      var left := jobs[id] - VOLATILE;
      assert forall f :: f in left <==> f in jobs[id] && f != "finishedOn" && f != "processedOn" && f != "failedReason";
      assert left == map[] ==> forall f :: f !in left;
    }
  }

  /** A successful retry, structure by structure and field by field. */
  lemma RetrySpelled(db: Keyspace, prefix: string, queue: string, id: string, net: Network)
    requires Typed(db, prefix, queue) && Compact(db) && id !in STATE_SUFFIXES && Reliable(net)
    requires Retry(db, prefix, queue, id, net).result.Ok?
    ensures var q, q' := View(db, prefix, queue), View(Retry(db, prefix, queue, id, net).db, prefix, queue);
            && id in q.failed && q'.failed == Without(q.failed, id)
            && q'.wait == (if q.isPaused then q.wait else [id] + q.wait)
            && q'.paused == (if q.isPaused then [id] + q.paused else q.paused)
            && q'.active == q.active && q'.delayed == q.delayed && q'.completed == q.completed
            && q'.prioritized == q.prioritized && q'.isPaused == q.isPaused
            && ThreeFieldsGone(q.jobs, q'.jobs, id)
            && q'.marker == q.marker + {"0"}
            && q'.events == q.events + [map["event" := "waiting", "jobId" := id, "prev" := "failed"]]
  {
    RetryMeaning(db, prefix, queue, id, net);
    ClearedFields(View(db, prefix, queue).jobs, id);
    hide View, Typed, Retry, Compact, Without, Cleared, ThreeFieldsGone, Key;
  }

  /** The answers of an undisturbed retry. */
  lemma RetryAnswers(db: Keyspace, prefix: string, queue: string, id: string, net: Network)
    requires Typed(db, prefix, queue) && Compact(db) && id !in STATE_SUFFIXES && Reliable(net)
    ensures var r := Retry(db, prefix, queue, id, net);
            if At(prefix, queue, id) !in db then r == Reply(db, Err("message not found"))
            else if id !in View(db, prefix, queue).failed then r == Reply(db, Err("message is not in failed state"))
            else r.result.Ok? <==> db[At(prefix, queue, id)].HashV?
  {
    RetryMeaning(db, prefix, queue, id, net);
    assert At(prefix, queue, id) == Key(prefix, queue, id);
    hide View, Typed, Retry, Compact, Key;
  }

  /** A successful delete, structure by structure. */
  lemma DeleteSpelled(db: Keyspace, prefix: string, queue: string, id: string, net: Network)
    requires Typed(db, prefix, queue) && id !in STATE_SUFFIXES && Reliable(net)
    ensures var r := Delete(db, prefix, queue, id, net);
            if At(prefix, queue, id) !in db then r == Reply(db, Err("message not found")) else r.result.Ok?
    ensures Delete(db, prefix, queue, id, net).result.Ok? ==>
              var q, q' := View(db, prefix, queue), View(Delete(db, prefix, queue, id, net).db, prefix, queue);
              && q'.wait == Without(q.wait, id) && q'.active == Without(q.active, id)
              && q'.paused == Without(q.paused, id) && q'.delayed == Without(q.delayed, id)
              && q'.failed == Without(q.failed, id) && q'.completed == Without(q.completed, id)
              && q'.prioritized == Without(q.prioritized, id) && q'.isPaused == q.isPaused
              && q'.jobs == q.jobs - {id} && q'.marker == q.marker
              && q'.events == q.events + [map["event" := "removed", "jobId" := id]]
  {
    DeleteAnyId(db, prefix, queue, id, net);
    DeletedIsRemoved(View(db, prefix, queue), id);
    assert At(prefix, queue, id) == Key(prefix, queue, id);
    hide View, Typed, Delete, Without, Key, Deleted;
  }

  lemma {:induction false} ExecConcat(db: Keyspace, a: seq<Command>, b: seq<Command>)
    ensures Exec(db, a + b).db == Exec(Exec(db, a).db, b).db
    decreases |a|
  {
    hide Apply;
    if a == [] {
      assert a + b == b;
    } else {
      assert (a + b)[1..] == a[1..] + b;
      match Apply(db, a[0])
      case None => ExecConcat(db, a[1..], b);
      case Some(db') => ExecConcat(db', a[1..], b);
    }
  }

  /** The transaction of a retry puts the member `0` with score 0 into the marker, and keeps its rank order. */
  lemma RetryMarks(db: Keyspace, prefix: string, queue: string, id: string, to: Place)
    requires Typed(db, prefix, queue) && id !in STATE_SUFFIXES && to in {Wait, Paused}
    ensures var key := At(prefix, queue, "marker");
            var db' := Exec(db, RetryCommands(prefix, queue, id, Key(prefix, queue, Suffix(to)))).db;
            && ZSetAt(db, key).Some? && ZSetAt(db', key).Some?
            && (forall e :: e in ZSetAt(db', key).value
                            <==> e == ZEntry("0", 0) || (e in ZSetAt(db, key).value && e.member != "0"))
            && (InRankOrder(ZSetAt(db, key).value) ==> InRankOrder(ZSetAt(db', key).value))
  {
    TypedExtras(db, prefix, queue);
    assert At(prefix, queue, "marker") == Key(prefix, queue, "marker");
    SuffixInjective(prefix, queue, "marker", id);
    SuffixInjective(prefix, queue, "marker", Suffix(to));
    SuffixInjective(prefix, queue, "marker", "events");
    hide Key, At, Typed, Suffix, View;
    MarkedOnce(db, Key(prefix, queue, "marker"), Key(prefix, queue, id), Key(prefix, queue, Suffix(to)),
               Key(prefix, queue, "events"), id);
    assert RetryCommands(prefix, queue, id, Key(prefix, queue, Suffix(to)))
           == [HDel(Key(prefix, queue, id), VOLATILE), LPush(Key(prefix, queue, Suffix(to)), id),
               ZAdd(Key(prefix, queue, "marker"), 0, "0"), XAdd(Key(prefix, queue, "events"), WaitingEvent(id))];
    hide *;
  }

  lemma MarkedOnce(db: Keyspace, key: string, job: string, target: string, events: string, id: string)
    requires key != job && key != target && key != events && ZSetAt(db, key).Some?
    ensures var before := ZSetAt(db, key).value;
            var after := ZSetAt(Exec(db, [HDel(job, VOLATILE), LPush(target, id), ZAdd(key, 0, "0"),
                                          XAdd(events, WaitingEvent(id))]).db, key);
            && after.Some?
            && (forall e :: e in after.value <==> e == ZEntry("0", 0) || (e in before && e.member != "0"))
            && (InRankOrder(before) ==> InRankOrder(after.value))
  {
    hide Exec, InRankOrder, Apply, WaitingEvent, VOLATILE;
    var first := [HDel(job, VOLATILE), LPush(target, id)];
    var mark, last := ZAdd(key, 0, "0"), XAdd(events, WaitingEvent(id));
    ExecFrame(db, first, key);
    ExecConcat(db, first, [mark] + [last]);
    assert first + ([mark] + [last]) == [HDel(job, VOLATILE), LPush(target, id), mark, last];
    var db1 := Exec(db, first).db;
    MarkExec(db1, mark, [last], key);
    ExecFrame(Apply(db1, mark).value, [last], key);
  }

  lemma MarkExec(db: Keyspace, mark: Command, rest: seq<Command>, key: string)
    requires mark == ZAdd(key, 0, "0") && ZSetAt(db, key).Some?
    ensures Apply(db, mark).Some? && Exec(db, [mark] + rest) == Exec(Apply(db, mark).value, rest)
    ensures var before, after := ZSetAt(db, key).value, ZSetAt(Apply(db, mark).value, key);
            && after.Some?
            && (forall e :: e in after.value <==> e == ZEntry("0", 0) || (e in before && e.member != "0"))
            && (InRankOrder(before) ==> InRankOrder(after.value))
  {
    var before := ZSetAt(db, key).value;
    var one := ZEntry("0", 0);
    forall x ensures x in Insert(Drop(before, "0"), one) <==> x == one || (x in before && x.member != "0") {
      ZAddEntries(before, one, x);
    }
    if InRankOrder(before) { ZAddKeepsRankOrder(before, one); }
    ExecCons(db, mark, rest);
    hide Exec, Insert, Drop, InRankOrder;
    assert one in Insert(Drop(before, "0"), one);
  }

  /** The keys a retry can touch; every other key of the server is as it was, whatever the network does. */
  lemma RetryTouches(db: Keyspace, prefix: string, queue: string, id: string, net: Network, key: string)
    requires key !in {At(prefix, queue, "failed"), At(prefix, queue, "wait"), At(prefix, queue, "paused"),
                      At(prefix, queue, id), At(prefix, queue, "marker"), At(prefix, queue, "events")}
    ensures SameAt(db, Retry(db, prefix, queue, id, net).db, key)
  {
    assert forall s :: At(prefix, queue, s) == Key(prefix, queue, s);
    hide Key, At, Exec;
    var claim := ZRemTrip(db, Key(prefix, queue, "failed"), id, net(1));
    var flag := HGetTrip(claim.db, Key(prefix, queue, "meta"), "paused", net(2));
    if flag.Ok? {
      ExecFrame(claim.db, RetryCommands(prefix, queue, id, TargetKey(prefix, queue, flag.value)), key);
    }
  }

  lemma DeleteTouches(db: Keyspace, prefix: string, queue: string, id: string, net: Network, key: string)
    requires key !in {At(prefix, queue, "wait"), At(prefix, queue, "active"), At(prefix, queue, "paused"),
                      At(prefix, queue, "delayed"), At(prefix, queue, "failed"), At(prefix, queue, "completed"),
                      At(prefix, queue, "prioritized"), At(prefix, queue, "events")}
    requires var k := At(prefix, queue, id);
             key !in {k, k + ":logs", k + ":dependencies", k + ":processed", k + ":failed", k + ":unsuccessful"}
    ensures SameAt(db, Delete(db, prefix, queue, id, net).db, key)
  {
    assert forall s :: At(prefix, queue, s) == Key(prefix, queue, s);
    RemovalsAre(prefix, queue, id);
    hide Key, At, Exec, Removals;
    ExecFrame(db, DeleteCommands(prefix, queue, id), key);
  }

  /** A delete that succeeds leaves nothing under the job's key and its five sub-keys. */
  lemma DeleteRemovesKeys(db: Keyspace, prefix: string, queue: string, id: string, net: Network, sub: string)
    requires Typed(db, prefix, queue) && id !in STATE_SUFFIXES && Reliable(net)
    requires sub in {"", ":logs", ":dependencies", ":processed", ":failed", ":unsuccessful"}
    requires Delete(db, prefix, queue, id, net).result.Ok?
    ensures At(prefix, queue, id) + sub !in Delete(db, prefix, queue, id, net).db
  {
    assert net(0) == net(1) == Fine;
    var c1, c2 := Del(DeletedKeys(prefix, queue, id)), XAdd(Key(prefix, queue, "events"), RemovedEvent(id));
    var db1 := RemovalsExec(db, prefix, queue, PLACES, id, [c1, c2]);
    DeletesThenLogs(db1, prefix, queue, id, sub);
    hide View, Typed, Key, Exec, DeletedKeys, Apply, TakenOut, Removals;
  }

  lemma DeletesThenLogs(db: Keyspace, prefix: string, queue: string, id: string, sub: string)
    requires sub in {"", ":logs", ":dependencies", ":processed", ":failed", ":unsuccessful"} && id != "events"
    ensures var commands := [Del(DeletedKeys(prefix, queue, id)), XAdd(Key(prefix, queue, "events"), RemovedEvent(id))];
            At(prefix, queue, id) + sub !in Exec(db, commands).db
  {
    var k := At(prefix, queue, id) + sub;
    var c1, c2 := Del(DeletedKeys(prefix, queue, id)), XAdd(Key(prefix, queue, "events"), RemovedEvent(id));
    assert At(prefix, queue, id) == Key(prefix, queue, id);
    assert sub == "" ==> k == Key(prefix, queue, id);
    assert k in DeletedKeys(prefix, queue, id);
    SuffixInjective(prefix, queue, "events", id + sub);
    assert k == Key(prefix, queue, id + sub) && id + sub != "events" by {
      if sub != "" { assert (id + sub)[|id|] == ':'; }
    }
    hide Key, DeletedKeys;
    ExecCons(db, c1, [c2]);
    ExecFrame(db - DeletedKeys(prefix, queue, id), [c2], k);
    assert [c1] + [c2] == [c1, c2];
  }

  // ---- statistics ----

  datatype QueueStats = QueueStats(waiting: nat, active: nat, delayed: nat, completed: nat, failed: nat) {
    function Total(): nat { waiting + active + delayed + completed + failed }
  }

  function StatsOf(q: Queue): QueueStats {
    QueueStats(|q.wait|, |q.active|, |q.delayed|, |q.completed|, |q.failed|)
  }

  /** A retry moves one job from `failed` to `waiting`, except that on a paused queue it drops out of the statistics. */
  lemma RetryStats(db: Keyspace, prefix: string, queue: string, id: string, net: Network)
    requires Typed(db, prefix, queue) && Compact(db) && id !in STATE_SUFFIXES && Reliable(net)
    requires View(db, prefix, queue).Occurrences(id) <= 1
    requires Retry(db, prefix, queue, id, net).result.Ok?
    ensures var before := StatsOf(View(db, prefix, queue));
            var after := StatsOf(View(Retry(db, prefix, queue, id, net).db, prefix, queue));
            && after.failed == before.failed - 1
            && (if FlagOf(db, prefix, queue)
                then after == before.(failed := after.failed) && after.Total() == before.Total() - 1
                else after == before.(failed := after.failed, waiting := before.waiting + 1)
                     && after.Total() == before.Total())
  {
    RetryMeaning(db, prefix, queue, id, net);
    var q := View(db, prefix, queue);
    hide Retry, Typed, Key, Compact;
    WithoutLength(q.failed, id);
    assert id in multiset(q.failed);
  }

  /** A delete lowers the total by one exactly when the job sits where the statistics look. */
  lemma DeleteStats(db: Keyspace, prefix: string, queue: string, id: string, net: Network)
    requires Typed(db, prefix, queue) && id !in STATE_SUFFIXES && Reliable(net)
    requires View(db, prefix, queue).Occurrences(id) <= 1
    requires Delete(db, prefix, queue, id, net).result.Ok?
    ensures var q := View(db, prefix, queue);
            var before, after := StatsOf(q), StatsOf(View(Delete(db, prefix, queue, id, net).db, prefix, queue));
            && after.Total() == before.Total() - (if Counted(q, id) then 1 else 0)
            && (q.Occurrences(id) == 1 ==> (Counted(q, id) <==> id !in q.paused && id !in q.prioritized))
  {
    DeleteAnyId(db, prefix, queue, id, net);
    DeletedIsRemoved(View(db, prefix, queue), id);
    RemovedStats(View(db, prefix, queue), id);
    if View(db, prefix, queue).Occurrences(id) == 1 { CountedIff(View(db, prefix, queue), id); }
    hide *;
  }

  /** The five structures of the statistics. */
  predicate Counted(q: Queue, id: string) {
    id in q.wait || id in q.active || id in q.delayed || id in q.completed || id in q.failed
  }

  lemma RemovedStats(q: Queue, id: string)
    requires q.Occurrences(id) <= 1
    ensures StatsOf(q.Removed(id)).Total() == StatsOf(q).Total() - (if Counted(q, id) then 1 else 0)
  {
    hide Without;
    WithoutLength(q.wait, id);
    WithoutLength(q.active, id);
    WithoutLength(q.delayed, id);
    WithoutLength(q.completed, id);
    WithoutLength(q.failed, id);
    assert Counted(q, id) <==> multiset(q.wait)[id] + multiset(q.active)[id] + multiset(q.delayed)[id]
                               + multiset(q.completed)[id] + multiset(q.failed)[id] > 0;
  }

  lemma CountedIff(q: Queue, id: string)
    requires q.Occurrences(id) == 1
    ensures Counted(q, id) <==> id !in q.paused && id !in q.prioritized
  {
    assert forall s: seq<string> :: id in s <==> id in multiset(s);
  }
}
