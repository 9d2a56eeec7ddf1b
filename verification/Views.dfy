/** A queue read out of the keyspace through the keys the adapter uses, and what each command does to it. */
module Views {
  import opened Text
  import opened Keys
  import opened Redis
  import opened Queues

  function Suffix(p: Place): (s: string)
    ensures s in STATE_SUFFIXES && s != "meta" && s != "marker" && s != "events"
  {
    match p
    case Wait => "wait"
    case Active => "active"
    case Paused => "paused"
    case Delayed => "delayed"
    case Failed => "failed"
    case Completed => "completed"
    case Prioritized => "prioritized"
  }

  predicate IsList(p: Place) { p == Wait || p == Active || p == Paused }

  function ListOf(db: Keyspace, key: string): seq<string> {
    match ListAt(db, key) case Some(l) => l case None => []
  }

  function RanksOf(db: Keyspace, key: string): seq<string> {
    match ZSetAt(db, key) case Some(z) => Members(z) case None => []
  }

  function PlaceOf(db: Keyspace, prefix: string, queue: string, p: Place): seq<string> {
    if IsList(p) then ListOf(db, Key(prefix, queue, Suffix(p))) else RanksOf(db, Key(prefix, queue, Suffix(p)))
  }

  /** HGET of the pause flag; a missing field reads as empty. */
  function PausedField(meta: map<string, string>): string {
    if "paused" in meta then meta["paused"] else ""
  }

  function FlagOf(db: Keyspace, prefix: string, queue: string): bool {
    match HashAt(db, Key(prefix, queue, "meta")) case Some(h) => PausedField(h) != "" case None => false
  }

  function EventsOf(db: Keyspace, prefix: string, queue: string): seq<map<string, string>> {
    match StreamAt(db, Key(prefix, queue, "events")) case Some(s) => s case None => []
  }

  function MarkerOf(db: Keyspace, prefix: string, queue: string): set<string> {
    Distinct(RanksOf(db, Key(prefix, queue, "marker")))
  }

  predicate IsJob(db: Keyspace, prefix: string, queue: string, id: string) {
    PlainId(id) && Key(prefix, queue, id) in db && db[Key(prefix, queue, id)].HashV?
  }

  function JobIds(db: Keyspace, prefix: string, queue: string): set<string> {
    set k | k in db.Keys && Stem(prefix, queue) <= k && IsJob(db, prefix, queue, k[|Stem(prefix, queue)|..])
      :: k[|Stem(prefix, queue)|..]
  }

  function Jobs(db: Keyspace, prefix: string, queue: string): map<string, Hash> {
    map id | id in JobIds(db, prefix, queue) && IsJob(db, prefix, queue, id) :: db[Key(prefix, queue, id)].fields
  }

  lemma JobsAt(db: Keyspace, prefix: string, queue: string, id: string)
    ensures id in Jobs(db, prefix, queue) <==> IsJob(db, prefix, queue, id)
    ensures IsJob(db, prefix, queue, id) ==> Jobs(db, prefix, queue)[id] == db[Key(prefix, queue, id)].fields
  {}

  function View(db: Keyspace, prefix: string, queue: string): Queue {
    Queue(PlaceOf(db, prefix, queue, Wait), PlaceOf(db, prefix, queue, Active), PlaceOf(db, prefix, queue, Paused),
          PlaceOf(db, prefix, queue, Delayed), PlaceOf(db, prefix, queue, Failed),
          PlaceOf(db, prefix, queue, Completed), PlaceOf(db, prefix, queue, Prioritized),
          FlagOf(db, prefix, queue), Jobs(db, prefix, queue), MarkerOf(db, prefix, queue), EventsOf(db, prefix, queue))
  }

  lemma ViewAt(db: Keyspace, prefix: string, queue: string, p: Place)
    ensures View(db, prefix, queue).At(p) == PlaceOf(db, prefix, queue, p)
  {
    hide PlaceOf, Jobs, MarkerOf, EventsOf, FlagOf, Key, PlainId;
  }

  /**
   * Each of the ten state keys holds the type the adapter takes it for, or nothing. The queue's other keys
   * (job hashes and their sub-keys, counters, whatever BullMQ keeps) may hold anything.
   */
  ghost predicate Typed(db: Keyspace, prefix: string, queue: string) {
    && (forall p: Place :: PlaceTyped(db, prefix, queue, p))
    && HashAt(db, Key(prefix, queue, "meta")).Some?
    && ZSetAt(db, Key(prefix, queue, "marker")).Some?
    && StreamAt(db, Key(prefix, queue, "events")).Some?
  }

  predicate PlaceTyped(db: Keyspace, prefix: string, queue: string, p: Place) {
    if IsList(p) then ListAt(db, Key(prefix, queue, Suffix(p))).Some?
    else ZSetAt(db, Key(prefix, queue, Suffix(p))).Some?
  }

  /** The key of this id holds a hash or nothing. */
  predicate JobTyped(db: Keyspace, prefix: string, queue: string, id: string) {
    HashAt(db, Key(prefix, queue, id)).Some?
  }

  function At(prefix: string, queue: string, name: string): string { prefix + ":" + queue + ":" + name }

  /** What the view is read from, name by name. */
  lemma ViewReads(db: Keyspace, prefix: string, queue: string)
    requires Typed(db, prefix, queue)
    ensures var q := View(db, prefix, queue);
            && ListAt(db, At(prefix, queue, "wait")) == Some(q.wait)
            && ListAt(db, At(prefix, queue, "active")) == Some(q.active)
            && ListAt(db, At(prefix, queue, "paused")) == Some(q.paused)
            && Ranking(db, At(prefix, queue, "delayed"), q.delayed)
            && Ranking(db, At(prefix, queue, "failed"), q.failed)
            && Ranking(db, At(prefix, queue, "completed"), q.completed)
            && Ranking(db, At(prefix, queue, "prioritized"), q.prioritized)
            && StreamAt(db, At(prefix, queue, "events")) == Some(q.events)
  {
    hide Jobs, MarkerOf, FlagOf;
    assert PlaceTyped(db, prefix, queue, Wait) && PlaceTyped(db, prefix, queue, Active);
    assert PlaceTyped(db, prefix, queue, Paused) && PlaceTyped(db, prefix, queue, Delayed);
    assert PlaceTyped(db, prefix, queue, Failed) && PlaceTyped(db, prefix, queue, Completed);
    assert PlaceTyped(db, prefix, queue, Prioritized);
    RankingIs(db, Key(prefix, queue, "delayed"));
    RankingIs(db, Key(prefix, queue, "failed"));
    RankingIs(db, Key(prefix, queue, "completed"));
    RankingIs(db, Key(prefix, queue, "prioritized"));
    assert forall s :: At(prefix, queue, s) == Key(prefix, queue, s);
    hide Key, At, Ranking;
  }

  /** The members of the sorted set at a key, in rank order. */
  predicate Ranking(db: Keyspace, key: string, members: seq<string>) {
    && (key in db ==> db[key].ZSetV?)
    && |members| == (if key in db then |db[key].entries| else 0)
    && forall i :: 0 <= i < |members| ==> members[i] == db[key].entries[i].member
  }

  lemma RankingIs(db: Keyspace, key: string)
    ensures ZSetAt(db, key).Some? ==> Ranking(db, key, RanksOf(db, key))
  {
    if ZSetAt(db, key).Some? { MembersAt(ZSetAt(db, key).value); }
  }

  lemma {:induction false} MembersAt(entries: seq<ZEntry>)
    ensures forall i :: 0 <= i < |entries| ==> Members(entries)[i] == entries[i].member
  {
    if entries != [] { MembersAt(entries[1..]); }
  }

  /** Likewise for the pause flag, the marker and the jobs. */
  lemma ViewReadsRest(db: Keyspace, prefix: string, queue: string)
    requires Typed(db, prefix, queue)
    ensures var q := View(db, prefix, queue); var meta := HashAt(db, At(prefix, queue, "meta"));
            && meta.Some? && (q.isPaused <==> "paused" in meta.value && meta.value["paused"] != "")
    ensures var q := View(db, prefix, queue); var marker := ZSetAt(db, At(prefix, queue, "marker"));
            && marker.Some?
            && forall m :: m in q.marker <==> exists i :: 0 <= i < |marker.value| && marker.value[i].member == m
    ensures var q := View(db, prefix, queue);
            forall id :: id in q.jobs
              <==> PlainId(id) && At(prefix, queue, id) in db && db[At(prefix, queue, id)].HashV?
    ensures forall id :: id in View(db, prefix, queue).jobs ==>
              HashAt(db, At(prefix, queue, id)) == Some(View(db, prefix, queue).jobs[id])
  {
    ViewParts(db, prefix, queue);
    TypedExtras(db, prefix, queue);
    MembersAt(ZSetAt(db, Key(prefix, queue, "marker")).value);
    assert forall s :: At(prefix, queue, s) == Key(prefix, queue, s);
    hide View, Typed, Jobs, Key, At, PlainId;
    forall id { JobsAt(db, prefix, queue, id); }
    var ranks := RanksOf(db, Key(prefix, queue, "marker"));
    assert forall m :: m in ranks <==> exists i :: 0 <= i < |ranks| && ranks[i] == m;
  }

  ghost predicate SameQueue(a: Keyspace, b: Keyspace, prefix: string, queue: string) {
    forall s :: SameAt(a, b, Key(prefix, queue, s))
  }

  /** The view depends on the queue's own keys only. */
  lemma ViewFrame(a: Keyspace, b: Keyspace, prefix: string, queue: string)
    requires SameQueue(a, b, prefix, queue)
    ensures View(a, prefix, queue) == View(b, prefix, queue)
    ensures Typed(a, prefix, queue) ==> Typed(b, prefix, queue)
  {
    assert forall s :: SameAt(a, b, Key(prefix, queue, s));
    forall p: Place
      ensures PlaceOf(a, prefix, queue, p) == PlaceOf(b, prefix, queue, p)
      ensures PlaceTyped(a, prefix, queue, p) ==> PlaceTyped(b, prefix, queue, p)
    {
      assert SameAt(a, b, Key(prefix, queue, Suffix(p)));
    }
    assert SameAt(a, b, Key(prefix, queue, "meta"));
    assert SameAt(a, b, Key(prefix, queue, "marker"));
    assert SameAt(a, b, Key(prefix, queue, "events"));
    JobsFrame(a, b, prefix, queue);
  }

  lemma JobsFrame(a: Keyspace, b: Keyspace, prefix: string, queue: string)
    requires forall id :: PlainId(id) ==> SameAt(a, b, Key(prefix, queue, id))
    ensures Jobs(a, prefix, queue) == Jobs(b, prefix, queue)
  {}

  /** Two keyspaces that differ at one key only. */
  ghost predicate OnlyAt(a: Keyspace, b: Keyspace, key: string) {
    forall k :: k != key ==> SameAt(a, b, k)
  }

  lemma PutOnly(db: Keyspace, key: string, v: Value)
    ensures OnlyAt(db, Put(db, key, v), key)
  {}

  /** A change of one state key is invisible at the other state keys, at the jobs, and in other queues. */
  lemma Elsewhere(a: Keyspace, b: Keyspace, prefix: string, queue: string, suffix: string)
    requires suffix in STATE_SUFFIXES && OnlyAt(a, b, Key(prefix, queue, suffix))
    ensures forall s :: s != suffix ==> SameAt(a, b, Key(prefix, queue, s))
    ensures forall p: Place :: Suffix(p) != suffix ==>
              PlaceOf(a, prefix, queue, p) == PlaceOf(b, prefix, queue, p)
              && (PlaceTyped(a, prefix, queue, p) ==> PlaceTyped(b, prefix, queue, p))
    ensures Jobs(a, prefix, queue) == Jobs(b, prefix, queue)
  {
    forall s | s != suffix ensures SameAt(a, b, Key(prefix, queue, s)) { SuffixInjective(prefix, queue, s, suffix); }
    forall p: Place | Suffix(p) != suffix
      ensures PlaceOf(a, prefix, queue, p) == PlaceOf(b, prefix, queue, p)
      ensures PlaceTyped(a, prefix, queue, p) ==> PlaceTyped(b, prefix, queue, p)
    {
      assert SameAt(a, b, Key(prefix, queue, Suffix(p)));
    }
    JobsFrame(a, b, prefix, queue);
  }

  /** LREM or ZREM, whichever the place calls for. */
  function RemoveFrom(prefix: string, queue: string, p: Place, id: string): Command {
    if IsList(p) then LRem(Key(prefix, queue, Suffix(p)), id) else ZRem(Key(prefix, queue, Suffix(p)), id)
  }

  lemma RemoveView(db: Keyspace, prefix: string, queue: string, p: Place, id: string)
    requires Typed(db, prefix, queue)
    ensures var r := Apply(db, RemoveFrom(prefix, queue, p, id));
            && r.Some? && Typed(r.value, prefix, queue)
            && var q := View(db, prefix, queue);
               View(r.value, prefix, queue) == q.With(p, Without(q.At(p), id))
  {
    assert PlaceTyped(db, prefix, queue, p);
    RemovePlace(db, prefix, queue, p, id);
    ViewAt(db, prefix, queue, p);
    hide View, Typed, PlaceOf, PlaceTyped, Apply, RemoveFrom, Key, Suffix, Without;
    var db' := Apply(db, RemoveFrom(prefix, queue, p, id)).value;
    PlaceChanged(db, db', prefix, queue, p, Without(PlaceOf(db, prefix, queue, p), id));
  }

  lemma RemovePlace(db: Keyspace, prefix: string, queue: string, p: Place, id: string)
    requires PlaceTyped(db, prefix, queue, p)
    ensures var r := Apply(db, RemoveFrom(prefix, queue, p, id));
            && r.Some? && OnlyAt(db, r.value, Key(prefix, queue, Suffix(p))) && PlaceTyped(r.value, prefix, queue, p)
            && PlaceOf(r.value, prefix, queue, p) == Without(PlaceOf(db, prefix, queue, p), id)
  {
    hide Key, Suffix, Without;
    if !IsList(p) { DropMembers(ZSetAt(db, Key(prefix, queue, Suffix(p))).value, id); }
    assert Without([], id) == [] by { WithoutAbsent([], id); }
  }

  lemma PlaceChanged(a: Keyspace, b: Keyspace, prefix: string, queue: string, p: Place, s: seq<string>)
    requires Typed(a, prefix, queue) && OnlyAt(a, b, Key(prefix, queue, Suffix(p)))
    requires PlaceOf(b, prefix, queue, p) == s && PlaceTyped(b, prefix, queue, p)
    ensures Typed(b, prefix, queue)
    ensures View(b, prefix, queue) == View(a, prefix, queue).With(p, s)
  {
    hide PlaceOf, PlaceTyped, PlainId, Jobs, Key, Suffix;
    Elsewhere(a, b, prefix, queue, Suffix(p));
    SuffixesDiffer();
    assert SameAt(a, b, Key(prefix, queue, "meta"));
    assert SameAt(a, b, Key(prefix, queue, "marker"));
    assert SameAt(a, b, Key(prefix, queue, "events"));
  }

  lemma SuffixesDiffer()
    ensures forall p1: Place, p2: Place :: Suffix(p1) == Suffix(p2) <==> p1 == p2
  {}

  lemma PushView(db: Keyspace, prefix: string, queue: string, p: Place, id: string)
    requires Typed(db, prefix, queue) && IsList(p)
    ensures var r := Apply(db, LPush(Key(prefix, queue, Suffix(p)), id));
            && r.Some? && Typed(r.value, prefix, queue)
            && var q := View(db, prefix, queue);
               View(r.value, prefix, queue) == q.With(p, [id] + q.At(p))
  {
    assert PlaceTyped(db, prefix, queue, p);
    var db' := Apply(db, LPush(Key(prefix, queue, Suffix(p)), id)).value;
    PlaceChanged(db, db', prefix, queue, p, [id] + PlaceOf(db, prefix, queue, p));
  }

  function Distinct(members: seq<string>): set<string> { set m | m in members }

  lemma MarkedMembers(z: seq<ZEntry>, e: ZEntry)
    ensures Distinct(Members(Insert(Drop(z, e.member), e))) == Distinct(Members(z)) + {e.member}
  {
    hide Drop, Insert, Members, Without;
    ZAddMembers(z, e);
    var after := Members(Insert(Drop(z, e.member), e));
    forall m ensures m in after <==> m in Members(z) || m == e.member {
      assert m in after <==> m in multiset(after);
      assert m in Members(z) <==> m in multiset(Members(z));
    }
  }

  lemma MarkView(db: Keyspace, prefix: string, queue: string)
    requires Typed(db, prefix, queue)
    ensures var r := Apply(db, ZAdd(Key(prefix, queue, "marker"), 0, "0"));
            && r.Some? && Typed(r.value, prefix, queue)
            && var q := View(db, prefix, queue);
               View(r.value, prefix, queue) == q.(marker := q.marker + {"0"})
  {
    hide View, Typed, Drop, Insert;
    TypedExtras(db, prefix, queue);
    ViewParts(db, prefix, queue);
    var key := Key(prefix, queue, "marker");
    var db' := Apply(db, ZAdd(key, 0, "0")).value;
    MarkedMembers(ZSetAt(db, key).value, ZEntry("0", 0));
    ExtraChanged(db, db', prefix, queue, "marker");
  }

  lemma TypedExtras(db: Keyspace, prefix: string, queue: string)
    requires Typed(db, prefix, queue)
    ensures ZSetAt(db, Key(prefix, queue, "marker")).Some?
    ensures StreamAt(db, Key(prefix, queue, "events")).Some?
    ensures HashAt(db, Key(prefix, queue, "meta")).Some?
  {}

  lemma EventView(db: Keyspace, prefix: string, queue: string, record: map<string, string>)
    requires Typed(db, prefix, queue)
    ensures var r := Apply(db, XAdd(Key(prefix, queue, "events"), record));
            && r.Some? && Typed(r.value, prefix, queue)
            && var q := View(db, prefix, queue);
               View(r.value, prefix, queue) == q.(events := q.events + [record])
  {
    hide View, Typed;
    TypedExtras(db, prefix, queue);
    ViewParts(db, prefix, queue);
    var db' := Apply(db, XAdd(Key(prefix, queue, "events"), record)).value;
    ExtraChanged(db, db', prefix, queue, "events");
  }

  /** A change of the marker or of the event stream. */
  lemma ExtraChanged(a: Keyspace, b: Keyspace, prefix: string, queue: string, suffix: string)
    requires Typed(a, prefix, queue) && suffix in {"marker", "events"} && OnlyAt(a, b, Key(prefix, queue, suffix))
    requires if suffix == "marker" then ZSetAt(b, Key(prefix, queue, suffix)).Some?
             else StreamAt(b, Key(prefix, queue, suffix)).Some?
    ensures Typed(b, prefix, queue)
    ensures View(b, prefix, queue) ==
            if suffix == "marker" then View(a, prefix, queue).(marker := MarkerOf(b, prefix, queue))
            else View(a, prefix, queue).(events := EventsOf(b, prefix, queue))
  {
    hide PlaceOf, PlaceTyped, PlainId, Jobs, Key;
    Elsewhere(a, b, prefix, queue, suffix);
    assert SameAt(a, b, Key(prefix, queue, "meta"));
    assert suffix != "marker" ==> SameAt(a, b, Key(prefix, queue, "marker"));
    assert suffix != "events" ==> SameAt(a, b, Key(prefix, queue, "events"));
  }

  /** A change confined to job keys, the one of `id` included, leaves everything but the jobs alone. */
  lemma JobsOnly(a: Keyspace, b: Keyspace, prefix: string, queue: string)
    requires Typed(a, prefix, queue)
    requires forall s :: s in STATE_SUFFIXES ==> SameAt(a, b, Key(prefix, queue, s))
    ensures Typed(b, prefix, queue)
    ensures View(b, prefix, queue) == View(a, prefix, queue).(jobs := Jobs(b, prefix, queue))
  {
    forall p: Place
      ensures PlaceOf(a, prefix, queue, p) == PlaceOf(b, prefix, queue, p)
      ensures PlaceTyped(b, prefix, queue, p)
    {
      assert PlaceTyped(a, prefix, queue, p);
      assert SameAt(a, b, Key(prefix, queue, Suffix(p)));
    }
    assert SameAt(a, b, Key(prefix, queue, "meta"));
    assert SameAt(a, b, Key(prefix, queue, "marker"));
    assert SameAt(a, b, Key(prefix, queue, "events"));
  }

  /** HDEL of the volatile fields; it is refused exactly if the id's key holds something else than a hash. */
  lemma ClearView(db: Keyspace, prefix: string, queue: string, id: string)
    requires Typed(db, prefix, queue) && id !in STATE_SUFFIXES
    ensures var r := Apply(db, HDel(Key(prefix, queue, id), VOLATILE)); var db' := if r.Some? then r.value else db;
            && (r.Some? <==> JobTyped(db, prefix, queue, id)) && Typed(db', prefix, queue)
            && var q := View(db, prefix, queue);
               View(db', prefix, queue) == q.(jobs := Cleared(q.jobs, id))
  {
    hide View, IsSubKey;
    var key := Key(prefix, queue, id);
    JobsAt(db, prefix, queue, id);
    ViewParts(db, prefix, queue);
    if JobTyped(db, prefix, queue, id) {
      var db' := Apply(db, HDel(key, VOLATILE)).value;
      PutOnly(db, key, HashV(HashAt(db, key).value - VOLATILE));
      forall s | s != id ensures SameAt(db, db', Key(prefix, queue, s)) { SuffixInjective(prefix, queue, s, id); }
      JobsOnly(db, db', prefix, queue);
      ClearedJobs(db, db', prefix, queue, id);
    }
  }

  lemma ViewParts(db: Keyspace, prefix: string, queue: string)
    ensures View(db, prefix, queue).jobs == Jobs(db, prefix, queue)
    ensures View(db, prefix, queue).isPaused == FlagOf(db, prefix, queue)
    ensures View(db, prefix, queue).marker == MarkerOf(db, prefix, queue)
    ensures View(db, prefix, queue).events == EventsOf(db, prefix, queue)
  {}

  lemma ClearedJobs(a: Keyspace, b: Keyspace, prefix: string, queue: string, id: string)
    requires JobTyped(a, prefix, queue, id)
    requires forall s :: s != id ==> SameAt(a, b, Key(prefix, queue, s))
    requires b == Put(a, Key(prefix, queue, id), HashV(HashAt(a, Key(prefix, queue, id)).value - VOLATILE))
    ensures Jobs(b, prefix, queue) == Cleared(Jobs(a, prefix, queue), id)
  {
    var before, after := Jobs(a, prefix, queue), Jobs(b, prefix, queue);
    hide Jobs, Key, PlainId;
    forall x
      ensures x in after <==> x in Cleared(before, id)
      ensures x in after ==> after[x] == Cleared(before, id)[x]
    {
      JobsAt(a, prefix, queue, x);
      JobsAt(b, prefix, queue, x);
      JobsAt(a, prefix, queue, id);
      if x != id { assert SameAt(a, b, Key(prefix, queue, x)); }
    }
  }

  /** The queue without the job of an id, and without the state key whose suffix the id is, if it is one. */
  function Blanked(q: Queue, id: string): Queue {
    Queue(if id == "wait" then [] else q.wait, if id == "active" then [] else q.active,
          if id == "paused" then [] else q.paused, if id == "delayed" then [] else q.delayed,
          if id == "failed" then [] else q.failed, if id == "completed" then [] else q.completed,
          if id == "prioritized" then [] else q.prioritized,
          id != "meta" && q.isPaused, q.jobs - {id},
          if id == "marker" then {} else q.marker, if id == "events" then [] else q.events)
  }

  /** DEL of the six keys, for any id whatever. */
  lemma DelView(db: Keyspace, prefix: string, queue: string, id: string)
    requires Typed(db, prefix, queue)
    ensures var r := Apply(db, Del(DeletedKeys(prefix, queue, id)));
            && r.Some? && Typed(r.value, prefix, queue)
            && View(r.value, prefix, queue) == Blanked(View(db, prefix, queue), id)
  {
    hide DeletedKeys, Jobs, Key, PlaceOf, PlaceTyped, MarkerOf, EventsOf, FlagOf, View, Blanked, Suffix;
    var db' := db - DeletedKeys(prefix, queue, id);
    var q, q' := View(db, prefix, queue), View(db', prefix, queue);
    forall p: Place ensures q'.At(p) == Blanked(q, id).At(p) && PlaceTyped(db', prefix, queue, p) {
      assert PlaceTyped(db, prefix, queue, p);
      PlaceAfterDel(db, prefix, queue, id, p);
      ViewAt(db, prefix, queue, p);
      ViewAt(db', prefix, queue, p);
      BlankedAt(q, id, p);
    }
    ExtrasAfterDel(db, prefix, queue, id);
    JobsAfterDel(db, prefix, queue, id);
    ViewParts(db, prefix, queue);
    ViewParts(db', prefix, queue);
    BlankedParts(q, id);
    EqualQueues(q', Blanked(q, id));
  }

  lemma BlankedAt(q: Queue, id: string, p: Place)
    ensures Blanked(q, id).At(p) == if Suffix(p) == id then [] else q.At(p)
  {}

  lemma BlankedParts(q: Queue, id: string)
    ensures var b := Blanked(q, id);
            && b.isPaused == (id != "meta" && q.isPaused) && b.jobs == q.jobs - {id}
            && b.marker == (if id == "marker" then {} else q.marker)
            && b.events == (if id == "events" then [] else q.events)
  {}

  lemma EqualQueues(a: Queue, b: Queue)
    requires forall p: Place :: a.At(p) == b.At(p)
    requires a.isPaused == b.isPaused && a.jobs == b.jobs && a.marker == b.marker && a.events == b.events
    ensures a == b
  {
    assert a.At(Wait) == b.At(Wait) && a.At(Active) == b.At(Active) && a.At(Paused) == b.At(Paused);
    assert a.At(Delayed) == b.At(Delayed) && a.At(Failed) == b.At(Failed);
    assert a.At(Completed) == b.At(Completed) && a.At(Prioritized) == b.At(Prioritized);
  }

  lemma PlaceAfterDel(db: Keyspace, prefix: string, queue: string, id: string, p: Place)
    ensures var db' := db - DeletedKeys(prefix, queue, id);
            && PlaceOf(db', prefix, queue, p) == (if Suffix(p) == id then [] else PlaceOf(db, prefix, queue, p))
            && (PlaceTyped(db, prefix, queue, p) ==> PlaceTyped(db', prefix, queue, p))
  {
    hide DeletedKeys, Key, IsSubKey;
    SubKeyHasColon(Suffix(p));
    SparesOthers(prefix, queue, id, Suffix(p));
  }

  lemma ExtrasAfterDel(db: Keyspace, prefix: string, queue: string, id: string)
    requires Typed(db, prefix, queue)
    ensures var db' := db - DeletedKeys(prefix, queue, id);
            && FlagOf(db', prefix, queue) == (id != "meta" && FlagOf(db, prefix, queue))
            && MarkerOf(db', prefix, queue) == (if id == "marker" then {} else MarkerOf(db, prefix, queue))
            && EventsOf(db', prefix, queue) == (if id == "events" then [] else EventsOf(db, prefix, queue))
            && HashAt(db', Key(prefix, queue, "meta")).Some? && ZSetAt(db', Key(prefix, queue, "marker")).Some?
            && StreamAt(db', Key(prefix, queue, "events")).Some?
  {
    hide DeletedKeys, Key, IsSubKey, PlaceTyped;
    forall s | s in {"meta", "marker", "events"}
      ensures Key(prefix, queue, s) in DeletedKeys(prefix, queue, id) <==> s == id
    {
      SubKeyHasColon(s);
      SparesOthers(prefix, queue, id, s);
    }
  }

  lemma JobsAfterDel(db: Keyspace, prefix: string, queue: string, id: string)
    ensures Jobs(db - DeletedKeys(prefix, queue, id), prefix, queue) == Jobs(db, prefix, queue) - {id}
  {
    hide DeletedKeys, Jobs, Key, IsSubKey;
    var db' := db - DeletedKeys(prefix, queue, id);
    var before, after := Jobs(db, prefix, queue), Jobs(db', prefix, queue);
    forall x
      ensures x in after <==> x in before - {id}
      ensures x in after ==> after[x] == (before - {id})[x]
    {
      JobsAt(db, prefix, queue, x);
      JobsAt(db', prefix, queue, x);
      if PlainId(x) { SparesOthers(prefix, queue, id, x); }
    }
    assert after == before - {id};
  }
}
