/** ListMessages: a bounded window over several structures, against the plain listing it stands for. */
module Listing {
  import opened Text
  import opened Keys
  import opened Redis
  import opened Queues
  import opened Views
  import opened BullMQ

  const WAITING := "waiting"
  const ACTIVE := "active"
  const DELAYED := "delayed"
  const FAILED := "failed"
  const COMPLETED := "completed"

  datatype Message = Message(id: string, queue: string, status: string, values: Hash, failedAt: string, error: string)

  datatype Filter = Filter(status: string, limit: int, query: string)

  /** `matchesQuery`: case folding and JSON are not part of this model. */
  type Matcher = (Message, string) -> bool

  function StatusesFor(status: string): seq<string> {
    if status != "" && status != "unknown" then [status] else [WAITING, ACTIVE, DELAYED, FAILED, COMPLETED]
  }

  function StatusSuffix(status: string): string { if status == WAITING then "wait" else status }

  function NormalizeLimit(limit: int): (n: nat)
    ensures 1 <= limit <= 200 ==> n == limit
    ensures limit < 1 ==> n == 50
    ensures limit > 200 ==> n == 200
  {
    if limit <= 0 then 50 else if limit > 200 then 200 else limit
  }

  function IdsByStatus(db: Keyspace, key: string, status: string, limit: int): Result<seq<string>> {
    var stop := limit - 1;
    if status == WAITING || status == ACTIVE then
      match ListAt(db, key) case None => Err(REDIS_ERROR) case Some(l) => Ok(LRange(l, 0, stop))
    else if status == DELAYED || status == FAILED || status == COMPLETED then
      match ZSetAt(db, key) case None => Err(REDIS_ERROR) case Some(z) => Ok(ZRevRange(z, 0, stop))
    else Ok([])
  }

  function Field(h: Hash, name: string): string { if name in h then h[name] else "" }

  function ToMessage(queue: string, id: string, status: string, h: Hash): Message {
    Message(id, queue, status, h, if status == FAILED then Field(h, "finishedOn") else "", Field(h, "failedReason"))
  }

  /** HGETALL and decoding; a missing job is no error. */
  function ReadJob(db: Keyspace, prefix: string, queue: string, id: string, status: string): Result<Option<Message>> {
    match HashAt(db, Key(prefix, queue, id))
    case None => Err(REDIS_ERROR)
    case Some(h) => Ok(if h == map[] then None else Some(ToMessage(queue, id, status, h)))
  }

  // ---- on a keyspace that stands still ----

  predicate Keeps(m: Message, query: string, matches: Matcher) { query == "" || matches(m, query) }

  function Kept(m: Option<Message>, query: string, matches: Matcher): seq<Message> {
    if m.Some? && Keeps(m.value, query, matches) then [m.value] else []
  }

  function Collect(db: Keyspace, prefix: string, queue: string, status: string, ids: seq<string>, query: string,
                   matches: Matcher)
    : Result<seq<Message>>
    decreases |ids|
  {
    if ids == [] then Ok([])
    else
      match ReadJob(db, prefix, queue, ids[0], status)
      case Err(e) => Err(e)
      case Ok(m) =>
        match Collect(db, prefix, queue, status, ids[1..], query, matches)
        case Err(e) => Err(e)
        case Ok(rest) => Ok(Kept(m, query, matches) + rest)
  }

  /** What the loop computes from a status on, when Redis does not change. */
  function Windowed(db: Keyspace, prefix: string, queue: string, statuses: seq<string>, limit: nat,
                    query: string, matches: Matcher, acc: seq<Message>): Result<seq<Message>>
    decreases |statuses|
  {
    if statuses == [] || |acc| >= limit then Ok(acc)
    else
      match IdsByStatus(db, Key(prefix, queue, StatusSuffix(statuses[0])), statuses[0], limit - |acc|)
      case Err(e) => Err(e)
      case Ok(ids) =>
        match Collect(db, prefix, queue, statuses[0], ids, query, matches)
        case Err(e) => Err(e)
        case Ok(ms) => Windowed(db, prefix, queue, statuses[1..], limit, query, matches, acc + ms)
  }

  lemma LRangePrefix(items: seq<string>, n: nat)
    requires n >= 1
    ensures LRange(items, 0, n - 1) == items[..if n <= |items| then n else |items|]
  {}

  lemma IdsBounded(db: Keyspace, key: string, status: string, n: nat)
    requires n >= 1 && IdsByStatus(db, key, status, n).Ok?
    ensures |IdsByStatus(db, key, status, n).value| <= n
  {}

  /** The whole collection is what was collected since `before`, followed by the rest. */
  predicate Resumes(whole: Result<seq<Message>>, before: seq<Message>, now: seq<Message>, rest: Result<seq<Message>>) {
    match rest
    case Err(e) => whole == Err(e)
    case Ok(ms) => whole.Ok? && before + whole.value == now + ms
  }

  // ---- the method, with Redis free to change between any two reads ----

  /** `seen(t)` is the keyspace that the t-th command of the call sees; the first of these reads is the t-th. */
  function CollectOver(seen: nat -> Keyspace, t: nat, prefix: string, queue: string, status: string, ids: seq<string>,
                       query: string, matches: Matcher): Result<seq<Message>>
    decreases |ids|
  {
    if ids == [] then Ok([])
    else
      match ReadJob(seen(t), prefix, queue, ids[0], status)
      case Err(e) => Err(e)
      case Ok(m) =>
        match CollectOver(seen, t + 1, prefix, queue, status, ids[1..], query, matches)
        case Err(e) => Err(e)
        case Ok(rest) => Ok(Kept(m, query, matches) + rest)
  }

  function WindowedOver(seen: nat -> Keyspace, t: nat, prefix: string, queue: string, statuses: seq<string>, limit: nat,
                        query: string, matches: Matcher, acc: seq<Message>): Result<seq<Message>>
    decreases |statuses|
  {
    if statuses == [] || |acc| >= limit then Ok(acc)
    else
      match IdsByStatus(seen(t), Key(prefix, queue, StatusSuffix(statuses[0])), statuses[0], limit - |acc|)
      case Err(e) => Err(e)
      case Ok(ids) =>
        match CollectOver(seen, t + 1, prefix, queue, statuses[0], ids, query, matches)
        case Err(e) => Err(e)
        case Ok(ms) =>
          WindowedOver(seen, t + 1 + |ids|, prefix, queue, statuses[1..], limit, query, matches, acc + ms)
  }

  ghost predicate Still(seen: nat -> Keyspace) { forall t: nat :: seen(t) == seen(0) }

  lemma {:induction false} StillCollects(seen: nat -> Keyspace, t: nat, prefix: string, queue: string, status: string,
                                         ids: seq<string>, query: string, matches: Matcher)
    requires Still(seen)
    ensures CollectOver(seen, t, prefix, queue, status, ids, query, matches)
            == Collect(seen(0), prefix, queue, status, ids, query, matches)
    decreases |ids|
  {
    assert seen(t) == seen(0);
    if ids != [] { StillCollects(seen, t + 1, prefix, queue, status, ids[1..], query, matches); }
  }

  /** If Redis does not change, the times of the reads do not matter. */
  lemma {:induction false} StillIsWindowed(seen: nat -> Keyspace, t: nat, prefix: string, queue: string,
                                           statuses: seq<string>, limit: nat, query: string, matches: Matcher,
                                           acc: seq<Message>)
    requires Still(seen)
    ensures WindowedOver(seen, t, prefix, queue, statuses, limit, query, matches, acc)
            == Windowed(seen(0), prefix, queue, statuses, limit, query, matches, acc)
    decreases |statuses|
  {
    hide Collect, CollectOver, IdsByStatus, Key;
    assert seen(t) == seen(0);
    if statuses != [] && |acc| < limit {
      var found := IdsByStatus(seen(t), Key(prefix, queue, StatusSuffix(statuses[0])), statuses[0], limit - |acc|);
      if found.Ok? {
        var ids := found.value;
        StillCollects(seen, t + 1, prefix, queue, statuses[0], ids, query, matches);
        var batch := Collect(seen(0), prefix, queue, statuses[0], ids, query, matches);
        if batch.Ok? {
          StillIsWindowed(seen, t + 1 + |ids|, prefix, queue, statuses[1..], limit, query, matches, acc + batch.value);
        }
      }
    }
  }

  lemma ResumeStep(seen: nat -> Keyspace, t: nat, prefix: string, queue: string, status: string, ids: seq<string>,
                   query: string, matches: Matcher, j: nat, whole: Result<seq<Message>>, before: seq<Message>,
                   now: seq<Message>)
    requires j < |ids|
    requires Resumes(whole, before, now, CollectOver(seen, t, prefix, queue, status, ids[j..], query, matches))
    ensures var job := ReadJob(seen(t), prefix, queue, ids[j], status);
            if job.Err? then whole == Err(job.message)
            else Resumes(whole, before, now + Kept(job.value, query, matches),
                         CollectOver(seen, t + 1, prefix, queue, status, ids[j + 1..], query, matches))
  {
    hide ReadJob;
  }

  lemma WindowStep(seen: nat -> Keyspace, t: nat, prefix: string, queue: string, statuses: seq<string>, limit: nat,
                   query: string, matches: Matcher, i: nat, acc: seq<Message>)
    requires i < |statuses| && |acc| < limit
    ensures var here := WindowedOver(seen, t, prefix, queue, statuses[i..], limit, query, matches, acc);
            var ids := IdsByStatus(seen(t), Key(prefix, queue, StatusSuffix(statuses[i])), statuses[i], limit - |acc|);
            if ids.Err? then here == Err(ids.message)
            else
              var batch := CollectOver(seen, t + 1, prefix, queue, statuses[i], ids.value, query, matches);
              if batch.Err? then here == Err(batch.message)
              else
                here == WindowedOver(seen, t + 1 + |ids.value|, prefix, queue, statuses[i + 1..], limit, query, matches,
                                     acc + batch.value)
  {
    hide IdsByStatus, CollectOver, Key;
  }

  method ListMessages(seen: nat -> Keyspace, prefix: string, queue: string, filter: Filter, matches: Matcher)
    returns (r: Result<seq<Message>>)
    ensures r.Ok? ==> |r.value| <= NormalizeLimit(filter.limit)
    ensures r == WindowedOver(seen, 0, prefix, queue, StatusesFor(filter.status), NormalizeLimit(filter.limit),
                              filter.query, matches, [])
    ensures Still(seen) ==>
              r == Windowed(seen(0), prefix, queue, StatusesFor(filter.status), NormalizeLimit(filter.limit),
                            filter.query, matches, [])
  {
    hide Windowed, WindowedOver, CollectOver, IdsByStatus, ReadJob, Key;
    var statuses := StatusesFor(filter.status);
    var limit := NormalizeLimit(filter.limit);
    if Still(seen) { StillIsWindowed(seen, 0, prefix, queue, statuses, limit, filter.query, matches, []); }
    hide Still;
    ghost var whole := WindowedOver(seen, 0, prefix, queue, statuses, limit, filter.query, matches, []);
    var messages: seq<Message> := [];
    var t: nat := 0;
    var i := 0;
    assert statuses[0..] == statuses;
    while i < |statuses|
      invariant 0 <= i <= |statuses| && |messages| <= limit
      invariant WindowedOver(seen, t, prefix, queue, statuses[i..], limit, filter.query, matches, messages) == whole
    {
      if |messages| >= limit {
        break;
      }
      WindowStep(seen, t, prefix, queue, statuses, limit, filter.query, matches, i, messages);
      var status := statuses[i];
      var key := Key(prefix, queue, StatusSuffix(status));
      assert limit - |messages| - 1 >= 0;  // a stop below zero would ask Redis for everything
      var found := IdsByStatus(seen(t), key, status, limit - |messages|);
      if found.Err? { return Err(found.message); }
      var ids := found.value;
      IdsBounded(seen(t), key, status, limit - |messages|);
      t := t + 1;

      ghost var before, start := messages, t;
      ghost var batch := CollectOver(seen, t, prefix, queue, status, ids, filter.query, matches);
      var j := 0;
      assert ids[0..] == ids;
      assert Resumes(batch, before, messages, batch);
      while j < |ids|
        invariant 0 <= j <= |ids| && |messages| <= |before| + j && t == start + j
        invariant Resumes(batch, before, messages,
                          CollectOver(seen, t, prefix, queue, status, ids[j..], filter.query, matches))
      {
        ResumeStep(seen, t, prefix, queue, status, ids, filter.query, matches, j, batch, before, messages);
        var job := ReadJob(seen(t), prefix, queue, ids[j], status);
        t := t + 1;
        if job.Err? { return Err(job.message); }
        if job.value.Some? && (filter.query == "" || matches(job.value.value, filter.query)) {
          messages := messages + [job.value.value];
        }
        j := j + 1;
      }
      assert ids[j..] == [];
      CollectNothing(seen, t, prefix, queue, status, filter.query, matches);
      assert messages + [] == messages;
      assert before + batch.value == messages;
      i := i + 1;
    }
    WindowFull(seen, t, prefix, queue, statuses[i..], limit, filter.query, matches, messages);
    return Ok(messages);
  }

  lemma WindowFull(seen: nat -> Keyspace, t: nat, prefix: string, queue: string, statuses: seq<string>, limit: nat,
                   query: string, matches: Matcher, acc: seq<Message>)
    requires statuses == [] || |acc| >= limit
    ensures WindowedOver(seen, t, prefix, queue, statuses, limit, query, matches, acc) == Ok(acc)
  {}

  lemma CollectNothing(seen: nat -> Keyspace, t: nat, prefix: string, queue: string, status: string, query: string,
                       matches: Matcher)
    ensures CollectOver(seen, t, prefix, queue, status, [], query, matches) == Ok([])
  {}

  predicate MissingAt(seen: nat -> Keyspace, prefix: string, queue: string, id: string, t: nat) {
    HashAt(seen(t), Key(prefix, queue, id)) == Some(map[])
  }

  /** The t-th of the five reads is the first to see the job, and gives the message its own status. */
  predicate FoundAt(seen: nat -> Keyspace, prefix: string, queue: string, id: string, t: nat, m: Message)
    requires t < 5
  {
    && (forall earlier: nat :: earlier < t ==> MissingAt(seen, prefix, queue, id, earlier))
    && ReadJob(seen(t), prefix, queue, id, StatusesFor("")[t]) == Ok(Some(m))
  }

  /** GetMessage tries the five statuses in order, but every try reads the same key. */
  method GetMessage(seen: nat -> Keyspace, prefix: string, queue: string, id: string) returns (r: Result<Message>)
    ensures Still(seen) ==>
              r == match HashAt(seen(0), Key(prefix, queue, id))
                   case None => Err(REDIS_ERROR)
                   case Some(h) => if h == map[] then Err(MESSAGE_NOT_FOUND) else Ok(ToMessage(queue, id, WAITING, h))
    ensures r.Ok? ==> exists t :: 0 <= t < 5 && FoundAt(seen, prefix, queue, id, t, r.value)
    ensures r == Err(MESSAGE_NOT_FOUND) ==> forall t :: 0 <= t < 5 ==> MissingAt(seen, prefix, queue, id, t)
  {
    var statuses := StatusesFor("");
    ghost var still := Still(seen);
    var i := 0;
    while i < |statuses|
      invariant 0 <= i <= |statuses|
      invariant forall t: nat :: t < i ==> MissingAt(seen, prefix, queue, id, t)
    {
      var job := ReadJob(seen(i), prefix, queue, id, statuses[i]);
      assert still ==> seen(i) == seen(0);
      assert still && i > 0 ==> MissingAt(seen, prefix, queue, id, 0);
      if job.Err? { return Err(job.message); }
      if job.value.Some? {
        assert FoundAt(seen, prefix, queue, id, i, job.value.value);
        return Ok(job.value.value);
      }
      i := i + 1;
    }
    assert MissingAt(seen, prefix, queue, id, 0);
    return Err(MESSAGE_NOT_FOUND);
  }

  // ---- what a listed message says about a keyspace that changes ----

  /** The id is in the structure that a status reads. */
  predicate Holds(db: Keyspace, prefix: string, queue: string, status: string, id: string) {
    var key := Key(prefix, queue, StatusSuffix(status));
    if status == WAITING || status == ACTIVE then id in ListOf(db, key) else id in RanksOf(db, key)
  }

  /** At one read the id was in the structure of its label, and at a later one its hash was the message. */
  predicate WasThere(seen: nat -> Keyspace, prefix: string, queue: string, m: Message, t0: nat, t1: nat) {
    t0 < t1 && Holds(seen(t0), prefix, queue, m.status, m.id)
    && ReadJob(seen(t1), prefix, queue, m.id, m.status) == Ok(Some(m))
  }

  lemma FoundIsHeld(db: Keyspace, prefix: string, queue: string, status: string, n: int, id: string)
    ensures var found := IdsByStatus(db, Key(prefix, queue, StatusSuffix(status)), status, n);
            found.Ok? && id in found.value ==> Holds(db, prefix, queue, status, id)
  {
    hide Key;
    var key := Key(prefix, queue, StatusSuffix(status));
    if ZSetAt(db, key).Some? {
      assert id in Reverse(Members(ZSetAt(db, key).value)) <==> id in multiset(RanksOf(db, key));
    }
  }

  lemma {:induction false} CollectedWasThere(seen: nat -> Keyspace, t: nat, prefix: string, queue: string,
                                             status: string,
                                             ids: seq<string>, query: string, matches: Matcher, m: Message)
    returns (t1: nat)
    requires var r := CollectOver(seen, t, prefix, queue, status, ids, query, matches); r.Ok? && m in r.value
    ensures t <= t1 && m.status == status && m.id in ids && Keeps(m, query, matches)
    ensures ReadJob(seen(t1), prefix, queue, m.id, status) == Ok(Some(m))
    decreases |ids|
  {
    hide Key;
    if m in CollectOver(seen, t + 1, prefix, queue, status, ids[1..], query, matches).value {
      t1 := CollectedWasThere(seen, t + 1, prefix, queue, status, ids[1..], query, matches, m);
    } else {
      t1 := t;
    }
  }

  /**
   * Whatever happens between the reads of a call: each message it lists matches the query, carries one of
   * the statuses asked for, and is one whose id was in that structure and whose hash was read thereafter.
   */
  lemma {:induction false} ListedWasThere(seen: nat -> Keyspace, t: nat, prefix: string, queue: string,
                                          statuses: seq<string>, limit: nat, query: string, matches: Matcher,
                                          acc: seq<Message>, m: Message) returns (t0: nat, t1: nat)
    requires var r := WindowedOver(seen, t, prefix, queue, statuses, limit, query, matches, acc); r.Ok? && m in r.value
    ensures m in acc || (m.status in statuses && Keeps(m, query, matches) && WasThere(seen, prefix, queue, m, t0, t1))
    decreases |statuses|
  {
    hide CollectOver, IdsByStatus, Key, ReadJob, Holds, Keeps;
    t0, t1 := 0, 0;
    if m !in acc {
      var room := limit - |acc|;
      var ids := IdsByStatus(seen(t), Key(prefix, queue, StatusSuffix(statuses[0])), statuses[0], room).value;
      var batch := CollectOver(seen, t + 1, prefix, queue, statuses[0], ids, query, matches).value;
      if m in batch {
        t1 := CollectedWasThere(seen, t + 1, prefix, queue, statuses[0], ids, query, matches, m);
        FoundIsHeld(seen(t), prefix, queue, statuses[0], room, m.id);
        t0 := t;
      } else {
        t0,
          t1 := ListedWasThere(seen, t + 1 + |ids|, prefix, queue, statuses[1..], limit, query, matches, acc
                               + batch, m);
      }
    }
  }

  /** A listing of a named status shows that status only, whatever changes between the reads. */
  lemma ListedHasStatus(seen: nat -> Keyspace, prefix: string, queue: string, filter: Filter, matches: Matcher,
                        m: Message)
    requires filter.status in {"waiting", "active", "delayed", "failed", "completed"}
    requires var r := WindowedOver(seen, 0, prefix, queue, StatusesFor(filter.status), NormalizeLimit(filter.limit),
                                   filter.query, matches, []);
             r.Ok? && m in r.value
    ensures m.status == filter.status && (filter.query == "" || matches(m, filter.query))
    ensures m.queue == queue && m.error == (if "failedReason" in m.values then m.values["failedReason"] else "")
    ensures m.failedAt == if m.status == "failed" && "finishedOn" in m.values then m.values["finishedOn"] else ""
  {
    var t0, t1 := ListedWasThere(seen, 0, prefix, queue, StatusesFor(filter.status), NormalizeLimit(filter.limit),
                                 filter.query, matches, [], m);
    hide WindowedOver, Key, HashAt;
  }

  /** Of any other status, but "" and "unknown", it shows nothing. */
  lemma OtherStatusListsNothing(seen: nat -> Keyspace, prefix: string, queue: string, filter: Filter, matches: Matcher)
    requires filter.status !in {"waiting", "active", "delayed", "failed", "completed", "", "unknown"}
    ensures WindowedOver(seen, 0, prefix, queue, StatusesFor(filter.status), NormalizeLimit(filter.limit),
                         filter.query, matches, []) == Ok([])
  {
    hide Key;
    var statuses, limit := StatusesFor(filter.status), NormalizeLimit(filter.limit);
    assert statuses == [filter.status] && limit > 0 && statuses[0..] == statuses && statuses[1..] == [];
    CollectNothing(seen, 1, prefix, queue, filter.status, filter.query, matches);
    WindowStep(seen, 0, prefix, queue, statuses, limit, filter.query, matches, 0, []);
    WindowFull(seen, 1, prefix, queue, [], limit, filter.query, matches, []);
    var none: seq<Message> := [];
    assert none + none == none;
  }

  // ---- a job that moves during the call ----

  function JobMessage(status: string): Message { Message("7", "q", status, map["data" := "{}"], "", "") }

  function JobIn(suffix: string): Keyspace {
    map[Key("bull", "q", "7") := HashV(map["data" := "{}"]), Key("bull", "q", suffix) := ListV(["7"])]
  }

  lemma KeysOfQ()
    ensures forall s1, s2 :: Key("bull", "q", s1) == Key("bull", "q", s2) <==> s1 == s2
  {
    forall s1, s2 ensures Key("bull", "q", s1) == Key("bull", "q", s2) <==> s1 == s2 {
      SuffixInjective("bull", "q", s1, s2);
    }
  }

  lemma JobReads(suffix: string, status: string)
    requires suffix in {"wait", "active"} && status in {WAITING, ACTIVE}
    ensures ReadJob(JobIn(suffix), "bull", "q", "7", status) == Ok(Some(JobMessage(status)))
  {
    KeysOfQ();
    hide Key;
    var h: Hash := map["data" := "{}"];
    assert suffix != "7" && "data" in h;
    assert HashAt(JobIn(suffix), Key("bull", "q", "7")) == Some(h);
    assert Field(h, "failedReason") == "" && status != FAILED;
  }

  lemma JobIds(suffix: string, status: string, n: int)
    requires suffix in {"wait", "active"} && status in {WAITING, ACTIVE, DELAYED, FAILED, COMPLETED} && n >= 1
    ensures IdsByStatus(JobIn(suffix), Key("bull", "q", StatusSuffix(status)), status, n)
            == Ok(if StatusSuffix(status) == suffix then ["7"] else [])
  {
    KeysOfQ();
    LRangePrefix(["7"], n);
    hide Key;
    var s, seven := StatusSuffix(status), ["7"];
    assert s in {"wait", "active", "delayed", "failed", "completed"} && s != "7";
    assert Key("bull", "q", s) in JobIn(suffix) <==> s == suffix;
    assert LRange(seven, 0, n - 1) == seven && LRange([], 0, n - 1) == [] && Reverse(Members([])) == [];
  }

  /** One status of the listing: the job's message if its structure is read, and no message otherwise. */
  lemma JobListed(seen: nat -> Keyspace, t: nat, suffix: string, status: string, rest: seq<string>, acc: seq<Message>,
                  matches: Matcher)
    requires suffix in {"wait", "active"} && status in {WAITING, ACTIVE} && StatusSuffix(status) == suffix
    requires seen(t) == seen(t + 1) == JobIn(suffix) && |acc| < 50
    ensures WindowedOver(seen, t, "bull", "q", [status] + rest, 50, "", matches, acc)
            == WindowedOver(seen, t + 2, "bull", "q", rest, 50, "", matches, acc + [JobMessage(status)])
  {
    hide *;
    JobIds(suffix, status, 50 - |acc|);
    JobReads(suffix, status);
    CollectOne(seen, t + 1, status, matches);
    assert ([status] + rest)[0..] == [status] + rest && ([status] + rest)[1..] == rest;
    WindowStep(seen, t, "bull", "q", [status] + rest, 50, "", matches, 0, acc);
  }

  lemma NothingListed(seen: nat -> Keyspace, t: nat, suffix: string, status: string, rest: seq<string>,
                      acc: seq<Message>, matches: Matcher)
    requires suffix in {"wait", "active"} && status in {DELAYED, FAILED, COMPLETED} && StatusSuffix(status) != suffix
    requires seen(t) == JobIn(suffix) && |acc| < 50
    ensures WindowedOver(seen, t, "bull", "q", [status] + rest, 50, "", matches, acc)
            == WindowedOver(seen, t + 1, "bull", "q", rest, 50, "", matches, acc)
  {
    hide *;
    JobIds(suffix, status, 50 - |acc|);
    CollectNothing(seen, t + 1, "bull", "q", status, "", matches);
    assert ([status] + rest)[0..] == [status] + rest && ([status] + rest)[1..] == rest && acc + [] == acc;
    WindowStep(seen, t, "bull", "q", [status] + rest, 50, "", matches, 0, acc);
  }

  lemma CollectOne(seen: nat -> Keyspace, t: nat, status: string, matches: Matcher)
    requires ReadJob(seen(t), "bull", "q", "7", status) == Ok(Some(JobMessage(status)))
    ensures CollectOver(seen, t, "bull", "q", status, ["7"], "", matches) == Ok([JobMessage(status)])
  {
    hide ReadJob;
    assert ["7"][1..] == [] && Kept(Some(JobMessage(status)), "", matches) == [JobMessage(status)];
    CollectNothing(seen, t + 1, "bull", "q", status, "", matches);
    assert [JobMessage(status)] + [] == [JobMessage(status)];
  }

  /** So a job that moves on between two reads of a call can be listed under both statuses. */
  lemma MovedJobIsListedTwice(matches: Matcher) returns (seen: nat -> Keyspace)
    ensures WindowedOver(seen, 0, "bull", "q", StatusesFor(""), 50, "", matches, [])
            == Ok([JobMessage(WAITING), JobMessage(ACTIVE)])
  {
    seen := (t: nat) => JobIn(if t < 2 then "wait" else "active");
    var one, two := [JobMessage(WAITING)], [JobMessage(WAITING), JobMessage(ACTIVE)];
    hide Key, JobIn, WindowedOver, JobMessage;
    JobListed(seen, 0, "wait", WAITING, [ACTIVE, DELAYED, FAILED, COMPLETED], [], matches);
    JobListed(seen, 2, "active", ACTIVE, [DELAYED, FAILED, COMPLETED], one, matches);
    NothingListed(seen, 4, "active", DELAYED, [FAILED, COMPLETED], two, matches);
    NothingListed(seen, 5, "active", FAILED, [COMPLETED], two, matches);
    NothingListed(seen, 6, "active", COMPLETED, [], two, matches);
    WindowFull(seen, 7, "bull", "q", [], 50, "", matches, two);
    assert [] + one == one && one + [JobMessage(ACTIVE)] == two;
    assert [WAITING] + [ACTIVE, DELAYED, FAILED, COMPLETED] == StatusesFor("");
    assert [ACTIVE] + [DELAYED, FAILED, COMPLETED] == [ACTIVE, DELAYED, FAILED, COMPLETED];
    assert [DELAYED] + [FAILED, COMPLETED] == [DELAYED, FAILED, COMPLETED];
    assert [FAILED] + [COMPLETED] == [FAILED, COMPLETED] && [COMPLETED] + [] == [COMPLETED];
  }
}
