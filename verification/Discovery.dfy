/** ListQueues: which queues a scan of the keyspace reveals. */
module Discovery {
  import opened Text
  import opened Keys
  import opened Redis
  import opened Queues
  import opened Views
  import opened BullMQ
  import opened Effects

  /** The replies of a SCAN loop, up to cursor 0 or the first one that fails. */
  type Replies = seq<Result<seq<string>>>

  /** All the keys, in order and with their repetitions, or the error of the reply that failed. */
  function Gathered(replies: Replies): Result<seq<string>> {
    if replies == [] then Ok([])
    else
      match replies[0]
      case Err(e) => Err(e)
      case Ok(batch) => (match Gathered(replies[1..]) case Err(e) => Err(e) case Ok(more) => Ok(batch + more))
  }

  /** A scan gathers exactly the keys of its replies, unless one fails; then it reports the first that does. */
  lemma {:induction false} GatheredIff(replies: Replies, key: string)
    ensures var r := Gathered(replies);
            if forall i :: 0 <= i < |replies| ==> replies[i].Ok?
            then r.Ok? && (key in r.value <==> exists i :: 0 <= i < |replies| && key in replies[i].value)
            else exists i :: 0 <= i < |replies| && replies[i].Err? && r == Err(replies[i].message)
                             && forall j :: 0 <= j < i ==> replies[j].Ok?
  {
    if replies != [] {
      var rest := replies[1..];
      assert forall i :: 0 <= i < |rest| ==> rest[i] == replies[i + 1];
      assert forall i :: 0 < i < |replies| ==> replies[i] == rest[i - 1];
      GatheredIff(rest, key);
      if replies[0].Err? {
        assert Gathered(replies) == Err(replies[0].message);
      } else if i :| 0 <= i < |rest| && rest[i].Err? && Gathered(rest) == Err(rest[i].message)
                     && forall j :: 0 <= j < i ==> rest[j].Ok? {
        assert replies[i + 1].Err? && forall j :: 0 <= j < i + 1 ==> replies[j].Ok?;
      }
    }
  }

  /** A scan pattern `head*tail` whose two parts are literal. */
  predicate Globs(head: string, tail: string, key: string) {
    head <= key && HasSuffix(key, tail) && |head| + |tail| <= |key|
  }

  /**
   * SCAN on a keyspace at rest, if no reply fails: every matching key in some batch, possibly in several, and
   * no other key.
   */
  ghost predicate Scanned(db: Keyspace, head: string, tail: string, replies: Replies) {
    Gathered(replies).Ok? ==> forall k :: k in Gathered(replies).value <==> k in db && Globs(head, tail, k)
  }

  method ScanKeys(replies: Replies) returns (r: Result<seq<string>>)
    ensures r == Gathered(replies)
  {
    var keys: seq<string> := [];
    var cursor := 0;
    assert replies[0..] == replies;
    assert Gathered(replies).Ok? ==> [] + Gathered(replies).value == Gathered(replies).value;
    while cursor < |replies|
      invariant 0 <= cursor <= |replies|
      invariant Continues(Gathered(replies), keys, Gathered(replies[cursor..]))
    {
      ContinueStep(replies, cursor, keys);
      if replies[cursor].Err? { return Err(replies[cursor].message); }
      keys := keys + replies[cursor].value;
      cursor := cursor + 1;
    }
    assert replies[cursor..] == [] && keys + [] == keys;
    return Ok(keys);
  }

  lemma ContinueStep(replies: Replies, cursor: nat, keys: seq<string>)
    requires cursor < |replies| && Continues(Gathered(replies), keys, Gathered(replies[cursor..]))
    ensures if replies[cursor].Err? then Gathered(replies) == Err(replies[cursor].message)
            else Continues(Gathered(replies), keys + replies[cursor].value, Gathered(replies[cursor + 1..]))
  {
    var here := replies[cursor..];
    assert here[1..] == replies[cursor + 1..] && here[0] == replies[cursor];
    if replies[cursor].Ok? && Gathered(here[1..]).Ok? {
      var batch, more := replies[cursor].value, Gathered(here[1..]).value;
      assert keys + (batch + more) == (keys + batch) + more;
    }
  }

  /** The whole scan is the keys so far, followed by the rest. */
  predicate Continues(whole: Result<seq<string>>, keys: seq<string>, rest: Result<seq<string>>) {
    match rest case Err(e) => whole == Err(e) case Ok(more) => whole == Ok(keys + more)
  }

  // ---- the fallback: queue names out of state keys ----

  function Last(parts: seq<string>): string
    requires parts != []
  {
    parts[|parts| - 1]
  }

  predicate DistinctKeys(keys: seq<string>) { forall i, j :: 0 <= i < j < |keys| ==> keys[i] != keys[j] }

  predicate RevealsQueue(key: string, prefix: string) {
    var parts := Split(key, ':');
    |parts| >= 3 && parts[0] == prefix && KnownQueueSuffix(Last(parts))
  }

  function Revealed(keys: seq<string>, prefix: string): set<string> {
    set k | k in keys && RevealsQueue(k, prefix) :: Split(k, ':')[1]
  }

  ghost predicate MetaKeysOf(keys: seq<string>, prefix: string, names: set<string>) {
    forall k :: k in keys <==> exists n :: n in names && k == Key(prefix, n, "meta")
  }

  /** The map of names is emptied in an arbitrary order, as Go ranges over one. */
  method DiscoverQueueKeys(replies: Replies, prefix: string) returns (r: Result<seq<string>>)
    ensures Gathered(replies).Err? ==> r == Gathered(replies)
    ensures Gathered(replies).Ok? ==>
              r.Ok? && DistinctKeys(r.value) && MetaKeysOf(r.value, prefix, Revealed(Gathered(replies).value, prefix))
  {
    hide Gathered, Key;
    var scan := ScanKeys(replies);
    if scan.Err? { return Err(scan.message); }
    var stateKeys := scan.value;
    var queueNames: set<string> := {};
    var i := 0;
    while i < |stateKeys|
      invariant 0 <= i <= |stateKeys| && queueNames == Revealed(stateKeys[..i], prefix)
    {
      var parts := Split(stateKeys[i], ':');
      RevealedNext(stateKeys, prefix, i);
      if |parts| >= 3 && parts[0] == prefix && KnownQueueSuffix(parts[|parts| - 1]) {
        queueNames := queueNames + {parts[1]};
      }
      i := i + 1;
    }
    assert stateKeys[..i] == stateKeys;

    var keys: seq<string> := [];
    var left := queueNames;
    while left != {}
      invariant left <= queueNames
      invariant MetaKeysOf(keys, prefix, queueNames - left)
      invariant DistinctKeys(keys)
      decreases left
    {
      var name :| name in left;
      ghost var before, done := keys, queueNames - left;
      assert Key(prefix, name, "meta") !in keys by {
        if Key(prefix, name, "meta") in keys {
          var n :| n in done && Key(prefix, name, "meta") == Key(prefix, n, "meta");
          MetaInjective(prefix, name, n);
        }
      }
      keys := keys + [Key(prefix, name, "meta")];
      left := left - {name};
      forall k ensures k in keys <==> exists n :: n in queueNames - left && k == Key(prefix, n, "meta") {
        if k in keys {
          if k in before {
            var n :| n in done && k == Key(prefix, n, "meta");
            assert n in queueNames - left;
          } else {
            assert name in queueNames - left;
          }
        }
        if n :| n in queueNames - left && k == Key(prefix, n, "meta") {
          assert n in done || n == name;
        }
      }
    }
    return Ok(keys);
  }

  lemma RevealedNext(keys: seq<string>, prefix: string, i: nat)
    requires i < |keys|
    ensures Revealed(keys[..i + 1], prefix)
            == Revealed(keys[..i], prefix) + if RevealsQueue(keys[i], prefix) then {Split(keys[i], ':')[1]} else {}
  {}

  /** `ListQueues`' two trims undo the printer, for every prefix and name. */
  function NameOf(prefix: string, key: string): string {
    TrimSuffix(TrimPrefix(key, prefix + ":"), ":meta")
  }

  lemma TrimsRecoverName(prefix: string, name: string)
    ensures NameOf(prefix, Key(prefix, name, "meta")) == name
  {}

  lemma MetaInjective(prefix: string, a: string, b: string)
    requires Key(prefix, a, "meta") == Key(prefix, b, "meta")
    ensures a == b
  {
    TrimsRecoverName(prefix, a);
    TrimsRecoverName(prefix, b);
  }

  // ---- what the fallback finds ----

  lemma SplitTwo(a: string, b: string, rest: string)
    requires ColonFree(a) && ColonFree(b)
    ensures Split(a + ":" + b + ":" + rest, ':') == [a, b] + Split(rest, ':')
  {
    var s := a + ":" + b + ":" + rest;
    assert s == a + ":" + (b + ":" + rest);
    CutAtFirst(a, b + ":" + rest, ':');
    CutAtFirst(b, rest, ':');
    assert [a] + ([b] + Split(rest, ':')) == [a, b] + Split(rest, ':');
  }

  lemma SplitBack(key: string) returns (a: string, b: string, rest: string)
    requires |Split(key, ':')| >= 3
    ensures key == a + ":" + b + ":" + rest && ColonFree(a) && ColonFree(b)
    ensures Split(key, ':') == [a, b] + Split(rest, ':')
  {
    var c := Cut(key, ':');
    var d := Cut(c.after, ':');
    a, b, rest := c.before, d.before, d.after;
    SplitTwo(a, b, rest);
    assert key == a + ":" + (b + ":" + rest) == a + ":" + b + ":" + rest;
  }

  predicate EndsKnown(rest: string) { KnownQueueSuffix(Last(Split(rest, ':'))) }

  /**
   * With a colon-free prefix the fallback reveals exactly the colon-free names that own a key whose last
   * part is a known suffix: a state key, or a sub-key of one of the queue's jobs.
   */
  lemma RevealedIff(keys: seq<string>, prefix: string, name: string)
    requires ColonFree(prefix)
    ensures name in Revealed(keys, prefix)
            <==> ColonFree(name) && exists rest :: Key(prefix, name, rest) in keys && EndsKnown(rest)
  {
    hide KnownQueueSuffix, Split, Cut;
    if name in Revealed(keys, prefix) {
      var k :| k in keys && RevealsQueue(k, prefix) && name == Split(k, ':')[1];
      var a, b, rest := SplitBack(k);
      assert Last(Split(k, ':')) == Last(Split(rest, ':'));
      assert k == Key(prefix, name, rest);
      assert Key(prefix, name, rest) in keys && EndsKnown(rest);
    }
    if ColonFree(name) {
      forall rest | Key(prefix, name, rest) in keys && EndsKnown(rest) ensures name in Revealed(keys, prefix) {
        SplitTwo(prefix, name, rest);
        assert Last(Split(Key(prefix, name, rest), ':')) == Last(Split(rest, ':'));
        assert RevealsQueue(Key(prefix, name, rest), prefix);
      }
    }
  }

  const NINE := {"wait", "active", "paused", "delayed", "failed", "completed", "prioritized", "events", "marker"}

  /** The last part is one of the given suffixes: alone, or after a colon. */
  predicate EndsIn(rest: string, suffixes: set<string>) {
    rest in suffixes || exists s :: s in suffixes && HasSuffix(rest, ":" + s)
  }

  lemma EndsKnownIff(rest: string)
    ensures EndsKnown(rest) <==> EndsIn(rest, NINE)
  {
    forall s ensures KnownQueueSuffix(s) <==> s in NINE {}
    forall s | s in NINE ensures ColonFree(s) {}
    hide KnownQueueSuffix;
    LastPart(rest);
    forall s | s in NINE && (rest == s || HasSuffix(rest, ":" + s)) ensures Last(Split(rest, ':')) == s {
      LastPartIs(rest, s);
    }
  }

  lemma {:induction false} LastPart(s: string)
    ensures var last := Last(Split(s, ':')); s == last || HasSuffix(s, ":" + last)
    decreases |s|
  {
    var c := Cut(s, ':');
    if c.found {
      LastPart(c.after);
      assert Last(Split(s, ':')) == Last(Split(c.after, ':'));
      assert s == c.before + (":" + c.after);
    }
  }

  lemma {:induction false} LastPartIs(s: string, last: string)
    requires ColonFree(last) && (s == last || HasSuffix(s, ":" + last))
    ensures Last(Split(s, ':')) == last
    decreases |s|
  {
    if s == last {
      assert !Cut(s, ':').found;
    } else {
      CutBeforeLast(s[..|s| - |last| - 1], last);
      assert s == s[..|s| - |last| - 1] + (":" + last);
      var c := Cut(s, ':');
      LastPartIs(c.after, last);
      assert Split(s, ':') == [c.before] + Split(c.after, ':');
    }
  }

  lemma CutBeforeLast(a: string, last: string)
    ensures var c := Cut(a + (":" + last), ':');
            c.found && (c.after == last || HasSuffix(c.after, ":" + last))
  {
    hide Cut;
    var d := Cut(a, ':');
    if d.found {
      var rest := d.after + (":" + last);
      CutAtFirst(d.before, rest, ':');
      assert a + (":" + last) == d.before + ":" + rest;
      assert rest[|d.after|..] == ":" + last;
    } else {
      CutAtFirst(a, last, ':');
      assert a + (":" + last) == a + ":" + last;
    }
  }

  /** Every colon-free queue with a state key is revealed, if the prefix is colon-free. */
  lemma StateKeyRevealsQueue(keys: seq<string>, prefix: string, name: string, suffix: string)
    requires ColonFree(prefix) && ColonFree(name) && KnownQueueSuffix(suffix) && Key(prefix, name, suffix) in keys
    ensures name in Revealed(keys, prefix)
  {
    KnownEnds(suffix);
    RevealedIff(keys, prefix, name);
  }

  lemma KnownEnds(suffix: string)
    requires KnownQueueSuffix(suffix)
    ensures EndsKnown(suffix)
  {
    assert ColonFree(suffix);
    hide KnownQueueSuffix;
    assert !Cut(suffix, ':').found;
    assert Split(suffix, ':') == [suffix];
  }

  /** A prefix that contains a colon never equals a part of a key, so nothing is revealed. */
  lemma ColonPrefixRevealsNothing(keys: seq<string>, prefix: string)
    requires !ColonFree(prefix)
    ensures Revealed(keys, prefix) == {}
  {}

  // ---- the listing ----

  datatype QueueInfo = QueueInfo(name: string, stats: QueueStats)

  /** LLEN and ZCARD over the five counted structures. */
  function ReadStats(db: Keyspace, prefix: string, queue: string): Result<QueueStats> {
    var w, a := ListAt(db, Key(prefix, queue, "wait")), ListAt(db, Key(prefix, queue, "active"));
    var d, c := ZSetAt(db, Key(prefix, queue, "delayed")), ZSetAt(db, Key(prefix, queue, "completed"));
    var f := ZSetAt(db, Key(prefix, queue, "failed"));
    if w.None? || a.None? || d.None? || c.None? || f.None? then Err(REDIS_ERROR)
    else Ok(QueueStats(|w.value|, |a.value|, |d.value|, |c.value|, |f.value|))
  }

  /** The statistics fail exactly if one of the five keys holds another type. */
  lemma StatsReadIff(db: Keyspace, prefix: string, queue: string)
    ensures ReadStats(db, prefix, queue).Ok? <==>
              && (forall s :: s in {"wait", "active"} && At(prefix, queue, s) in db ==> db[At(prefix, queue, s)].ListV?)
              && (forall s :: s in {"delayed", "completed", "failed"} && At(prefix, queue, s) in db ==>
                    db[At(prefix, queue, s)].ZSetV?)
  {
    assert forall s :: At(prefix, queue, s) == Key(prefix, queue, s);
    hide At, Key;
    assert {"wait", "active"} == {"wait"} + {"active"};
  }

  lemma StatsView(db: Keyspace, prefix: string, queue: string)
    requires Typed(db, prefix, queue)
    ensures ReadStats(db, prefix, queue) == Ok(StatsOf(View(db, prefix, queue)))
    ensures var stats, q := ReadStats(db, prefix, queue).value, View(db, prefix, queue);
            && stats.waiting == |q.wait| && stats.active == |q.active| && stats.delayed == |q.delayed|
            && stats.completed == |q.completed| && stats.failed == |q.failed|
  {
    hide Key;
    assert PlaceTyped(db, prefix, queue, Wait) && PlaceTyped(db, prefix, queue, Active)
           && PlaceTyped(db, prefix, queue, Delayed);
    assert PlaceTyped(db, prefix, queue, Failed) && PlaceTyped(db, prefix, queue, Completed);
  }

  /** The names a listing is about: the queues with a `meta` key, or what the fallback reveals if there are none. */
  ghost predicate Lists(db: Keyspace, prefix: string, name: string) {
    if exists n :: Key(prefix, n, "meta") in db then Key(prefix, name, "meta") in db
    else
      exists keys :: (forall k :: k in keys <==> k in db && Globs(prefix + ":", "", k))
                     && name in Revealed(keys, prefix)
  }

  lemma MetaGlob(prefix: string, key: string)
    ensures Globs(prefix + ":", ":meta", key) <==> key == Key(prefix, NameOf(prefix, key), "meta")
    ensures forall n :: key == Key(prefix, n, "meta") ==> Globs(prefix + ":", ":meta", key) && n == NameOf(prefix, key)
  {
    forall n | key == Key(prefix, n, "meta") ensures Globs(prefix + ":", ":meta", key) && n == NameOf(prefix, key) {
      TrimsRecoverName(prefix, n);
      MetaKeyGlobs(prefix, n);
    }
    if Globs(prefix + ":", ":meta", key) {
      hide NameOf;
      var n := GlobMiddle(prefix, key);
      TrimsRecoverName(prefix, n);
    }
  }

  lemma MetaKeyGlobs(prefix: string, n: string)
    ensures Globs(prefix + ":", ":meta", Key(prefix, n, "meta"))
  {}

  lemma GlobMiddle(prefix: string, key: string) returns (n: string)
    requires Globs(prefix + ":", ":meta", key)
    ensures key == Key(prefix, n, "meta")
  {
    var rest := key[|prefix| + 1..];
    assert key == (prefix + ":") + rest;
    n := rest[..|rest| - 5];
    assert rest == n + ":meta" by { assert rest[|rest| - 5..] == key[|key| - 5..]; }
  }

  /** The loop of `ListQueues` over the keys it was given: one entry a key, up to the first error. */
  function Listed(db: Keyspace, prefix: string, keys: seq<string>): (r: Result<seq<QueueInfo>>)
    ensures r.Ok? ==> |r.value| == |keys|
    ensures r.Ok? ==> forall i :: 0 <= i < |keys| ==>
              r.value[i].name == NameOf(prefix, keys[i])
              && ReadStats(db, prefix, r.value[i].name) == Ok(r.value[i].stats)
    ensures r.Err? ==> exists i :: 0 <= i < |keys| && ReadStats(db, prefix, NameOf(prefix, keys[i])).Err?
    decreases |keys|
  {
    if keys == [] then Ok([])
    else
      var n := |keys| - 1;
      var before := Listed(db, prefix, keys[..n]);
      if before.Err? then before
      else
        match ReadStats(db, prefix, NameOf(prefix, keys[n]))
        case Err(e) => Err(e)
        case Ok(stats) => Ok(before.value + [QueueInfo(NameOf(prefix, keys[n]), stats)])
  }

  lemma ListedNext(db: Keyspace, prefix: string, keys: seq<string>, k: string)
    requires Listed(db, prefix, keys).Ok?
    ensures var stats := ReadStats(db, prefix, NameOf(prefix, k));
            Listed(db, prefix, keys + [k])
            == if stats.Err? then Err(stats.message)
               else Ok(Listed(db, prefix, keys).value + [QueueInfo(NameOf(prefix, k), stats.value)])
  {
    hide ReadStats, NameOf;
    assert (keys + [k])[..|keys|] == keys;
  }

  lemma {:induction false} ErrorEnds(db: Keyspace, prefix: string, keys: seq<string>, i: nat)
    requires i <= |keys| && Listed(db, prefix, keys[..i]).Err?
    ensures Listed(db, prefix, keys) == Listed(db, prefix, keys[..i])
    decreases |keys|
  {
    hide ReadStats, NameOf;
    var n := |keys| - 1;
    if i <= n {
      assert keys[..n][..i] == keys[..i];
      ErrorEnds(db, prefix, keys[..n], i);
    } else {
      assert keys[..i] == keys;
    }
  }

  predicate DistinctNames(queues: seq<QueueInfo>) {
    forall i, j :: 0 <= i < j < |queues| ==> queues[i].name != queues[j].name
  }

  /** No queue is listed twice exactly when no key is. */
  lemma DistinctNamesIff(db: Keyspace, prefix: string, keys: seq<string>)
    requires Listed(db, prefix, keys).Ok?
    requires forall k :: k in keys ==> k == Key(prefix, NameOf(prefix, k), "meta")
    ensures DistinctNames(Listed(db, prefix, keys).value) <==> DistinctKeys(keys)
  {
    hide Key, NameOf, ReadStats, Listed;
    var queues := Listed(db, prefix, keys).value;
    forall i, j | 0 <= i < j < |keys| ensures queues[i].name == queues[j].name <==> keys[i] == keys[j] {
      assert keys[i] in keys && keys[j] in keys;
    }
  }

  /** The scan for `meta` keys fails, or it finds none and the fallback's scan fails. */
  ghost predicate ScanFails(metaScan: Replies, stateScan: Replies, message: string) {
    Gathered(metaScan) == Err(message) || (Gathered(metaScan) == Ok([]) && Gathered(stateScan) == Err(message))
  }

  method ListQueues(db: Keyspace, prefix: string, metaScan: Replies, stateScan: Replies)
    returns (r: Result<seq<QueueInfo>>)
    requires Scanned(db, prefix + ":", ":meta", metaScan) && Scanned(db, prefix + ":", "", stateScan)
    ensures r.Ok? ==>
              forall name :: (exists i :: 0 <= i < |r.value| && r.value[i].name == name) <==> Lists(db, prefix, name)
    ensures r.Ok? ==> forall i :: 0 <= i < |r.value| ==> ReadStats(db, prefix, r.value[i].name) == Ok(r.value[i].stats)
    ensures Gathered(metaScan).Ok? && Gathered(metaScan).value != []
            ==> r == Listed(db, prefix, Gathered(metaScan).value)
    ensures r.Ok? ==> Gathered(metaScan).Ok?
    ensures r.Ok? ==> (DistinctNames(r.value)
                       <==> Gathered(metaScan).value == [] || DistinctKeys(Gathered(metaScan).value))
    ensures forall message :: ScanFails(metaScan, stateScan, message) ==> r == Err(message)
    ensures r.Err? ==> ScanFails(metaScan, stateScan, r.message)
                       || exists name :: Lists(db, prefix, name) && ReadStats(db, prefix, name).Err?
  {
    hide Key, Lists, Revealed, ReadStats, TrimPrefix, TrimSuffix, Globs, Listed, Gathered, DistinctKeys, DistinctNames;
    var scan := ScanKeys(metaScan);
    if scan.Err? { return Err(scan.message); }
    var keys := scan.value;
    if |keys| == 0 {
      var found := DiscoverQueueKeys(stateScan, prefix);
      if found.Err? { return Err(found.message); }
      keys := found.value;
    }
    ListedKeys(db, prefix, metaScan, stateScan, keys);

    var queues: seq<QueueInfo> := [];
    var i := 0;
    while i < |keys|
      invariant 0 <= i <= |keys|
      invariant Listed(db, prefix, keys[..i]) == Ok(queues)
    {
      assert keys[..i + 1] == keys[..i] + [keys[i]];
      ListedNext(db, prefix, keys[..i], keys[i]);
      var queueName := TrimSuffix(TrimPrefix(keys[i], prefix + ":"), ":meta");
      var stats := ReadStats(db, prefix, queueName);
      if stats.Err? {
        assert keys[i] in keys;
        ErrorEnds(db, prefix, keys, i + 1);
        return Err(stats.message);
      }
      queues := queues + [QueueInfo(queueName, stats.value)];
      i := i + 1;
    }
    assert keys[..i] == keys;
    r := Ok(queues);
    NamesListed(db, prefix, keys, queues);
    DistinctNamesIff(db, prefix, keys);
  }

  lemma NamesListed(db: Keyspace, prefix: string, keys: seq<string>, queues: seq<QueueInfo>)
    requires Listed(db, prefix, keys) == Ok(queues)
    requires forall name :: Lists(db, prefix, name) <==> Key(prefix, name, "meta") in keys
    requires forall k :: k in keys ==> k == Key(prefix, NameOf(prefix, k), "meta")
    ensures forall name :: (exists j :: 0 <= j < |queues| && queues[j].name == name) <==> Lists(db, prefix, name)
  {
    hide Key, Lists, ReadStats, NameOf, Listed;
    forall name ensures (exists j :: 0 <= j < |queues| && queues[j].name == name) <==> Lists(db, prefix, name) {
      if Lists(db, prefix, name) {
        var j :| 0 <= j < |keys| && keys[j] == Key(prefix, name, "meta");
        TrimsRecoverName(prefix, name);
        assert queues[j].name == name;
      }
      if j :| 0 <= j < |queues| && queues[j].name == name {
        assert keys[j] in keys;
      }
    }
  }

  /** SCAN may return a key twice; ListQueues then lists its queue twice. */
  lemma RepeatedScanListsTwice() returns (db: Keyspace, metaScan: Replies)
    ensures Scanned(db, "bull" + ":", ":meta", metaScan)
    ensures var none := QueueStats(0, 0, 0, 0, 0);
            Gathered(metaScan).Ok?
              && Listed(db, "bull", Gathered(metaScan).value) == Ok([QueueInfo("q", none), QueueInfo("q", none)])
  {
    var k := Key("bull", "q", "meta");
    db, metaScan := map[k := HashV(map["version" := "bullmq"])], [Ok([k]), Ok([k])];
    TwiceScanned(db, k);
    var none := QueueStats(0, 0, 0, 0, 0);
    NothingToCount(db, k);
    TrimsRecoverName("bull", "q");
    hide *;
    ListedNothing(db, "bull");
    ListedNext(db, "bull", [], k);
    ListedNext(db, "bull", [k], k);
    assert [] + [k] == [k] && [k] + [k] == [k, k];
    assert [] + [QueueInfo("q", none)] == [QueueInfo("q", none)];
    assert [QueueInfo("q", none)] + [QueueInfo("q", none)] == [QueueInfo("q", none), QueueInfo("q", none)];
  }

  lemma NothingToCount(db: Keyspace, k: string)
    requires k == Key("bull", "q", "meta") && db.Keys == {k}
    ensures ReadStats(db, "bull", "q") == Ok(QueueStats(0, 0, 0, 0, 0))
  {
    forall s | s in {"wait", "active", "delayed", "completed", "failed"} ensures Key("bull", "q", s) !in db {
      SuffixInjective("bull", "q", s, "meta");
    }
    hide Key;
  }

  lemma TwiceScanned(db: Keyspace, k: string)
    requires k == Key("bull", "q", "meta") && db.Keys == {k}
    ensures Gathered([Ok([k]), Ok([k])]) == Ok([k, k]) && Scanned(db, "bull" + ":", ":meta", [Ok([k]), Ok([k])])
  {
    hide Key, Globs;
    var once: Replies := [Ok([k])];
    assert once[1..] == [] && [k] + [] == [k];
    assert Gathered(once) == Ok([k]);
    var twice: Replies := [Ok([k]), Ok([k])];
    assert twice[1..] == once && [k] + [k] == [k, k];
    MetaGlob("bull", k);
  }

  lemma ListedNothing(db: Keyspace, prefix: string)
    ensures Listed(db, prefix, []) == Ok([])
  {}

  /**
   * Without any `meta` key, and with a colon-free prefix, exactly the colon-free names are listed that own a key
   * which ends in a known suffix.
   */
  lemma FallbackListsIff(db: Keyspace, prefix: string, metaScan: Replies, stateScan: Replies, name: string)
    requires Scanned(db, prefix + ":", ":meta", metaScan) && Scanned(db, prefix + ":", "", stateScan)
    requires Gathered(metaScan) == Ok([]) && Gathered(stateScan).Ok? && ColonFree(prefix)
    ensures Lists(db, prefix, name) <==>
              ':' !in name && exists rest :: Key(prefix, name, rest) in db && EndsIn(rest, NINE)
  {
    var scanned := Gathered(stateScan).value;
    RevealedIff(scanned, prefix, name);
    forall rest ensures Key(prefix, name, rest) in scanned
      <==> Key(prefix, name, rest) in db { OwnGlob(prefix, name, rest); }
    forall rest { EndsKnownIff(rest); }
    hide Key, EndsKnown, EndsIn, Globs, Revealed;
    forall k ensures !(k in db && k == Key(prefix, NameOf(prefix, k), "meta")) { MetaGlob(prefix, k); }
    forall n ensures Key(prefix, n, "meta") !in db { TrimsRecoverName(prefix, n); }
    assert Lists(db, prefix, name)
           <==> name in Revealed(scanned, prefix) by { SameRevealed(db, prefix, scanned, name); }
  }

  lemma OwnGlob(prefix: string, name: string, rest: string)
    ensures Globs(prefix + ":", "", Key(prefix, name, rest))
  {}

  lemma SameRevealed(db: Keyspace, prefix: string, scanned: seq<string>, name: string)
    requires forall k :: k in scanned <==> k in db && Globs(prefix + ":", "", k)
    requires forall n :: Key(prefix, n, "meta") !in db
    ensures Lists(db, prefix, name) <==> name in Revealed(scanned, prefix)
  {
    hide Key, Globs;
    if Lists(db, prefix, name) {
      var other :| (forall k :: k in other <==> k in db && Globs(prefix + ":", "", k))
        && name in Revealed(other, prefix);
      assert Revealed(other, prefix) == Revealed(scanned, prefix);
    }
  }

  /** The keys the loop runs over are the `meta` keys of the names to be listed. */
  lemma ListedKeys(db: Keyspace, prefix: string, metaScan: Replies, stateScan: Replies, keys: seq<string>)
    requires Scanned(db, prefix + ":", ":meta", metaScan) && Scanned(db, prefix + ":", "", stateScan)
    requires Gathered(metaScan).Ok? && (Gathered(metaScan).value != [] ==> keys == Gathered(metaScan).value)
    requires Gathered(metaScan).value == [] ==>
               Gathered(stateScan).Ok? && MetaKeysOf(keys, prefix, Revealed(Gathered(stateScan).value, prefix))
    ensures forall name :: Lists(db, prefix, name) <==> Key(prefix, name, "meta") in keys
    ensures forall k :: k in keys
                        ==> k == Key(prefix, NameOf(prefix, k), "meta") && Lists(db, prefix, NameOf(prefix, k))
  {
    hide Key, NameOf, Gathered, Revealed, Globs;
    var metas := Gathered(metaScan).value;
    forall k ensures k in metas <==> k in db && k == Key(prefix, NameOf(prefix, k), "meta") { MetaGlob(prefix, k); }
    forall name ensures NameOf(prefix, Key(prefix, name, "meta")) == name { TrimsRecoverName(prefix, name); }
    if metas != [] {
      assert metas[0] in metas;
      assert Key(prefix, NameOf(prefix, metas[0]), "meta") in db;
    } else {
      assert forall n :: Key(prefix, n, "meta") !in db;
      var scanned := Gathered(stateScan).value;
      forall name ensures Lists(db, prefix, name) <==> name in Revealed(scanned, prefix) {
        SameRevealed(db, prefix, scanned, name);
      }
      hide Lists;
    }
  }
}
