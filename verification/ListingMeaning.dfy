/** On a keyspace that stands still: what ListMessages returns, against the plain concatenation of the structures. */
module ListingMeaning {
  import opened Text
  import opened Keys
  import opened Redis
  import opened Queues
  import opened Views
  import opened BullMQ
  import opened Listing
  import Effects

  /** Every id a status lists, in listing order: lists from the head, sorted sets from the highest rank. */
  function StatusIds(q: Queue, status: string): seq<string> {
    if status == WAITING then q.wait
    else if status == ACTIVE then q.active
    else if status == DELAYED then Reverse(q.delayed)
    else if status == FAILED then Reverse(q.failed)
    else if status == COMPLETED then Reverse(q.completed)
    else []
  }

  /** The messages behind some ids: those that still have a hash and pass the query. */
  function Live(q: Queue, queue: string, status: string, ids: seq<string>, query: string,
                matches: Matcher): seq<Message> {
    if ids == [] then []
    else Kept(if ids[0] in q.jobs then Some(ToMessage(queue, ids[0], status, q.jobs[ids[0]])) else None, query, matches)
         + Live(q, queue, status, ids[1..], query, matches)
  }

  /** The listing without any window. */
  function Everything(q: Queue, queue: string, statuses: seq<string>, query: string, matches: Matcher): seq<Message> {
    if statuses == [] then []
    else
      Live(q, queue, statuses[0], StatusIds(q, statuses[0]), query, matches)
      + Everything(q, queue, statuses[1..], query, matches)
  }

  function TotalIds(q: Queue, statuses: seq<string>): nat {
    if statuses == [] then 0 else |StatusIds(q, statuses[0])| + TotalIds(q, statuses[1..])
  }

  function Take(ms: seq<Message>, n: int): seq<Message> { if n <= 0 then [] else if n <= |ms| then ms[..n] else ms }

  function FirstIds(ids: seq<string>, n: int): seq<string> {
    if n <= 0 then [] else if n <= |ids| then ids[..n] else ids
  }

  /** Typed keys, nothing empty stored, and structures whose ids name jobs: a hash or nothing under each. */
  ghost predicate Sound(db: Keyspace, prefix: string, queue: string) {
    && Typed(db, prefix, queue) && Effects.Compact(db)
    && forall p: Place, id :: id in View(db, prefix, queue).At(p) ==> PlainId(id) && JobTyped(db, prefix, queue, id)
  }

  lemma ReverseIn(s: seq<string>, x: string)
    ensures x in Reverse(s) <==> x in s
  {}

  /** A listed id is in the structure of its status. */
  lemma StatusIdsHeld(q: Queue, status: string, id: string) returns (p: Place)
    requires id in StatusIds(q, status)
    ensures id in q.At(p)
  {
    hide Reverse;
    p := if status == WAITING then Wait else if status == ACTIVE then Active else if status == DELAYED then Delayed
         else if status == FAILED then Failed else Completed;
    ReverseIn(q.At(p), id);
  }

  lemma StatusIdsPlain(db: Keyspace, prefix: string, queue: string, status: string, id: string)
    requires Sound(db, prefix, queue) && id in StatusIds(View(db, prefix, queue), status)
    ensures PlainId(id) && JobTyped(db, prefix, queue, id)
  {
    hide View, StatusIds, Typed, PlainId, JobTyped;
    var p := StatusIdsHeld(View(db, prefix, queue), status, id);
  }

  // ---- the commands, read through the view ----

  lemma PlaceRead(db: Keyspace, prefix: string, queue: string, p: Place)
    requires Typed(db, prefix, queue)
    ensures var key := Key(prefix, queue, Suffix(p)); var held := View(db, prefix, queue).At(p);
            if IsList(p) then ListAt(db, key) == Some(held)
            else ZSetAt(db, key).Some? && Members(ZSetAt(db, key).value) == held
  {
    assert PlaceTyped(db, prefix, queue, p);
    ViewAt(db, prefix, queue, p);
    hide View, Key;
  }

  lemma WindowIds(db: Keyspace, prefix: string, queue: string, status: string, n: nat)
    requires Typed(db, prefix, queue) && n >= 1
    ensures IdsByStatus(db, Key(prefix, queue, StatusSuffix(status)), status, n)
            == Ok(FirstIds(StatusIds(View(db, prefix, queue), status), n))
  {
    hide Key, LRange, View, Typed, Reverse, ListAt, ZSetAt, Suffix, ZRevRange;
    SuffixesAre();
    if status == WAITING || status == ACTIVE {
      ListIds(db, prefix, queue, if status == WAITING then Wait else Active, n);
    } else if status == DELAYED || status == FAILED || status == COMPLETED {
      SetIds(db, prefix, queue, if status == DELAYED then Delayed else if status == FAILED then Failed
             else Completed, n);
    }
  }

  lemma ListIds(db: Keyspace, prefix: string, queue: string, p: Place, n: nat)
    requires Typed(db, prefix, queue) && n >= 1 && IsList(p)
    ensures ListAt(db, Key(prefix, queue, Suffix(p))).Some?
    ensures LRange(ListAt(db, Key(prefix, queue, Suffix(p))).value, 0, n - 1)
            == FirstIds(View(db, prefix, queue).At(p), n)
  {
    PlaceRead(db, prefix, queue, p);
    hide View, Typed, Key;
    var ids := View(db, prefix, queue).At(p);
    LRangePrefix(ids, n);
    assert ids[..|ids|] == ids;
  }

  lemma SetIds(db: Keyspace, prefix: string, queue: string, p: Place, n: nat)
    requires Typed(db, prefix, queue) && n >= 1 && !IsList(p)
    ensures ZSetAt(db, Key(prefix, queue, Suffix(p))).Some?
    ensures ZRevRange(ZSetAt(db, Key(prefix, queue, Suffix(p))).value, 0, n - 1)
            == FirstIds(Reverse(View(db, prefix, queue).At(p)), n)
  {
    PlaceRead(db, prefix, queue, p);
    hide View, Typed, Key, Reverse;
    var ids := Reverse(View(db, prefix, queue).At(p));
    LRangePrefix(ids, n);
    assert ids[..|ids|] == ids;
  }

  lemma ReadView(db: Keyspace, prefix: string, queue: string, id: string, status: string)
    requires Effects.Compact(db) && PlainId(id) && JobTyped(db, prefix, queue, id)
    ensures var jobs := View(db, prefix, queue).jobs;
            ReadJob(db, prefix, queue, id, status)
              == Ok(if id in jobs then Some(ToMessage(queue, id, status, jobs[id])) else None)
  {
    JobsAt(db, prefix, queue, id);
    ViewParts(db, prefix, queue);
    hide Key, View, PlainId, Jobs;
    assert Key(prefix, queue, id) in db ==> !Vacant(db[Key(prefix, queue, id)]);
  }

  lemma {:induction false} CollectLive(db: Keyspace, prefix: string, queue: string, status: string, ids: seq<string>,
                                       query: string, matches: Matcher)
    requires Effects.Compact(db)
    requires forall id :: id in ids ==> PlainId(id) && JobTyped(db, prefix, queue, id)
    ensures Collect(db, prefix, queue, status, ids, query, matches)
            == Ok(Live(View(db, prefix, queue), queue, status, ids, query, matches))
    decreases |ids|
  {
    hide View, Effects.Compact, ReadJob, PlainId, JobTyped;
    if ids != [] {
      ReadView(db, prefix, queue, ids[0], status);
      CollectLive(db, prefix, queue, status, ids[1..], query, matches);
    }
  }

  /** The windowed listing, on the queue alone. */
  function Window(q: Queue, queue: string, statuses: seq<string>, limit: nat, query: string, matches: Matcher,
                  acc: seq<Message>)
    : seq<Message>
    decreases |statuses|
  {
    if statuses == [] || |acc| >= limit then acc
    else
      Window(q, queue, statuses[1..], limit, query, matches,
             acc + Live(q, queue, statuses[0], FirstIds(StatusIds(q, statuses[0]), limit - |acc|), query, matches))
  }

  /** Over a sound keyspace the commands succeed and the loop computes the window of the queue's view. */
  lemma {:induction false} WindowedIsWindow(db: Keyspace, prefix: string, queue: string, statuses: seq<string>,
                                            limit: nat, query: string, matches: Matcher, acc: seq<Message>)
    requires Sound(db, prefix, queue)
    ensures Windowed(db, prefix, queue, statuses, limit, query, matches, acc)
            == Ok(Window(View(db, prefix, queue), queue, statuses, limit, query, matches, acc))
    decreases |statuses|
  {
    hide View, Typed, Effects.Compact, IdsByStatus, Collect, Key, Live, StatusIds, FirstIds, PlainId, JobTyped;
    if statuses != [] && |acc| < limit {
      var q := View(db, prefix, queue);
      var ids := FirstIds(StatusIds(q, statuses[0]), limit - |acc|);
      forall id | id in ids ensures PlainId(id) && JobTyped(db, prefix, queue, id) {
        FirstIdsIn(StatusIds(q, statuses[0]), limit - |acc|, id);
        StatusIdsPlain(db, prefix, queue, statuses[0], id);
      }
      WindowIds(db, prefix, queue, statuses[0], limit - |acc|);
      CollectLive(db, prefix, queue, statuses[0], ids, query, matches);
      WindowedIsWindow(db, prefix, queue, statuses[1..], limit, query, matches,
                       acc + Live(q, queue, statuses[0], ids, query, matches));
    }
  }

  lemma FirstIdsIn(ids: seq<string>, n: int, id: string)
    requires id in FirstIds(ids, n)
    ensures id in ids
  {}

  // ---- refinement: take of the concatenation ----

  ghost predicate NoDangling(q: Queue) {
    forall p: Place, id :: id in q.At(p) ==> id in q.jobs
  }

  lemma {:induction false} LiveAll(q: Queue, queue: string, status: string, ids: seq<string>, matches: Matcher, n: nat)
    requires forall id :: id in ids ==> id in q.jobs
    ensures |Live(q, queue, status, ids, "", matches)| == |ids|
    ensures Live(q, queue, status, FirstIds(ids, n), "", matches) == Take(Live(q, queue, status, ids, "", matches), n)
    decreases |ids|
  {
    if ids != [] {
      LiveAll(q, queue, status, ids[1..], matches, if n > 0 then n - 1 else 0);
      if 0 < n <= |ids| {
        assert ids[..n][1..] == ids[1..][..n - 1];
        assert ids[..n][0] == ids[0];
      }
    }
  }

  /** Without query and dangling ids, the window is the first `limit` messages of the plain listing. */
  lemma {:induction false} WindowIsTake(q: Queue, queue: string, statuses: seq<string>, limit: nat, matches: Matcher,
                                        acc: seq<Message>)
    requires NoDangling(q) && |acc| <= limit
    ensures Window(q, queue, statuses, limit, "", matches, acc)
            == acc + Take(Everything(q, queue, statuses, "", matches), limit - |acc|)
    decreases |statuses|
  {
    if statuses == [] || |acc| >= limit {
      assert acc + [] == acc;
    } else {
      hide Live, StatusIds;
      var ids := StatusIds(q, statuses[0]);
      var room := limit - |acc|;
      forall id | id in ids ensures id in q.jobs { var p := StatusIdsHeld(q, statuses[0], id); }
      LiveAll(q, queue, statuses[0], ids, matches, room);
      var whole := Live(q, queue, statuses[0], ids, "", matches);
      WindowIsTake(q, queue, statuses[1..], limit, matches, acc + Take(whole, room));
      TakeConcat(acc, whole, Everything(q, queue, statuses[1..], "", matches), room);
    }
  }

  lemma TakeConcat(acc: seq<Message>, a: seq<Message>, b: seq<Message>, room: nat)
    ensures acc + Take(a + b, room) == (acc + Take(a, room)) + Take(b, room - |Take(a, room)|)
  {}

  // ---- completeness ----

  lemma {:induction false} LiveShorter(q: Queue, queue: string, status: string, ids: seq<string>, query: string,
                                       matches: Matcher)
    ensures |Live(q, queue, status, ids, query, matches)| <= |ids|
    decreases |ids|
  {
    if ids != [] { LiveShorter(q, queue, status, ids[1..], query, matches); }
  }

  /**
   * If the structures hold no more ids than the limit, the listing is complete, whatever the query and however
   * many ids dangle.
   */
  lemma {:induction false} WindowIsComplete(q: Queue, queue: string, statuses: seq<string>, limit: nat, query: string,
                                            matches: Matcher, acc: seq<Message>)
    requires |acc| + TotalIds(q, statuses) <= limit
    ensures Window(q, queue, statuses, limit, query, matches, acc)
            == acc + Everything(q, queue, statuses, query, matches)
    decreases |statuses|
  {
    if statuses == [] {
      assert acc + [] == acc;
    } else if |acc| >= limit {
      NothingThere(q, queue, statuses, query, matches);
      assert acc + [] == acc;
    } else {
      var ids := StatusIds(q, statuses[0]);
      var batch := Live(q, queue, statuses[0], ids, query, matches);
      assert TotalIds(q, statuses) == |ids| + TotalIds(q, statuses[1..]);
      hide Live, StatusIds, Window, Everything, TotalIds;
      assert FirstIds(ids, limit - |acc|) == ids;
      LiveShorter(q, queue, statuses[0], ids, query, matches);
      WindowCons(q, queue, statuses, limit, query, matches, acc);
      WindowIsComplete(q, queue, statuses[1..], limit, query, matches, acc + batch);
      Regroup(acc, batch, Everything(q, queue, statuses[1..], query, matches));
    }
  }

  lemma Regroup(a: seq<Message>, b: seq<Message>, c: seq<Message>)
    ensures a + (b + c) == (a + b) + c
  {}

  lemma WindowCons(q: Queue, queue: string, statuses: seq<string>, limit: nat, query: string, matches: Matcher,
                   acc: seq<Message>)
    requires statuses != [] && |acc| < limit
    ensures Window(q, queue, statuses, limit, query, matches, acc)
            == Window(q, queue, statuses[1..], limit, query, matches,
                      acc + Live(q, queue, statuses[0], FirstIds(StatusIds(q, statuses[0]), limit - |acc|), query,
                                 matches))
    ensures Everything(q, queue, statuses, query, matches)
            == Live(q, queue, statuses[0], StatusIds(q, statuses[0]), query, matches)
              + Everything(q, queue, statuses[1..], query, matches)
  {}

  lemma {:induction false} NothingThere(q: Queue, queue: string, statuses: seq<string>, query: string, matches: Matcher)
    requires TotalIds(q, statuses) == 0
    ensures Everything(q, queue, statuses, query, matches) == []
    decreases |statuses|
  {
    if statuses != [] { NothingThere(q, queue, statuses[1..], query, matches); }
  }

  // ---- what is listed at all ----

  ghost predicate Subsequence(a: seq<Message>, b: seq<Message>)
    decreases |b|
  {
    a == [] || (b != [] && ((a[0] == b[0] && Subsequence(a[1..], b[1..])) || Subsequence(a, b[1..])))
  }

  lemma {:induction false} SubsequencePrepend(a: seq<Message>, b: seq<Message>, front: seq<Message>)
    requires Subsequence(a, b)
    ensures Subsequence(a, front + b) && Subsequence(front + a, front + b)
    decreases |front|
  {
    if front == [] {
      assert front + a == a && front + b == b;
    } else {
      SubsequencePrepend(a, b, front[1..]);
      assert (front + b)[1..] == front[1..] + b && (front + a)[1..] == front[1..] + a;
    }
  }

  lemma {:induction false} SubsequenceAppend(a: seq<Message>, b: seq<Message>, c: seq<Message>, d: seq<Message>)
    requires Subsequence(a, b) && Subsequence(c, d)
    ensures Subsequence(a + c, b + d)
    decreases |b|
  {
    if a == [] {
      SubsequencePrepend(c, d, b);
      assert a + c == c;
    } else if a[0] == b[0] && Subsequence(a[1..], b[1..]) {
      SubsequenceAppend(a[1..], b[1..], c, d);
      assert (a + c)[1..] == a[1..] + c && (b + d)[1..] == b[1..] + d;
    } else {
      SubsequenceAppend(a, b[1..], c, d);
      assert (b + d)[1..] == b[1..] + d;
    }
  }

  lemma {:induction false} LivePrefix(q: Queue, queue: string, status: string, ids: seq<string>, query: string,
                                      matches: Matcher, n: int)
    ensures Subsequence(Live(q, queue, status, FirstIds(ids, n), query, matches),
                        Live(q, queue, status, ids, query, matches))
    decreases |ids|
  {
    if ids != [] && n > 0 {
      LivePrefix(q, queue, status, ids[1..], query, matches, n - 1);
      var first := FirstIds(ids, n);
      assert first[0] == ids[0] && first[1..] == FirstIds(ids[1..], n - 1);
      var head := if ids[0] in q.jobs && Keeps(ToMessage(queue, ids[0], status, q.jobs[ids[0]]), query, matches)
                  then [ToMessage(queue, ids[0], status, q.jobs[ids[0]])] else [];
      SubsequencePrepend(Live(q, queue, status, first[1..], query, matches),
                         Live(q, queue, status, ids[1..], query, matches), head);
    }
  }

  /** In every case the listing is a subsequence of the live, matching messages. */
  lemma {:induction false} WindowIsSubsequence(q: Queue, queue: string, statuses: seq<string>, limit: nat,
                                               query: string, matches: Matcher, acc: seq<Message>)
    returns (ms: seq<Message>)
    ensures Window(q, queue, statuses, limit, query, matches, acc) == acc + ms
    ensures Subsequence(ms, Everything(q, queue, statuses, query, matches))
    decreases |statuses|
  {
    if statuses == [] || |acc| >= limit {
      ms := [];
      assert acc + [] == acc;
    } else {
      var ids := StatusIds(q, statuses[0]);
      var batch := Live(q, queue, statuses[0], FirstIds(ids, limit - |acc|), query, matches);
      hide Live, StatusIds, FirstIds, Subsequence, Window, Everything;
      WindowCons(q, queue, statuses, limit, query, matches, acc);
      LivePrefix(q, queue, statuses[0], ids, query, matches, limit - |acc|);
      var rest := WindowIsSubsequence(q, queue, statuses[1..], limit, query, matches, acc + batch);
      ms := batch + rest;
      SubsequenceAppend(batch, Live(q, queue, statuses[0], ids, query, matches), rest,
                        Everything(q, queue, statuses[1..], query, matches));
      Regroup(acc, batch, rest);
    }
  }

  /** Without a status filter: waiting, active, delayed, failed, completed; sorted sets from the newest. */
  lemma DefaultOrder(q: Queue, queue: string, query: string, matches: Matcher)
    ensures Everything(q, queue, StatusesFor(""), query, matches)
            == Live(q, queue, "waiting", q.wait, query, matches)
               + (Live(q, queue, "active", q.active, query, matches)
                  + (Live(q, queue, "delayed", Reverse(q.delayed), query, matches)
                     + (Live(q, queue, "failed", Reverse(q.failed), query, matches)
                        + Live(q, queue, "completed", Reverse(q.completed), query, matches))))
    ensures StatusesFor("unknown") == StatusesFor("")
  {
    hide Live, Reverse;
    EverythingCons(q, queue, COMPLETED, [], query, matches);
    EverythingCons(q, queue, FAILED, [COMPLETED], query, matches);
    EverythingCons(q, queue, DELAYED, [FAILED, COMPLETED], query, matches);
    EverythingCons(q, queue, ACTIVE, [DELAYED, FAILED, COMPLETED], query, matches);
    EverythingCons(q, queue, WAITING, [ACTIVE, DELAYED, FAILED, COMPLETED], query, matches);
    assert Everything(q, queue, [], query, matches) == [];
  }

  lemma EverythingCons(q: Queue, queue: string, status: string, rest: seq<string>, query: string, matches: Matcher)
    ensures Everything(q, queue, [status] + rest, query, matches)
            == Live(q, queue, status, StatusIds(q, status), query, matches) + Everything(q, queue, rest, query, matches)
  {}

  // ---- labels and duplicates ----

  /** Every listed message is a job that still has its hash, labelled with the status whose structure holds it. */
  lemma {:induction false} ListedIsHeld(q: Queue, queue: string, statuses: seq<string>, query: string,
                                        matches: Matcher, m: Message)
    requires m in Everything(q, queue, statuses, query, matches)
    ensures m.status in statuses && m.id in StatusIds(q, m.status)
    ensures m.id in q.jobs && m == ToMessage(queue, m.id, m.status, q.jobs[m.id]) && Keeps(m, query, matches)
    decreases |statuses|
  {
    hide Live, StatusIds;
    if m in Everything(q, queue, statuses[1..], query, matches) {
      ListedIsHeld(q, queue, statuses[1..], query, matches, m);
    } else {
      LiveIsHeld(q, queue, statuses[0], StatusIds(q, statuses[0]), query, matches, m);
    }
  }

  lemma {:induction false} LiveIsHeld(q: Queue, queue: string, status: string, ids: seq<string>, query: string,
                                      matches: Matcher, m: Message)
    requires m in Live(q, queue, status, ids, query, matches)
    ensures m.status == status && m.id in ids
    ensures m.id in q.jobs && m == ToMessage(queue, m.id, status, q.jobs[m.id]) && Keeps(m, query, matches)
    decreases |ids|
  {
    if m in Live(q, queue, status, ids[1..], query, matches) {
      LiveIsHeld(q, queue, status, ids[1..], query, matches, m);
    }
  }

  function CountId(ms: seq<Message>, id: string): nat {
    if ms == [] then 0 else (if ms[0].id == id then 1 else 0) + CountId(ms[1..], id)
  }

  lemma {:induction false} CountConcat(a: seq<Message>, b: seq<Message>, id: string)
    ensures CountId(a + b, id) == CountId(a, id) + CountId(b, id)
    decreases |a|
  {
    if a == [] {
      assert a + b == b;
    } else {
      assert (a + b)[1..] == a[1..] + b;
      CountConcat(a[1..], b, id);
    }
  }

  lemma {:induction false} CountSubsequence(a: seq<Message>, b: seq<Message>, id: string)
    requires Subsequence(a, b)
    ensures CountId(a, id) <= CountId(b, id)
    decreases |b|
  {
    if a != [] {
      if a[0] == b[0] && Subsequence(a[1..], b[1..]) { CountSubsequence(a[1..], b[1..], id); }
      else { CountSubsequence(a, b[1..], id); }
    }
  }

  lemma {:induction false} CountLive(q: Queue, queue: string, status: string, ids: seq<string>, query: string,
                                     matches: Matcher, id: string)
    ensures CountId(Live(q, queue, status, ids, query, matches), id) <= multiset(ids)[id]
    decreases |ids|
  {
    if ids != [] {
      CountLive(q, queue, status, ids[1..], query, matches, id);
      assert ids == [ids[0]] + ids[1..];
      hide ToMessage;
      var m := if ids[0] in q.jobs then Some(ToMessage(queue, ids[0], status, q.jobs[ids[0]])) else None;
      var rest := Live(q, queue, status, ids[1..], query, matches);
      CountConcat(Kept(m, query, matches), rest, id);
      KeptCount(queue, ids[0], status, if ids[0] in q.jobs then q.jobs[ids[0]] else map[], query, matches, id);
    }
  }

  lemma KeptCount(queue: string, x: string, status: string, h: Hash, query: string, matches: Matcher, id: string)
    ensures CountId(Kept(Some(ToMessage(queue, x, status, h)), query, matches), id) <= multiset{x}[id]
    ensures CountId(Kept(None, query, matches), id) == 0
  {}

  function CountHeld(q: Queue, statuses: seq<string>, id: string): nat {
    if statuses == [] then 0 else multiset(StatusIds(q, statuses[0]))[id] + CountHeld(q, statuses[1..], id)
  }

  lemma {:induction false} CountEverything(q: Queue, queue: string, statuses: seq<string>, query: string,
                                           matches: Matcher, id: string)
    ensures CountId(Everything(q, queue, statuses, query, matches), id) <= CountHeld(q, statuses, id)
    decreases |statuses|
  {
    if statuses != [] {
      hide Live, StatusIds;
      CountLive(q, queue, statuses[0], StatusIds(q, statuses[0]), query, matches, id);
      CountEverything(q, queue, statuses[1..], query, matches, id);
      CountConcat(Live(q, queue, statuses[0], StatusIds(q, statuses[0]), query, matches),
                  Everything(q, queue, statuses[1..], query, matches), id);
    }
  }

  lemma HeldAtMost(q: Queue, status: string, id: string)
    ensures CountHeld(q, StatusesFor(status), id) <= q.Occurrences(id)
  {
    HeldOne(q, status, id);
    hide Reverse;
    assert multiset(Reverse(q.delayed)) == multiset(q.delayed);
    assert multiset(Reverse(q.failed)) == multiset(q.failed);
    assert multiset(Reverse(q.completed)) == multiset(q.completed);
    HeldCons(q, COMPLETED, [], id);
    HeldCons(q, FAILED, [COMPLETED], id);
    HeldCons(q, DELAYED, [FAILED, COMPLETED], id);
    HeldCons(q, ACTIVE, [DELAYED, FAILED, COMPLETED], id);
    HeldCons(q, WAITING, [ACTIVE, DELAYED, FAILED, COMPLETED], id);
  }

  lemma HeldCons(q: Queue, status: string, rest: seq<string>, id: string)
    ensures CountHeld(q, [status] + rest, id) == multiset(StatusIds(q, status))[id] + CountHeld(q, rest, id)
  {}

  lemma HeldOne(q: Queue, status: string, id: string)
    ensures CountHeld(q, [status], id) == multiset(StatusIds(q, status))[id] <= q.Occurrences(id)
  {}

  // ---- duplicates, whatever the hashes hold ----

  lemma {:induction false} CountCollect(db: Keyspace, prefix: string, queue: string, status: string, ids: seq<string>,
                                        query: string, matches: Matcher, id: string)
    requires Collect(db, prefix, queue, status, ids, query, matches).Ok?
    ensures CountId(Collect(db, prefix, queue, status, ids, query, matches).value, id) <= multiset(ids)[id]
    decreases |ids|
  {
    if ids != [] {
      hide Key;
      CountCollect(db, prefix, queue, status, ids[1..], query, matches, id);
      assert ids == [ids[0]] + ids[1..];
      var rest := Collect(db, prefix, queue, status, ids[1..], query, matches).value;
      var kept := Kept(ReadJob(db, prefix, queue, ids[0], status).value, query, matches);
      CountConcat(kept, rest, id);
      assert CountId(kept, id) <= multiset{ids[0]}[id] by { assert |kept| <= 1; }
    }
  }

  lemma FirstIdsCount(ids: seq<string>, n: int, id: string)
    ensures multiset(FirstIds(ids, n))[id] <= multiset(ids)[id]
  {
    if 0 < n <= |ids| { assert ids == ids[..n] + ids[n..]; }
  }

  lemma {:induction false} CountWindowed(db: Keyspace, prefix: string, queue: string, statuses: seq<string>, limit: nat,
                                         query: string, matches: Matcher, acc: seq<Message>, id: string)
    requires Typed(db, prefix, queue) && Windowed(db, prefix, queue, statuses, limit, query, matches, acc).Ok?
    ensures CountId(Windowed(db, prefix, queue, statuses, limit, query, matches, acc).value, id)
            <= CountId(acc, id) + CountHeld(View(db, prefix, queue), statuses, id)
    decreases |statuses|
  {
    hide View, Typed, IdsByStatus, Collect, Key, StatusIds, FirstIds, CountId;
    if statuses != [] && |acc| < limit {
      var all := StatusIds(View(db, prefix, queue), statuses[0]);
      var ids := FirstIds(all, limit - |acc|);
      WindowIds(db, prefix, queue, statuses[0], limit - |acc|);
      var batch := Collect(db, prefix, queue, statuses[0], ids, query, matches).value;
      CountCollect(db, prefix, queue, statuses[0], ids, query, matches, id);
      FirstIdsCount(all, limit - |acc|, id);
      CountConcat(acc, batch, id);
      CountWindowed(db, prefix, queue, statuses[1..], limit, query, matches, acc + batch, id);
    }
  }

  /** A listing that succeeds shows no id more often than the structures hold it, even where job keys are not hashes. */
  lemma ListedAtMostHeld(db: Keyspace, prefix: string, queue: string, filter: Filter, matches: Matcher, id: string)
    requires Typed(db, prefix, queue)
    ensures var r := Windowed(db, prefix, queue, StatusesFor(filter.status), NormalizeLimit(filter.limit),
                              filter.query, matches, []);
            r.Ok? ==> CountId(r.value, id) <= View(db, prefix, queue).Occurrences(id)
  {
    var statuses, limit := StatusesFor(filter.status), NormalizeLimit(filter.limit);
    HeldAtMost(View(db, prefix, queue), filter.status, id);
    hide View, Typed, Windowed, CountHeld, StatusesFor, Queue.Occurrences, NormalizeLimit;
    assert CountId([], id) == 0;
    if Windowed(db, prefix, queue, statuses, limit, filter.query, matches, []).Ok? {
      CountWindowed(db, prefix, queue, statuses, limit, filter.query, matches, [], id);
    }
  }

  /**
   * ListMessages on a keyspace that stands still: a subsequence of the live, matching messages in which no
   * id occurs more often than in the structures, so once at most wherever the protocol's uniqueness holds.
   */
  lemma ListingMeansView(db: Keyspace, prefix: string, queue: string, filter: Filter, matches: Matcher)
    returns (ms: seq<Message>)
    requires Sound(db, prefix, queue)
    ensures Windowed(db, prefix, queue, StatusesFor(filter.status), NormalizeLimit(filter.limit), filter.query,
                     matches, []) == Ok(ms)
    ensures var q := View(db, prefix, queue);
            var all := Everything(q, queue, StatusesFor(filter.status), filter.query, matches);
            && Subsequence(ms, all)
            && (TotalIds(q, StatusesFor(filter.status)) <= NormalizeLimit(filter.limit) ==> ms == all)
            && (filter.query == "" && NoDangling(q) ==> ms == Take(all, NormalizeLimit(filter.limit)))
            && forall id :: CountId(ms, id) <= q.Occurrences(id)
  {
    var q := View(db, prefix, queue);
    var statuses, limit := StatusesFor(filter.status), NormalizeLimit(filter.limit);
    hide Sound, View, Windowed, Window, Everything, TotalIds, Take, NoDangling, Subsequence, CountId, StatusesFor,
         Queue.Occurrences, NormalizeLimit;
    WindowedIsWindow(db, prefix, queue, statuses, limit, filter.query, matches, []);
    ms := WindowIsSubsequence(q, queue, statuses, limit, filter.query, matches, []);
    assert [] + ms == ms;
    var all := Everything(q, queue, statuses, filter.query, matches);
    assert [] + all == all && [] + Take(all, limit) == Take(all, limit);
    if TotalIds(q, statuses) <= limit { WindowIsComplete(q, queue, statuses, limit, filter.query, matches, []); }
    if filter.query == "" && NoDangling(q) { WindowIsTake(q, queue, statuses, limit, matches, []); }
    forall id ensures CountId(ms, id) <= q.Occurrences(id) {
      CountSubsequence(ms, all, id);
      CountEverything(q, queue, statuses, filter.query, matches, id);
      HeldAtMost(q, filter.status, id);
    }
  }

  // ---- a listing of one status, spelled out ----

  /** What is shown of a job. */
  function Shown(q: Queue, queue: string, status: string, id: string): Message
    requires id in q.jobs
  {
    var h := q.jobs[id];
    Message(id, queue, status, h, if status == "failed" && "finishedOn" in h then h["finishedOn"] else "",
            if "failedReason" in h then h["failedReason"] else "")
  }

  lemma ShownIs(q: Queue, queue: string, status: string, id: string)
    requires id in q.jobs
    ensures Shown(q, queue, status, id) == ToMessage(queue, id, status, q.jobs[id])
  {}

  /** The message is that of a live job and matches the query. */
  predicate Shows(q: Queue, queue: string, status: string, query: string, matches: Matcher, id: string, m: Message) {
    id in q.jobs && m == Shown(q, queue, status, id) && Passes(m, query, matches)
  }

  predicate Passes(m: Message, query: string, matches: Matcher) { query != "" ==> matches(m, query) }

  lemma {:induction false} LiveIff(q: Queue, queue: string, status: string, ids: seq<string>, query: string,
                                   matches: Matcher, m: Message)
    ensures m in Live(q, queue, status, ids, query, matches)
            <==> exists id :: id in ids && Shows(q, queue, status, query, matches, id, m)
    decreases |ids|
  {
    if ids != [] {
      LiveIff(q, queue, status, ids[1..], query, matches, m);
      ShowsFirst(q, queue, status, ids, query, matches, m);
      hide Shows, Live;
      if id :| id in ids && Shows(q, queue, status, query, matches, id, m) { assert id == ids[0] || id in ids[1..]; }
      assert forall id :: id in ids[1..] ==> id in ids;
    }
  }

  lemma ShowsFirst(q: Queue, queue: string, status: string, ids: seq<string>, query: string, matches: Matcher,
                   m: Message)
    requires ids != []
    ensures m in Live(q, queue, status, ids, query, matches)
            <==> || Shows(q, queue, status, query, matches, ids[0], m)
                 || m in Live(q, queue, status, ids[1..], query, matches)
  {
    if ids[0] in q.jobs { ShownIs(q, queue, status, ids[0]); }
    PassesIs(m, query, matches);
    hide Shown, ToMessage, Passes, Keeps;
  }

  lemma PassesIs(m: Message, query: string, matches: Matcher)
    ensures Keeps(m, query, matches) <==> Passes(m, query, matches)
  {}

  lemma {:induction false} LiveInOrder(q: Queue, queue: string, status: string, ids: seq<string>, matches: Matcher)
    requires forall id :: id in ids ==> id in q.jobs
    ensures var all := Live(q, queue, status, ids, "", matches);
            |all| == |ids| && forall i :: 0 <= i < |ids| ==> all[i] == Shown(q, queue, status, ids[i])
    decreases |ids|
  {
    if ids != [] {
      LiveInOrder(q, queue, status, ids[1..], matches);
      ShownIs(q, queue, status, ids[0]);
      hide Shown, ToMessage;
    }
  }

  /** The ids behind a status: a list from its head, a sorted set from its last rank. */
  predicate Listed(q: Queue, status: string, ids: seq<string>) {
    && (status == "waiting" ==> ids == q.wait)
    && (status == "active" ==> ids == q.active)
    && (status == "delayed" ==> Backwards(ids, q.delayed))
    && (status == "failed" ==> Backwards(ids, q.failed))
    && (status == "completed" ==> Backwards(ids, q.completed))
  }

  predicate Backwards(ids: seq<string>, ranks: seq<string>) {
    |ids| == |ranks| && forall i :: 0 <= i < |ids| ==> ids[i] == ranks[|ranks| - 1 - i]
  }

  /**
   * A listing of one of the five statuses, on a keyspace that stands still: without query and dangling ids it is the
   * first messages of that status; if the limit allows all of them, exactly those that are live and match.
   */
  lemma NamedListing(db: Keyspace, prefix: string, queue: string, filter: Filter, matches: Matcher)
    returns (ms: seq<Message>, ids: seq<string>)
    requires Sound(db, prefix, queue) && filter.status in {"waiting", "active", "delayed", "failed", "completed"}
    ensures Windowed(db, prefix, queue, StatusesFor(filter.status), NormalizeLimit(filter.limit), filter.query,
                     matches, []) == Ok(ms)
    ensures var q := View(db, prefix, queue);
            var limit := if filter.limit <= 0 then 50 else if filter.limit > 200 then 200 else filter.limit;
            && Listed(q, filter.status, ids)
            && (filter.query == "" && NoDangling(q) ==>
                  && |ms| == (if limit <= |ids| then limit else |ids|)
                  && forall i :: 0 <= i < |ms| ==> ids[i] in q.jobs && ms[i] == Shown(q, queue, filter.status, ids[i]))
            && (|ids| <= limit ==>
                  forall m :: m in ms <==>
                    exists id :: id in ids && Shows(q, queue, filter.status, filter.query, matches, id, m))
  {
    ms := ListingMeansView(db, prefix, queue, filter, matches);
    hide Sound, View, Windowed, Everything, Live, Shown, Shows, CountId, Subsequence, Listed, StatusIds, TotalIds,
         NoDangling;
    var q, status := View(db, prefix, queue), filter.status;
    ids := StatusIds(q, status);
    OneStatus(q, queue, status, filter.query, matches);
    if filter.query == "" && NoDangling(q) { NamedTake(q, queue, status, matches, NormalizeLimit(filter.limit), ms); }
    if |ids| <= NormalizeLimit(filter.limit) { NamedAll(q, queue, status, filter.query, matches, ms); }
  }

  lemma NamedTake(q: Queue, queue: string, status: string, matches: Matcher, limit: nat, ms: seq<Message>)
    requires NoDangling(q) && ms == Take(Live(q, queue, status, StatusIds(q, status), "", matches), limit)
    ensures var ids := StatusIds(q, status);
            && |ms| == (if limit <= |ids| then limit else |ids|)
            && forall i :: 0 <= i < |ms| ==> ids[i] in q.jobs && ms[i] == Shown(q, queue, status, ids[i])
  {
    var ids := StatusIds(q, status);
    forall id | id in ids ensures id in q.jobs { var p := StatusIdsHeld(q, status, id); }
    LiveInOrder(q, queue, status, ids, matches);
    hide Live, Shown, StatusIds;
  }

  lemma NamedAll(q: Queue, queue: string, status: string, query: string, matches: Matcher, ms: seq<Message>)
    requires ms == Live(q, queue, status, StatusIds(q, status), query, matches)
    ensures forall m :: m in ms <==>
              exists id :: id in StatusIds(q, status) && Shows(q, queue, status, query, matches, id, m)
  {
    hide Live, Shows, StatusIds;
    forall m ensures m in ms <==>
                       exists id :: id in StatusIds(q, status) && Shows(q, queue, status, query, matches, id, m)
    {
      LiveIff(q, queue, status, StatusIds(q, status), query, matches, m);
    }
  }

  lemma OneStatus(q: Queue, queue: string, status: string, query: string, matches: Matcher)
    requires status in {"waiting", "active", "delayed", "failed", "completed"}
    ensures Listed(q, status, StatusIds(q, status))
    ensures Everything(q, queue, StatusesFor(status), query, matches)
            == Live(q, queue, status, StatusIds(q, status), query, matches)
    ensures TotalIds(q, StatusesFor(status)) == |StatusIds(q, status)|
  {
    hide Live;
    assert StatusesFor(status) == [status];
    EverythingCons(q, queue, status, [], query, matches);
    assert Everything(q, queue, [], query, matches) == [];
    assert [status][1..] == [] && TotalIds(q, []) == 0;
  }
}
