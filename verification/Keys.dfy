/**
 * The names under which the BullMQ adapter stores a queue in Redis. State keys and job keys share
 * one format, so everything that keeps queues and jobs apart rests on where colons may occur.
 */
module Keys {
  import opened Text

  /** `queueKey` and `jobKey`: the same printer. */
  function Key(prefix: string, queue: string, suffix: string): string {
    prefix + ":" + queue + ":" + suffix
  }

  /** What every key of a queue starts with. */
  function Stem(prefix: string, queue: string): string { prefix + ":" + queue + ":" }

  predicate ColonFree(s: string) { ':' !in s }

  /** The suffixes of the keys that hold a queue's state. */
  const STATE_SUFFIXES := {"wait", "active", "paused", "delayed", "failed", "completed", "prioritized",
                           "marker", "events", "meta"}

  predicate KnownQueueSuffix(s: string) {
    s in {"wait", "active", "paused", "delayed", "failed", "completed", "prioritized", "events", "marker"}
  }

  const SUB_SUFFIXES := {":logs", ":dependencies", ":processed", ":failed", ":unsuccessful"}

  /** The suffix of a key that belongs to some job, next to its hash. */
  predicate IsSubKey(s: string) { exists sub :: sub in SUB_SUFFIXES && HasSuffix(s, sub) }

  /** An id that can only name a job: not the suffix of a state key, nor of a job's sub-key. It may contain colons. */
  predicate PlainId(id: string) { id !in STATE_SUFFIXES && !IsSubKey(id) }

  lemma SubKeyHasColon(s: string)
    ensures IsSubKey(s) ==> !ColonFree(s)
  {
    if IsSubKey(s) {
      var sub :| sub in SUB_SUFFIXES && HasSuffix(s, sub);
      assert s[|s| - |sub|] == ':';
    }
  }

  lemma SubKeyOfJob(id: string, sub: string)
    requires sub in SUB_SUFFIXES
    ensures IsSubKey(id + sub)
  {
    assert HasSuffix(id + sub, sub);
  }

  /** The keys DeleteMessage removes along with the job. */
  function DeletedKeys(prefix: string, queue: string, id: string): set<string> {
    var key := Key(prefix, queue, id);
    {key, key + ":logs", key + ":dependencies", key + ":processed", key + ":failed", key + ":unsuccessful"}
  }

  lemma KeyIsStem(prefix: string, queue: string, suffix: string)
    ensures Key(prefix, queue, suffix) == Stem(prefix, queue) + suffix
    ensures Stem(prefix, queue) <= Key(prefix, queue, suffix)
    ensures Key(prefix, queue, suffix)[|Stem(prefix, queue)|..] == suffix
  {}

  /** Within a queue, a key is determined by its suffix, whatever the names contain. */
  lemma SuffixInjective(prefix: string, queue: string, s1: string, s2: string)
    ensures Key(prefix, queue, s1) == Key(prefix, queue, s2) <==> s1 == s2
  {
    KeyIsStem(prefix, queue, s1);
    KeyIsStem(prefix, queue, s2);
  }

  lemma KeyTail(prefix: string, queue: string, suffix: string)
    ensures |Key(prefix, queue, suffix)| >= |prefix| + 1
    ensures Key(prefix, queue, suffix)[..|prefix| + 1] == prefix + ":"
    ensures Key(prefix, queue, suffix)[|prefix| + 1..] == queue + ":" + suffix
  {}

  /** Colon-free queue names make the printer injective in queue and suffix, whatever the suffix contains. */
  lemma KeyInjective(prefix: string, q1: string, s1: string, q2: string, s2: string)
    requires ColonFree(q1) && ColonFree(q2)
    ensures Key(prefix, q1, s1) == Key(prefix, q2, s2) <==> q1 == q2 && s1 == s2
  {
    if Key(prefix, q1, s1) == Key(prefix, q2, s2) {
      KeyTail(prefix, q1, s1);
      KeyTail(prefix, q2, s2);
      CutAtFirst(q1, s1, ':');
      CutAtFirst(q2, s2, ':');
    }
  }

  /** Neither queue is the other, nor nested in it: no name continues the other one after a colon. */
  predicate Apart(q1: string, q2: string) { q1 != q2 && !(q1 + ":" <= q2) && !(q2 + ":" <= q1) }

  lemma ColonFreeApart(q1: string, q2: string)
    requires ColonFree(q1) && ColonFree(q2) && q1 != q2
    ensures Apart(q1, q2)
  {
    NestedHasColon(q1, q2);
    NestedHasColon(q2, q1);
  }

  lemma NestedHasColon(outer: string, inner: string)
    ensures outer + ":" <= inner ==> !ColonFree(inner)
  {
    if outer + ":" <= inner { assert inner[|outer|] == ':'; }
  }

  /** Exactly when two queues have no key in common. */
  lemma ApartIff(prefix: string, q1: string, q2: string)
    ensures Apart(q1, q2) <==> forall s1, s2 :: Key(prefix, q1, s1) != Key(prefix, q2, s2)
  {
    forall s1, s2 | Key(prefix, q1, s1) == Key(prefix, q2, s2) ensures !Apart(q1, q2) {
      KeyTail(prefix, q1, s1);
      KeyTail(prefix, q2, s2);
      CommonStart(q1, s1, q2, s2);
    }
    if q1 == q2 {
      assert Key(prefix, q1, "") == Key(prefix, q2, "");
    } else if q1 + ":" <= q2 {
      NestedKey(prefix, q1, q2);
    } else if q2 + ":" <= q1 {
      NestedKey(prefix, q2, q1);
    }
  }

  lemma CommonStart(q1: string, s1: string, q2: string, s2: string)
    requires q1 + ":" + s1 == q2 + ":" + s2
    ensures !Apart(q1, q2)
  {
    var whole := q1 + ":" + s1;
    assert whole[..|q1| + 1] == q1 + ":" && whole[..|q1|] == q1;
    assert whole[..|q2| + 1] == q2 + ":" && whole[..|q2|] == q2;
    if |q1| < |q2| {
      assert q1 + ":" == whole[..|q2|][..|q1| + 1];
    } else if |q2| < |q1| {
      assert q2 + ":" == whole[..|q1|][..|q2| + 1];
    }
  }

  lemma NestedKey(prefix: string, outer: string, inner: string)
    requires outer + ":" <= inner
    ensures Key(prefix, outer, inner[|outer| + 1..] + ":") == Key(prefix, inner, "")
  {
    assert inner == outer + ":" + inner[|outer| + 1..];
  }

  /** Exactly when another queue can own the same key: a colon in the queue name or in the suffix. */
  lemma CollidesIff(prefix: string, queue: string, suffix: string)
    ensures (exists q, s :: q != queue && Key(prefix, q, s) == Key(prefix, queue, suffix))
            <==> !ColonFree(queue) || !ColonFree(suffix)
  {
    if ':' in queue {
      var c := Cut(queue, ':');
      assert Key(prefix, c.before, c.after + ":" + suffix) == Key(prefix, queue, suffix) by {
        KeyTail(prefix, queue, suffix);
        KeyTail(prefix, c.before, c.after + ":" + suffix);
        assert queue + ":" + suffix == c.before + ":" + (c.after + ":" + suffix);
        assert Key(prefix, queue, suffix) == (prefix + ":") + (queue + ":" + suffix);
        assert Key(prefix, c.before, c.after + ":" + suffix) == (prefix + ":") + (queue + ":" + suffix);
      }
    } else if ':' in suffix {
      var c := Cut(suffix, ':');
      assert Key(prefix, queue + ":" + c.before, c.after) == Key(prefix, queue, suffix);
      assert |queue + ":" + c.before| > |queue|;
    } else {
      forall q, s | q != queue ensures Key(prefix, q, s) != Key(prefix, queue, suffix) {
        KeyTail(prefix, q, s);
        KeyTail(prefix, queue, suffix);
        if q + ":" + s == queue + ":" + suffix { OneColon(q, s, queue, suffix); }
      }
    }
  }

  lemma OneColon(q: string, s: string, queue: string, suffix: string)
    requires q + ":" + s == queue + ":" + suffix
    requires ColonFree(queue) && ColonFree(suffix)
    ensures q == queue
  {
    var whole := queue + ":" + suffix;
    assert whole[|q|] == ':';
    assert forall i :: 0 <= i < |whole| && whole[i] == ':' ==> i == |queue|;
    assert q == whole[..|q|] && queue == whole[..|queue|];
  }

  /** A delete hits a state key exactly when the message id is that key's suffix. */
  lemma DeleteHitsStateKeyIff(prefix: string, queue: string, id: string, other: string, suffix: string)
    requires (other == queue || Apart(other, queue)) && suffix in STATE_SUFFIXES
    ensures Key(prefix, other, suffix) in DeletedKeys(prefix, queue, id) <==> other == queue && id == suffix
  {
    SubKeyHasColon(suffix);
    if other == queue {
      SparesOthers(prefix, queue, id, suffix);
    } else {
      SparesApart(prefix, queue, id, other, suffix);
    }
  }

  /** Among the queue's suffixes that are not a job's sub-key, a delete hits its own id only. */
  lemma SparesOthers(prefix: string, queue: string, id: string, s: string)
    requires !IsSubKey(s)
    ensures Key(prefix, queue, s) in DeletedKeys(prefix, queue, id) <==> s == id
  {
    DeletedKeysAre(prefix, queue, id);
    SuffixInjective(prefix, queue, s, id);
    forall sub | sub in SUB_SUFFIXES ensures Key(prefix, queue, s) != Key(prefix, queue, id + sub) {
      SuffixInjective(prefix, queue, s, id + sub);
      SubKeyOfJob(id, sub);
    }
  }

  lemma SparesApart(prefix: string, queue: string, id: string, other: string, s: string)
    requires Apart(other, queue)
    ensures Key(prefix, other, s) !in DeletedKeys(prefix, queue, id)
  {
    hide Key;
    DeletedKeysAre(prefix, queue, id);
    ApartIff(prefix, other, queue);
  }

  /** A delete hits another key of the queue exactly when that key is one of the job's own sub-keys. */
  lemma DeleteHitsJobKeyIff(prefix: string, queue: string, id: string, other: string, job: string)
    requires other == queue || Apart(other, queue)
    ensures Key(prefix, other, job) in DeletedKeys(prefix, queue, id)
            <==> other == queue && job in {id, id + ":logs", id + ":dependencies", id + ":processed", id + ":failed",
                                           id + ":unsuccessful"}
  {
    assert SUB_SUFFIXES == {":logs", ":dependencies", ":processed", ":failed", ":unsuccessful"};
    if other == queue {
      DeletedKeysAre(prefix, queue, id);
      SuffixInjective(prefix, queue, job, id);
      forall sub | sub in SUB_SUFFIXES ensures Key(prefix, queue, job) == Key(prefix, queue, id + sub)
        <==> job == id + sub {
        SuffixInjective(prefix, queue, job, id + sub);
      }
    } else {
      SparesApart(prefix, queue, id, other, job);
    }
  }

  lemma DeletedKeysAre(prefix: string, queue: string, id: string)
    ensures DeletedKeys(prefix, queue, id)
            == {Key(prefix, queue, id)} + set sub | sub in SUB_SUFFIXES :: Key(prefix, queue, id + sub)
  {
    var key := Key(prefix, queue, id);
    forall sub: string ensures Key(prefix, queue, id + sub) == key + sub {
      assert Key(prefix, queue, id + sub) == key + sub;
    }
    var all := {key} + set sub | sub in SUB_SUFFIXES :: Key(prefix, queue, id + sub);
    forall k ensures k in DeletedKeys(prefix, queue, id) <==> k in all {
      if k in DeletedKeys(prefix, queue, id) && k != key {
        var sub :| sub in SUB_SUFFIXES && k == key + sub;
        assert k == Key(prefix, queue, id + sub);
      }
    }
  }

  /**
   * Why queue names must not be nested: deleting a job of queue `a` reaches into any queue whose name
   * starts with `a:`, through the job key and through the `:failed` sub-key.
   */
  lemma DeleteReachesNestedQueue(prefix: string, a: string, b: string, suffix: string)
    ensures Key(prefix, a + ":" + b, suffix) in DeletedKeys(prefix, a, b + ":" + suffix)
    ensures Key(prefix, a + ":" + b, "failed") in DeletedKeys(prefix, a, b)
  {
    assert Key(prefix, a + ":" + b, suffix) == Key(prefix, a, b + ":" + suffix);
    assert Key(prefix, a + ":" + b, "failed") == Key(prefix, a, b) + ":failed";
  }
}
