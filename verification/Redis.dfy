/**
 * The Redis commands the adapter sends, by their documented effect on a keyspace. A command on a
 * key that holds another type is refused and changes nothing; a list, sorted set or hash that
 * becomes empty disappears together with its key.
 */
module Redis {
  import opened Text

  datatype ZEntry = ZEntry(member: string, score: int)

  datatype Value =
    | ListV(items: seq<string>)
    | ZSetV(entries: seq<ZEntry>)               // in rank order
    | HashV(fields: map<string, string>)
    | StreamV(records: seq<map<string, string>>)
    | OtherV

  type Keyspace = map<string, Value>

  /** Everything but `member`, in the same order. */
  function Without(s: seq<string>, member: string): (r: seq<string>)
    ensures member !in r
  {
    if s == [] then []
    else if s[0] == member then Without(s[1..], member)
    else [s[0]] + Without(s[1..], member)
  }

  lemma {:induction false} WithoutCount(s: seq<string>, member: string, x: string)
    ensures multiset(Without(s, member))[x] == if x == member then 0 else multiset(s)[x]
  {
    if s != [] {
      WithoutCount(s[1..], member, x);
      assert s == [s[0]] + s[1..];
    }
  }

  lemma {:induction false} WithoutConcat(a: seq<string>, b: seq<string>, member: string)
    ensures Without(a + b, member) == Without(a, member) + Without(b, member)
  {
    if a == [] {
      assert a + b == b;
    } else {
      assert (a + b)[1..] == a[1..] + b;
      WithoutConcat(a[1..], b, member);
    }
  }

  lemma {:induction false} WithoutAbsent(s: seq<string>, member: string)
    requires member !in s
    ensures Without(s, member) == s
  {
    if s != [] {
      WithoutAbsent(s[1..], member);
    }
  }

  lemma {:induction false} WithoutLength(s: seq<string>, member: string)
    ensures |Without(s, member)| + multiset(s)[member] == |s|
  {
    if s != [] {
      WithoutLength(s[1..], member);
      assert s == [s[0]] + s[1..];
    }
  }

  /** The members of a sorted set in rank order. */
  function Members(entries: seq<ZEntry>): (members: seq<string>)
    ensures |members| == |entries|
  {
    if entries == [] then [] else [entries[0].member] + Members(entries[1..])
  }

  function Drop(entries: seq<ZEntry>, member: string): seq<ZEntry> {
    if entries == [] then []
    else if entries[0].member == member then Drop(entries[1..], member)
    else [entries[0]] + Drop(entries[1..], member)
  }

  lemma {:induction false} DropMembers(entries: seq<ZEntry>, member: string)
    ensures Members(Drop(entries, member)) == Without(Members(entries), member)
  {
    if entries != [] {
      DropMembers(entries[1..], member);
      assert Members(entries)[1..] == Members(entries[1..]);
      if entries[0].member != member {
        assert ([entries[0]] + Drop(entries[1..], member))[1..] == Drop(entries[1..], member);
      }
    }
  }

  /** The order of members with equal scores. */
  predicate LexLess(a: string, b: string) {
    if b == "" then false
    else if a == "" then true
    else a[0] < b[0] || (a[0] == b[0] && LexLess(a[1..], b[1..]))
  }

  predicate Ranks(a: ZEntry, b: ZEntry) {
    a.score < b.score || (a.score == b.score && LexLess(a.member, b.member))
  }

  function Insert(entries: seq<ZEntry>, e: ZEntry): seq<ZEntry> {
    if entries == [] || Ranks(e, entries[0]) then [e] + entries
    else [entries[0]] + Insert(entries[1..], e)
  }

  lemma {:induction false} InsertMembers(entries: seq<ZEntry>, e: ZEntry)
    ensures multiset(Members(Insert(entries, e))) == multiset(Members(entries)) + multiset{e.member}
  {
    if entries == [] || Ranks(e, entries[0]) {
      assert ([e] + entries)[1..] == entries;
    } else {
      InsertMembers(entries[1..], e);
      assert ([entries[0]] + Insert(entries[1..], e))[1..] == Insert(entries[1..], e);
    }
  }

  lemma {:induction false} InsertKeepsOrder(entries: seq<ZEntry>, e: ZEntry)
    ensures Without(Members(Insert(entries, e)), e.member) == Without(Members(entries), e.member)
  {
    if entries == [] || Ranks(e, entries[0]) {
      assert ([e] + entries)[1..] == entries;
    } else {
      InsertKeepsOrder(entries[1..], e);
      assert ([entries[0]] + Insert(entries[1..], e))[1..] == Insert(entries[1..], e);
    }
  }

  /** ZADD: the member is there once, whether or not it was before, and the others are as they were, in their order. */
  lemma ZAddMembers(entries: seq<ZEntry>, e: ZEntry)
    ensures var after := Members(Insert(Drop(entries, e.member), e));
            && multiset(after) == multiset(Members(entries))[e.member := 1]
            && Without(after, e.member) == Without(Members(entries), e.member)
  {
    hide Insert, Drop, Members, Without;
    DropMembers(entries, e.member);
    InsertMembers(Drop(entries, e.member), e);
    InsertKeepsOrder(Drop(entries, e.member), e);
    WithoutAbsent(Without(Members(entries), e.member), e.member);
    forall m ensures multiset(Without(Members(entries), e.member))[m] + multiset{e.member}[m]
                     == multiset(Members(entries))[e.member := 1][m] {
      WithoutCount(Members(entries), e.member, m);
    }
  }

  lemma {:induction false} DropEntries(entries: seq<ZEntry>, member: string, x: ZEntry)
    ensures x in Drop(entries, member) <==> x in entries && x.member != member
  {
    if entries != [] { DropEntries(entries[1..], member, x); }
  }

  lemma {:induction false} InsertEntries(entries: seq<ZEntry>, e: ZEntry, x: ZEntry)
    ensures x in Insert(entries, e) <==> x in entries || x == e
  {
    if entries != [] && !Ranks(e, entries[0]) { InsertEntries(entries[1..], e, x); }
  }

  /** ZADD gives the member its score and leaves every other member its own. */
  lemma ZAddEntries(entries: seq<ZEntry>, e: ZEntry, x: ZEntry)
    ensures x in Insert(Drop(entries, e.member), e) <==> x == e || (x in entries && x.member != e.member)
  {
    DropEntries(entries, e.member, x);
    InsertEntries(Drop(entries, e.member), e, x);
  }

  /** One text comes before another: it is a proper beginning of it, or smaller at the first difference. */
  predicate Precedes(a: string, b: string) {
    exists k :: 0 <= k <= |a| && PrecedesAt(a, b, k)
  }

  predicate PrecedesAt(a: string, b: string, k: nat)
    requires k <= |a|
  {
    k < |b| && a[..k] == b[..k] && (k == |a| || a[k] < b[k])
  }

  lemma {:induction false} LexLessIff(a: string, b: string)
    ensures LexLess(a, b) <==> Precedes(a, b)
  {
    if b == "" {
    } else if a == "" {
      assert PrecedesAt(a, b, 0);
    } else {
      LexLessIff(a[1..], b[1..]);
      if Precedes(a[1..], b[1..]) && a[0] == b[0] {
        var k :| 0 <= k <= |a[1..]| && PrecedesAt(a[1..], b[1..], k);
        assert a[..k + 1] == [a[0]] + a[1..][..k] && b[..k + 1] == [b[0]] + b[1..][..k];
        assert PrecedesAt(a, b, k + 1);
      }
      if a[0] < b[0] { assert PrecedesAt(a, b, 0); }
      if k :| 0 <= k <= |a| && PrecedesAt(a, b, k) {
        if k > 0 {
          assert a[0] == a[..k][0] == b[..k][0] == b[0];
          assert a[1..][..k - 1] == a[..k][1..] && b[1..][..k - 1] == b[..k][1..];
          assert PrecedesAt(a[1..], b[1..], k - 1);
        }
      }
    }
  }

  lemma {:induction false} LexTotal(a: string, b: string)
    ensures a == b || LexLess(a, b) || LexLess(b, a)
  {
    if a != "" && b != "" && a[0] == b[0] {
      LexTotal(a[1..], b[1..]);
      assert a == [a[0]] + a[1..] && b == [b[0]] + b[1..];
    }
  }

  lemma {:induction false} LexTransitive(a: string, b: string, c: string)
    requires LexLess(a, b) && LexLess(b, c)
    ensures LexLess(a, c)
  {
    if a != "" && a[0] == b[0] == c[0] { LexTransitive(a[1..], b[1..], c[1..]); }
  }

  /** By score, and by member where scores are equal. */
  predicate InRankOrder(entries: seq<ZEntry>) {
    forall i, j :: 0 <= i < j < |entries| ==>
      entries[i].score < entries[j].score
      || (entries[i].score == entries[j].score && Precedes(entries[i].member, entries[j].member))
  }

  lemma RanksIff(a: ZEntry, b: ZEntry)
    ensures Ranks(a, b) <==> a.score < b.score || (a.score == b.score && Precedes(a.member, b.member))
  {
    LexLessIff(a.member, b.member);
  }

  lemma {:induction false} DropKeepsRankOrder(entries: seq<ZEntry>, member: string)
    requires InRankOrder(entries)
    ensures InRankOrder(Drop(entries, member))
  {
    if entries != [] {
      hide Precedes;
      DropKeepsRankOrder(entries[1..], member);
      forall x ensures x in Drop(entries[1..], member) <==> x in entries[1..] && x.member != member {
        DropEntries(entries[1..], member, x);
      }
      forall j | 0 <= j < |Drop(entries[1..], member)| ensures Drop(entries[1..], member)[j] in entries[1..] {
        assert Drop(entries[1..], member)[j] in Drop(entries[1..], member);
      }
    }
  }

  lemma {:induction false} InsertKeepsRankOrder(entries: seq<ZEntry>, e: ZEntry)
    requires InRankOrder(entries) && forall x :: x in entries ==> x.member != e.member
    ensures InRankOrder(Insert(entries, e))
  {
    hide Precedes, LexLess;
    forall a: ZEntry, b: ZEntry ensures Ranks(a, b)
        <==> a.score < b.score || (a.score == b.score && Precedes(a.member, b.member)) {
      RanksIff(a, b);
    }
    if entries == [] {
    } else if Ranks(e, entries[0]) {
      forall j | 0 < j < |entries| && e.score == entries[0].score == entries[j].score
        ensures Precedes(e.member, entries[j].member)
      {
        LexLessIff(e.member, entries[0].member);
        LexLessIff(entries[0].member, entries[j].member);
        LexLessIff(e.member, entries[j].member);
        LexTransitive(e.member, entries[0].member, entries[j].member);
      }
    } else {
      InsertKeepsRankOrder(entries[1..], e);
      assert entries[0] in entries;
      LexTotal(e.member, entries[0].member);
      LexLessIff(e.member, entries[0].member);
      LexLessIff(entries[0].member, e.member);
      forall j | 0 <= j < |Insert(entries[1..], e)|
        ensures Insert(entries[1..], e)[j] == e || Insert(entries[1..], e)[j] in entries[1..]
      {
        InsertEntries(entries[1..], e, Insert(entries[1..], e)[j]);
      }
    }
  }

  /** A sorted set stays in rank order. */
  lemma ZAddKeepsRankOrder(entries: seq<ZEntry>, e: ZEntry)
    requires InRankOrder(entries)
    ensures InRankOrder(Insert(Drop(entries, e.member), e))
  {
    DropKeepsRankOrder(entries, e.member);
    forall x | x in Drop(entries, e.member) ensures x.member != e.member { DropEntries(entries, e.member, x); }
    InsertKeepsRankOrder(Drop(entries, e.member), e);
  }

  predicate Vacant(v: Value) {
    match v
    case ListV(items) => items == []
    case ZSetV(entries) => entries == []
    case HashV(fields) => fields == map[]
    case _ => false
  }

  function Put(db: Keyspace, key: string, v: Value): Keyspace {
    if Vacant(v) then db - {key} else db[key := v]
  }

  // The value at a key, `None` when it holds another type. An absent key reads as an empty one.

  function ListAt(db: Keyspace, key: string): Option<seq<string>> {
    if key !in db then Some([]) else if db[key].ListV? then Some(db[key].items) else None
  }

  function ZSetAt(db: Keyspace, key: string): Option<seq<ZEntry>> {
    if key !in db then Some([]) else if db[key].ZSetV? then Some(db[key].entries) else None
  }

  function HashAt(db: Keyspace, key: string): Option<map<string, string>> {
    if key !in db then Some(map[]) else if db[key].HashV? then Some(db[key].fields) else None
  }

  function StreamAt(db: Keyspace, key: string): Option<seq<map<string, string>>> {
    if key !in db then Some([]) else if db[key].StreamV? then Some(db[key].records) else None
  }

  /** The commands that write. */
  datatype Command =
    | HDel(key: string, names: set<string>)
    | LPush(key: string, member: string)
    | LRem(key: string, member: string)           // count 0: every occurrence
    | ZRem(key: string, member: string)
    | ZAdd(key: string, score: int, member: string)
    | XAdd(key: string, record: map<string, string>)
    | Del(keys: set<string>)

  function Touched(c: Command): set<string> {
    if c.Del? then c.keys else {c.key}
  }

  /** The keyspace after one command, `None` when it is refused. */
  function Apply(db: Keyspace, c: Command): Option<Keyspace> {
    match c
    case HDel(key, names) =>
      (match HashAt(db, key) case None => None case Some(h) => Some(Put(db, key, HashV(h - names))))
    case LPush(key, member) =>
      (match ListAt(db, key) case None => None case Some(l) => Some(Put(db, key, ListV([member] + l))))
    case LRem(key, member) =>
      (match ListAt(db, key) case None => None case Some(l) => Some(Put(db, key, ListV(Without(l, member)))))
    case ZRem(key, member) =>
      (match ZSetAt(db, key) case None => None case Some(z) => Some(Put(db, key, ZSetV(Drop(z, member)))))
    case ZAdd(key, score, member) =>
      (match ZSetAt(db, key)
       case None => None
       case Some(z) => Some(Put(db, key, ZSetV(Insert(Drop(z, member), ZEntry(member, score))))))
    case XAdd(key, record) =>
      (match StreamAt(db, key) case None => None case Some(s) => Some(Put(db, key, StreamV(s + [record]))))
    case Del(keys) => Some(db - keys)
  }

  /** The outcome of MULTI/EXEC: every command runs, a refused one is reported and skipped. */
  datatype Executed = Executed(db: Keyspace, clean: bool)

  function Exec(db: Keyspace, commands: seq<Command>): Executed
    decreases |commands|
  {
    if commands == [] then Executed(db, true)
    else
      match Apply(db, commands[0])
      case None => Exec(db, commands[1..]).(clean := false)
      case Some(db') => Exec(db', commands[1..])
  }

  ghost predicate SameAt(a: Keyspace, b: Keyspace, key: string) {
    (key in a <==> key in b) && (key in a ==> a[key] == b[key])
  }

  /** A transaction leaves every key alone that none of its commands names. */
  lemma {:induction false} ExecFrame(db: Keyspace, commands: seq<Command>, key: string)
    requires forall c :: c in commands ==> key !in Touched(c)
    ensures SameAt(db, Exec(db, commands).db, key)
    decreases |commands|
  {
    if commands != [] {
      assert commands[0] in commands;
      match Apply(db, commands[0])
      case None => ExecFrame(db, commands[1..], key);
      case Some(db') => ExecFrame(db', commands[1..], key);
    }
  }

  /** LRANGE: indices below zero count from the end, so a stop of -1 means everything. */
  function LRange(items: seq<string>, start: int, stop: int): seq<string> {
    var n := |items|;
    var from := if start < 0 then (if start + n < 0 then 0 else start + n) else start;
    var to := if stop < 0 then stop + n else if stop >= n then n - 1 else stop;
    if from > to || from >= n then [] else items[from..to + 1]
  }

  function Reverse(s: seq<string>): (r: seq<string>)
    ensures |r| == |s|
    ensures forall i :: 0 <= i < |s| ==> r[i] == s[|s| - 1 - i]
    ensures multiset(r) == multiset(s)
  {
    if s == [] then []
    else
      assert s == [s[0]] + s[1..];
      Reverse(s[1..]) + [s[0]]
  }

  function ZRevRange(entries: seq<ZEntry>, start: int, stop: int): seq<string> {
    LRange(Reverse(Members(entries)), start, stop)
  }
}
