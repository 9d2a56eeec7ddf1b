/** The tables behind the server: connections, and the audit log in order of insertion. */
module Store {
  import opened Text
  import Config

  const READ_ONLY := "read_only"
  const OPERATOR := "operator"

  datatype Connection = Connection(id: string, name: string, provider: string, mode: string, config: Config.Settings)

  const SUCCESS := "success"
  const FAILURE := "failure"

  const RETRY := "retry_message"
  const DELETE := "delete_message"

  type AuditAction = a: string | a == RETRY || a == DELETE witness RETRY

  datatype Entry = Entry(actorId: string, actorEmail: string, action: AuditAction, result: string, provider: string,
                         connectionId: string, queueName: string, messageId: string, error: string)

  const CONNECTION_NOT_FOUND := "connection not found"
  /** Stands for whatever the database reports. */
  const DATABASE_ERROR := "database error"

  function Newest(audit: seq<Entry>, limit: nat): (entries: seq<Entry>)
    ensures |entries| == if |audit| <= limit then |audit| else limit
    ensures forall i :: 0 <= i < |entries| ==> entries[i] == audit[|audit| - 1 - i]
  {
    seq(if |audit| <= limit then |audit| else limit, i requires 0 <= i < |audit| => audit[|audit| - 1 - i])
  }

  /** `up` says whether the statement reaches the database; a statement that fails changes nothing. */
  class ConnectionStore {
    var connections: map<string, Connection>
    var audit: seq<Entry>

    constructor ()
      ensures connections == map[] && audit == []
    {
      connections, audit := map[], [];
    }

    method Create(connection: Connection, newId: string, up: bool) returns (r: Result<Connection>)
      modifies this`connections
      ensures r == if up && newId !in old(connections) then Ok(connection.(id := newId)) else Err(DATABASE_ERROR)
      ensures connections == if r.Ok? then old(connections)[newId := connection.(id := newId)] else old(connections)
    {
      if !up || newId in connections { return Err(DATABASE_ERROR); }
      var stored := connection.(id := newId);
      connections := connections[newId := stored];
      return Ok(stored);
    }

    method Get(id: string, up: bool) returns (r: Result<Connection>)
      ensures r == if !up then Err(DATABASE_ERROR) else if id in connections then Ok(connections[id])
                   else Err(CONNECTION_NOT_FOUND)
    {
      if !up { return Err(DATABASE_ERROR); }
      if id !in connections { return Err(CONNECTION_NOT_FOUND); }
      return Ok(connections[id]);
    }

    method Delete(id: string, up: bool) returns (r: Result<()>)
      modifies this`connections
      ensures r == if !up then Err(DATABASE_ERROR) else if id in old(connections) then Ok(())
                   else Err(CONNECTION_NOT_FOUND)
      ensures connections == if up then old(connections) - {id} else old(connections)
    {
      if !up { return Err(DATABASE_ERROR); }
      if id !in connections { return Err(CONNECTION_NOT_FOUND); }
      connections := connections - {id};
      return Ok(());
    }

    method CreateAuditEntry(entry: Entry, up: bool) returns (r: Result<()>)
      modifies this`audit
      ensures r == if up then Ok(()) else Err(DATABASE_ERROR)
      ensures audit == if up then old(audit) + [entry] else old(audit)
    {
      if !up { return Err(DATABASE_ERROR); }
      audit := audit + [entry];
      return Ok(());
    }

    /**
     * `selected` are the rows that `ORDER BY created_at DESC LIMIT n` returned, and `at` the times at which the
     * database recorded the rows: possibly out of order, or at the same time.
     */
    method ListAuditEntries(limit: int, at: nat -> int, selected: seq<nat>, up: bool) returns (r: Result<seq<Entry>>)
      requires up ==> Latest(|audit|, at, AuditLimit(limit), selected)
      ensures !up ==> r == Err(DATABASE_ERROR)
      ensures up ==> r.Ok? && |r.value| == |selected|
      ensures up ==> forall i :: 0 <= i < |selected| ==> r.value[i] == audit[selected[i]]
      ensures up && InOrder(at) ==> r == Ok(Newest(audit, AuditLimit(limit)))
    {
      if !up { return Err(DATABASE_ERROR); }
      var entries: seq<Entry> := [];
      while |entries| < |selected|
        invariant |entries| <= |selected|
        invariant forall i :: 0 <= i < |entries| ==> entries[i] == audit[selected[i]]
      {
        entries := entries + [audit[selected[|entries|]]];
      }
      if InOrder(at) {
        LatestInOrder(|audit|, at, AuditLimit(limit), selected);
        assert entries == Newest(audit, AuditLimit(limit));
      }
      return Ok(entries);
    }
  }

  function AuditLimit(limit: int): (n: nat)
    ensures 1 <= limit <= 200 ==> n == limit
    ensures limit < 1 || limit > 200 ==> n == 100
  {
    if limit <= 0 || limit > 200 then 100 else limit
  }

  /** As many of the rows as the limit allows, none twice, the later first, and none left out that is later. */
  predicate Latest(total: nat, at: nat -> int, limit: nat, rows: seq<nat>) {
    && |rows| == (if total <= limit then total else limit)
    && (forall i :: 0 <= i < |rows| ==> rows[i] < total)
    && (forall i, j :: 0 <= i < j < |rows| ==> rows[i] != rows[j] && at(rows[i]) >= at(rows[j]))
    && (forall k, i :: 0 <= k < total && k !in rows && 0 <= i < |rows| ==> at(rows[i]) >= at(k))
  }

  ghost predicate InOrder(at: nat -> int) { forall i: nat, j: nat :: i < j ==> at(i) < at(j) }

  /** If rows are recorded one after the other, the latest are the last inserted. */
  lemma LatestInOrder(total: nat, at: nat -> int, limit: nat, rows: seq<nat>)
    requires Latest(total, at, limit, rows) && InOrder(at)
    ensures forall i :: 0 <= i < |rows| ==> rows[i] == total - 1 - i
  {
    LatestPrefix(total, at, limit, rows, |rows|);
  }

  lemma {:induction false} LatestPrefix(total: nat, at: nat -> int, limit: nat, rows: seq<nat>, n: nat)
    requires Latest(total, at, limit, rows) && InOrder(at) && n <= |rows|
    ensures forall i :: 0 <= i < n ==> rows[i] == total - 1 - i
    decreases n
  {
    if n > 0 {
      LatestPrefix(total, at, limit, rows, n - 1);
      NextLatest(total, at, limit, rows, n - 1);
    }
  }

  lemma NextLatest(total: nat, at: nat -> int, limit: nat, rows: seq<nat>, n: nat)
    requires Latest(total, at, limit, rows) && InOrder(at) && n < |rows|
    requires forall i :: 0 <= i < n ==> rows[i] == total - 1 - i
    ensures rows[n] == total - 1 - n
  {
    var r, k: nat := rows[n], total - 1 - n;
    var j := if total - 1 - r < n then total - 1 - r else n;
    var x := rows[j];
    assert at(r) >= at(k) by {
      forall j | 0 <= j < |rows| && rows[j] == k ensures at(r) >= at(k) { assert j >= n; }
    }
  }
}
