/** Signed session tokens and the table behind them. The MAC is an arbitrary function with nonempty results. */
module Sessions {
  import opened Text

  datatype User = User(id: string, email: string, role: string)

  /** Times are nanoseconds. */
  datatype Session = Session(id: string, user: User, expiresAt: int)

  const LIFETIME := 12 * 3600 * 1_000_000_000

  // ---- tokens ----

  function Sign(mac: string -> string, id: string): string { id + "." + mac(id) }

  function Verify(mac: string -> string, token: string): Option<string> {
    var c := Cut(token, '.');
    if !c.found || c.before == "" || c.after == "" then None
    else
      var expected := Cut(Sign(mac, c.before), '.');
      if expected.found && c.after == expected.after then Some(c.before) else None
  }

  predicate TokenId(id: string) { id != "" && '.' !in id }

  /** A token is accepted for an id exactly when it is the id, a dot and the id's MAC, which is what signing prints. */
  lemma VerifyIff(mac: string -> string, token: string, id: string)
    requires mac(id) != ""
    ensures Verify(mac, token) == Some(id) <==> id != "" && '.' !in id && token == id + "." + mac(id)
    ensures Sign(mac, id) == id + "." + mac(id)
  {
    var c := Cut(token, '.');
    if '.' !in id { CutAtFirst(id, mac(id), '.'); }
    if c.found { CutAtFirst(c.before, mac(c.before), '.'); }
  }

  lemma SignInjective(mac: string -> string, id1: string, id2: string)
    requires TokenId(id1) && TokenId(id2) && Sign(mac, id1) == Sign(mac, id2)
    ensures id1 == id2
  {
    CutAtFirst(id1, mac(id1), '.');
    CutAtFirst(id2, mac(id2), '.');
  }

  // ---- the manager ----

  function Lookup(mac: string -> string, sessions: map<string, Session>, token: string, now: int): Option<Session> {
    match Verify(mac, token)
    case None => None
    case Some(id) => if id !in sessions || now > sessions[id].expiresAt then None else Some(sessions[id])
  }

  function Dropped(mac: string -> string, sessions: map<string, Session>, token: string): map<string, Session> {
    match Verify(mac, token) case None => sessions case Some(id) => sessions - {id}
  }

  class Manager {
    const mac: string -> string
    var sessions: map<string, Session>

    constructor (mac: string -> string)
      ensures this.mac == mac && sessions == map[]
    {
      this.mac := mac;
      sessions := map[];
    }

    /** `randomId` is `None` when no randomness could be read. */
    method Create(user: User, randomId: Option<string>, now: int) returns (r: Result<(string, Session)>)
      modifies this
      ensures match randomId
              case None => r.Err? && sessions == old(sessions)
              case Some(id) =>
                && r == Ok((id + "." + mac(id), Session(id, user, now + 12 * 3600 * 1_000_000_000)))
                && sessions == old(sessions)[id := Session(id, user, now + 12 * 3600 * 1_000_000_000)]
    {
      if randomId.None? { return Err("could not create session id"); }
      var session := Session(randomId.value, user, now + LIFETIME);
      sessions := sessions[randomId.value := session];
      return Ok((Sign(mac, randomId.value), session));
    }

    method Get(token: string, now: int) returns (r: Option<Session>)
      ensures r == Lookup(mac, sessions, token, now)
    {
      var id := Verify(mac, token);
      if id.None? { return None; }
      if id.value !in sessions || now > sessions[id.value].expiresAt { return None; }
      return Some(sessions[id.value]);
    }

    method Delete(token: string)
      modifies this
      ensures sessions == Dropped(mac, old(sessions), token)
    {
      var id := Verify(mac, token);
      if id.None? { return; }
      sessions := sessions - {id.value};
    }
  }

  // ---- whole runs ----

  datatype Event = Created(id: string, user: User, at: int) | Deleted(token: string)

  function Table(mac: string -> string, events: seq<Event>): map<string, Session> {
    if events == [] then map[]
    else
      var before := Table(mac, events[..|events| - 1]);
      match events[|events| - 1]
      case Created(id, user, at) => before[id := Session(id, user, at + LIFETIME)]
      case Deleted(token) => Dropped(mac, before, token)
  }

  /** Random ids: tokens' ids, and never the same twice. */
  predicate FreshIds(events: seq<Event>) {
    && (forall i :: 0 <= i < |events| && events[i].Created? ==> TokenId(events[i].id))
    && (forall i, j :: 0 <= i < j < |events| && events[i].Created? && events[j].Created? ==>
          events[i].id != events[j].id)
  }

  predicate IssuedAt(mac: string -> string, events: seq<Event>, token: string, i: int) {
    0 <= i < |events| && events[i].Created? && token == Sign(mac, events[i].id)
  }

  predicate DeletedAfter(events: seq<Event>, token: string, i: int) {
    exists j :: 0 <= j < |events| && i < j && events[j] == Deleted(token)
  }

  ghost predicate NonemptyMac(mac: string -> string) { forall s :: mac(s) != "" }

  /** A session is in the table exactly when it was created and its own token was not deleted since. */
  lemma {:induction false} TableIff(mac: string -> string, events: seq<Event>, id: string)
    requires NonemptyMac(mac) && FreshIds(events) && TokenId(id)
    ensures id in Table(mac, events)
            <==> exists i :: IssuedAt(mac, events, Sign(mac, id), i) && !DeletedAfter(events, Sign(mac, id), i)
    ensures forall i :: IssuedAt(mac, events, Sign(mac, id), i) && id in Table(mac, events)
              ==> Table(mac, events)[id] == Session(id, events[i].user, events[i].at + LIFETIME)
    decreases |events|
  {
    if events != [] {
      hide Verify, Sign, TokenId;
      var n := |events| - 1;
      var front, last := events[..n], events[n];
      var token := Sign(mac, id);
      FrontFresh(events);
      TableIff(mac, front, id);
      forall i | IssuedAt(mac, events, token, i) ensures events[i].id == id { IssuedFor(mac, events, id, i); }
      LastEvent(mac, events, token);
      if last.Deleted? {
        VerifyIff(mac, last.token, id);
      } else if last.id == id {
        assert IssuedAt(mac, events, token, n) && !DeletedAfter(events, token, n);
      } else if IssuedAt(mac, events, token, n) {
        IssuedFor(mac, events, id, n);
      }
    }
  }

  lemma FrontFresh(events: seq<Event>)
    requires FreshIds(events) && events != []
    ensures FreshIds(events[..|events| - 1])
  {}

  lemma IssuedFor(mac: string -> string, events: seq<Event>, id: string, i: int)
    requires FreshIds(events) && TokenId(id) && IssuedAt(mac, events, Sign(mac, id), i)
    ensures events[i].id == id
  {
    SignInjective(mac, events[i].id, id);
  }

  lemma LastEvent(mac: string -> string, events: seq<Event>, token: string)
    requires events != []
    ensures var n := |events| - 1;
            forall i :: i < n ==>
              && (IssuedAt(mac, events, token, i) <==> IssuedAt(mac, events[..n], token, i))
              && (DeletedAfter(events, token, i)
                  <==> DeletedAfter(events[..n], token, i) || (events[n] == Deleted(token)))
  {}

  /** Get succeeds exactly for a token that was issued, not deleted since, and is at most twelve hours old. */
  lemma GetSucceedsIff(mac: string -> string, events: seq<Event>, token: string, now: int)
    requires NonemptyMac(mac) && FreshIds(events)
    ensures Lookup(mac, Table(mac, events), token, now).Some?
            <==> exists i :: IssuedAt(mac, events, token, i) && !DeletedAfter(events, token, i)
                                && now <= events[i].at + LIFETIME
  {
    var v := Verify(mac, token);
    if v.Some? {
      VerifyIff(mac, token, v.value);
      TableIff(mac, events, v.value);
    }
    forall i | IssuedAt(mac, events, token, i) ensures v == Some(events[i].id) { VerifyIff(mac, token, events[i].id); }
    hide Verify, Sign, Table, DeletedAfter;
  }

  /**
   * The same with everything spelled out: a token is live exactly if it is the id and the MAC, joined by a dot,
   * of a session that was created at most twelve hours before and whose token was not deleted since.
   */
  lemma TokenIsLiveIff(mac: string -> string, events: seq<Event>, token: string, now: int)
    requires NonemptyMac(mac) && FreshIds(events)
    ensures Lookup(mac, Table(mac, events), token, now).Some?
            <==> exists i :: 0 <= i < |events| && events[i].Created?
                             && token == events[i].id + "." + mac(events[i].id)
                             && now <= events[i].at + 12 * 3600 * 1_000_000_000
                             && forall j :: i < j < |events| ==> events[j] != Deleted(token)
  {
    GetSucceedsIff(mac, events, token, now);
    hide Lookup, Table, FreshIds;
    forall i | 0 <= i < |events|
      && events[i].Created? ensures Sign(mac, events[i].id) == events[i].id + "." + mac(events[i].id) {
      VerifyIff(mac, "", events[i].id);
    }
  }

  /** Once a token that was issued is refused, it is refused forever. */
  lemma RefusedForever(mac: string -> string, events: seq<Event>, more: seq<Event>, token: string, now: int,
                       later: int, i: nat)
    requires NonemptyMac(mac) && FreshIds(events + more) && now <= later
    requires IssuedAt(mac, events, token, i) && Lookup(mac, Table(mac, events), token, now).None?
    ensures Lookup(mac, Table(mac, events + more), token, later).None?
  {
    var all := events + more;
    assert forall k :: 0 <= k < |events| ==> all[k] == events[k];
    PrefixFresh(events, more);
    GetSucceedsIff(mac, events, token, now);
    GetSucceedsIff(mac, all, token, later);
    hide Lookup, Table, Sign, NonemptyMac;
    forall k | IssuedAt(mac, all, token, k) && !DeletedAfter(all, token, k) ensures later > all[k].at + LIFETIME {
      IssuedOnce(mac, all, token, i, k);
      if DeletedAfter(events, token, i) { DeletedStays(events, more, token, i); }
    }
  }

  lemma DeletedStays(events: seq<Event>, more: seq<Event>, token: string, i: int)
    requires DeletedAfter(events, token, i)
    ensures DeletedAfter(events + more, token, i)
  {
    var j :| 0 <= j < |events| && i < j && events[j] == Deleted(token);
    assert (events + more)[j] == Deleted(token);
  }

  lemma IssuedOnce(mac: string -> string, events: seq<Event>, token: string, i: int, k: int)
    requires FreshIds(events) && IssuedAt(mac, events, token, i) && IssuedAt(mac, events, token, k)
    ensures i == k
  {
    SignInjective(mac, events[i].id, events[k].id);
  }

  lemma PrefixFresh(events: seq<Event>, more: seq<Event>)
    requires FreshIds(events + more)
    ensures FreshIds(events)
  {
    var all := events + more;
    assert forall k :: 0 <= k < |events| ==> events[k] == all[k];
  }
}
