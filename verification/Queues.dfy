/** One BullMQ queue as the adapter sees it: seven structures, the job hashes, and what surrounds them. */
module Queues {
  import opened Redis

  type Hash = map<string, string>

  datatype Place = Wait | Active | Paused | Delayed | Failed | Completed | Prioritized

  /** The hash fields a retry clears. */
  const VOLATILE := {"finishedOn", "processedOn", "failedReason"}

  /** A hash that a retry does not empty. */
  predicate Lasting(h: Hash) { h - VOLATILE != map[] }

  /** The job hashes after HDEL of those fields. */
  function Cleared(jobs: map<string, Hash>, id: string): map<string, Hash> {
    if id !in jobs then jobs
    else if Lasting(jobs[id]) then jobs[id := jobs[id] - VOLATILE]
    else jobs - {id}
  }

  function WaitingEvent(id: string): map<string, string> {
    map["event" := "waiting", "jobId" := id, "prev" := "failed"]
  }

  function RemovedEvent(id: string): map<string, string> {
    map["event" := "removed", "jobId" := id]
  }

  datatype Queue = Queue(
    wait: seq<string>, active: seq<string>, paused: seq<string>,
    delayed: seq<string>, failed: seq<string>, completed: seq<string>, prioritized: seq<string>,
    isPaused: bool,
    jobs: map<string, Hash>,
    marker: set<string>,
    events: seq<map<string, string>>)
  {
    function At(p: Place): seq<string> {
      match p
      case Wait => wait
      case Active => active
      case Paused => paused
      case Delayed => delayed
      case Failed => failed
      case Completed => completed
      case Prioritized => prioritized
    }

    function With(p: Place, s: seq<string>): Queue {
      match p
      case Wait => this.(wait := s)
      case Active => this.(active := s)
      case Paused => this.(paused := s)
      case Delayed => this.(delayed := s)
      case Failed => this.(failed := s)
      case Completed => this.(completed := s)
      case Prioritized => this.(prioritized := s)
    }

    /** How often an id occurs over the seven structures. */
    function Occurrences(id: string): nat {
      multiset(wait)[id] + multiset(active)[id] + multiset(paused)[id] + multiset(delayed)[id]
      + multiset(failed)[id] + multiset(completed)[id] + multiset(prioritized)[id]
    }

    /** What ZREM on the failed set leaves. */
    function Claimed(id: string): Queue {
      this.(failed := Without(failed, id))
    }

    /** What the retry transaction leaves. */
    function Requeued(id: string, target: Place): Queue {
      With(target, [id] + At(target))
        .(jobs := Cleared(jobs, id), marker := marker + {"0"}, events := events + [WaitingEvent(id)])
    }

    /** What the delete transaction leaves. */
    function Removed(id: string): Queue {
      Dropped(id).(events := events + [RemovedEvent(id)])
    }

    /** The queue without an id and its job. */
    function Dropped(id: string): Queue {
      Queue(Without(wait, id), Without(active, id), Without(paused, id), Without(delayed, id),
            Without(failed, id), Without(completed, id), Without(prioritized, id),
            isPaused, jobs - {id}, marker, events)
    }

    function Target(): Place { if isPaused then Paused else Wait }
  }

  lemma OccurrencesWith(q: Queue, p: Place, s: seq<string>, id: string)
    ensures q.With(p, s).Occurrences(id) == q.Occurrences(id) - multiset(q.At(p))[id] + multiset(s)[id]
  {}

  lemma OccurrencesClaimed(q: Queue, id: string, x: string)
    ensures q.Claimed(id).Occurrences(x) == q.Occurrences(x) - (if x == id then multiset(q.failed)[id] else 0)
  {
    WithoutCount(q.failed, id, x);
  }

  lemma OccurrencesRequeued(q: Queue, id: string, target: Place, x: string)
    ensures q.Requeued(id, target).Occurrences(x) == q.Occurrences(x) + (if x == id then 1 else 0)
  {}

  lemma RequeuedParts(q: Queue, id: string, target: Place, x: string)
    requires target in {Wait, Paused}
    ensures var q' := q.Requeued(id, target);
            && q'.jobs == Cleared(q.jobs, id) && q'.failed == q.failed
            && multiset(q'.At(target))[x] == multiset(q.At(target))[x] + (if x == id then 1 else 0)
  {}

  lemma OccurrencesRemoved(q: Queue, id: string, x: string)
    ensures q.Removed(id).Occurrences(x) == if x == id then 0 else q.Occurrences(x)
  {
    OccurrencesDropped(q, id, x);
  }

  lemma OccurrencesDropped(q: Queue, id: string, x: string)
    ensures q.Dropped(id).Occurrences(x) == if x == id then 0 else q.Occurrences(x)
  {
    WithoutCount(q.wait, id, x);
    WithoutCount(q.active, id, x);
    WithoutCount(q.paused, id, x);
    WithoutCount(q.delayed, id, x);
    WithoutCount(q.failed, id, x);
    WithoutCount(q.completed, id, x);
    WithoutCount(q.prioritized, id, x);
  }
}
