/**
 * Retries, deletes, workers and pause/resume interleaved over one queue. Every Redis round trip
 * is a step of its own; a fault may lose a reply before or after the command took effect.
 */
module Protocol {
  import opened Queues
  import opened Redis

  datatype Answer = Succeeded | NotFound | NotFailed | Faulted

  /** Where an operation stands: named after the round trip it has behind it. */
  datatype Phase = Checked | Claimed | Targeted(to: Place) | Deleting | Done(answer: Answer)

  datatype Op = Op(retry: bool, id: string, phase: Phase)

  /** History, kept for the account only: no step reads it. */
  datatype Ledger = Ledger(
    stranded: multiset<string>,     // claimed, then lost to a fault
    overwritten: multiset<string>,  // lost to a RENAME over a list that was not empty
    entered: multiset<string>,      // entries into `failed`
    crossed: map<string, nat>)      // deleted while a retry held the claim, and by which delete

  /**
   * `parked` holds ids with a hash that the seven structures have no place for: flow parents waiting for their
   * children, and hashes of BullMQ's own, such as a repeat schedule's.
   */
  datatype World = World(queue: Queue, ops: map<nat, Op>, used: set<string>, parked: set<string>, ledger: Ledger)

  datatype Label =
    | RetryBegin(pid: nat, id: string)
    | DeleteBegin(pid: nat, id: string)
    | ExistsFault(pid: nat, id: string, retry: bool)
    | Claim(pid: nat)
    | ReadPaused(pid: nat)
    | Requeue(pid: nat)
    | DeleteCommit(pid: nat)
    | Fault(pid: nat, effect: bool)
    | Add(id: string, to: Place, rank: nat, hash: Hash)
    | Move(id: string, from: Place, to: Place, rank: nat)
    | AddParked(id: string, hash: Hash)
    | Park(id: string, from: Place)
    | Unpark(id: string, to: Place, rank: nat)
    | Drop(id: string)
    | Rewrite(id: string, hash: Hash)
    | Pause
    | Resume
    | Mark(marker: set<string>)
    | Log(events: seq<map<string, string>>)

  /** Workers and producers respect the pause flag; only a retry may act on an outdated reading of it. */
  predicate Respects(q: Queue, to: Place) {
    (to == Wait ==> !q.isPaused) && (to == Paused ==> q.isPaused)
  }

  predicate Running(w: World, pid: nat, phase: Phase) {
    pid in w.ops && w.ops[pid].phase == phase
  }

  predicate Enabled(w: World, l: Label) {
    match l
    case RetryBegin(pid, id) => pid !in w.ops
    case DeleteBegin(pid, id) => pid !in w.ops
    case ExistsFault(pid, _, _) => pid !in w.ops
    case Claim(pid) => Running(w, pid, Checked)
    case ReadPaused(pid) => Running(w, pid, Claimed)
    case Requeue(pid) => pid in w.ops && w.ops[pid].phase.Targeted?
    case DeleteCommit(pid) => Running(w, pid, Deleting)
    case Fault(pid, _) => pid in w.ops && !w.ops[pid].phase.Done?
    case Add(id, to, rank, hash) => id !in w.used && rank <= |w.queue.At(to)| && Respects(w.queue, to) && Lasting(hash)
    case Move(id, from, to, rank) =>
      && id in w.queue.At(from) && Respects(w.queue, to)
      && rank <= |w.queue.With(from, Without(w.queue.At(from), id)).At(to)|
    case AddParked(id, hash) => id !in w.used && Lasting(hash)
    case Park(id, from) => id in w.queue.At(from) && id in w.queue.jobs
    case Unpark(id, to, rank) =>
      id in w.parked && id in w.queue.jobs && rank <= |w.queue.At(to)| && Respects(w.queue, to)
    case Drop(id) => w.queue.Occurrences(id) > 0 || id in w.parked
    case Rewrite(id, hash) => id in w.queue.jobs && Lasting(hash)
    case Pause => true
    case Resume => true
    case Mark(_) => true
    case Log(_) => true
  }

  function Advance(w: World, pid: nat, phase: Phase): World
    requires pid in w.ops
  {
    w.(ops := w.ops[pid := w.ops[pid].(phase := phase)])
  }

  function Strand(w: World, id: string): World {
    w.(ledger := w.ledger.(stranded := w.ledger.stranded + multiset{id}))
  }

  /** The effect of ZREM on `failed` when it finds the id. */
  function TakeClaim(w: World, id: string): World {
    w.(queue := w.queue.Claimed(id))
  }

  function PushBack(w: World, id: string, to: Place): World {
    w.(queue := w.queue.Requeued(id, to))
  }

  predicate Crosses(w: World, id: string) { id in w.queue.jobs && Tally(w.ops, Holding, id) > 0 }

  function Erase(w: World, pid: nat, id: string): World {
    w.(queue := w.queue.Removed(id),
       ledger := if Crosses(w, id) then w.ledger.(crossed := w.ledger.crossed[id := pid]) else w.ledger)
  }

  function PutAt(q: Queue, to: Place, rank: nat, id: string): Queue
    requires rank <= |q.At(to)|
  {
    q.With(to, q.At(to)[..rank] + [id] + q.At(to)[rank..])
  }

  function NoteEntry(w: World, id: string, to: Place): World {
    if to == Failed then w.(ledger := w.ledger.(entered := w.ledger.entered + multiset{id})) else w
  }

  /** BullMQ's pause and resume: set the flag, and RENAME the one list over the other if it exists. */
  function Toggle(w: World, pausing: bool): World {
    var q := w.queue;
    var source := if pausing then q.wait else q.paused;
    var target := if pausing then q.paused else q.wait;
    if source == [] then w.(queue := q.(isPaused := pausing))
    else
      w.(queue := if pausing then q.(isPaused := true, paused := q.wait, wait := [])
                  else q.(isPaused := false, wait := q.paused, paused := []),
         ledger := w.ledger.(overwritten := w.ledger.overwritten + multiset(target)))
  }

  function Step(w: World, l: Label): World
    requires Enabled(w, l)
  {
    match l
    case RetryBegin(pid, id) =>
      w.(ops := w.ops[pid := Op(true, id, if id in w.queue.jobs then Checked else Done(NotFound))])
    case DeleteBegin(pid, id) =>
      w.(ops := w.ops[pid := Op(false, id, if id in w.queue.jobs then Deleting else Done(NotFound))])
    case ExistsFault(pid, id, retry) => w.(ops := w.ops[pid := Op(retry, id, Done(Faulted))])
    case Claim(pid) =>
      var id := w.ops[pid].id;
      if id in w.queue.failed then Advance(TakeClaim(w, id), pid, Claimed) else Advance(w, pid, Done(NotFailed))
    case ReadPaused(pid) => Advance(w, pid, Targeted(w.queue.Target()))
    case Requeue(pid) => Advance(PushBack(w, w.ops[pid].id, w.ops[pid].phase.to), pid, Done(Succeeded))
    case DeleteCommit(pid) => Advance(Erase(w, pid, w.ops[pid].id), pid, Done(Succeeded))
    case Fault(pid, effect) =>
      var id := w.ops[pid].id;
      var hit :=
        match w.ops[pid].phase
        case Checked => if effect && id in w.queue.failed then Strand(TakeClaim(w, id), id) else w
        case Claimed => Strand(w, id)
        case Targeted(to) => if effect then PushBack(w, id, to) else Strand(w, id)
        case Deleting => if effect then Erase(w, pid, id) else w
        case Done(_) => w;
      Advance(hit, pid, Done(Faulted))
    case Add(id, to, rank, hash) =>
      var w' := NoteEntry(w, id, to);
      w'.(queue := PutAt(w.queue, to, rank, id).(jobs := w.queue.jobs[id := hash]), used := w.used + {id})
    case Move(id, from, to, rank) =>
      var w' := NoteEntry(w, id, to);
      w'.(queue := PutAt(w.queue.With(from, Without(w.queue.At(from), id)), to, rank, id))
    case AddParked(id, hash) =>
      w.(queue := w.queue.(jobs := w.queue.jobs[id := hash]), used := w.used + {id}, parked := w.parked + {id})
    case Park(id, from) =>
      w.(queue := w.queue.With(from, Without(w.queue.At(from), id)), parked := w.parked + {id})
    case Unpark(id, to, rank) =>
      var w' := NoteEntry(w, id, to);
      w'.(queue := PutAt(w.queue, to, rank, id), parked := w.parked - {id})
    case Drop(id) => w.(queue := w.queue.Dropped(id), parked := w.parked - {id})
    case Rewrite(id, hash) => w.(queue := w.queue.(jobs := w.queue.jobs[id := hash]))
    case Pause => Toggle(w, true)
    case Resume => Toggle(w, false)
    case Mark(marker) => w.(queue := w.queue.(marker := marker))
    case Log(events) => w.(queue := w.queue.(events := events))
  }

  predicate Legal(w: World, run: seq<Label>)
    decreases |run|
  {
    run == [] || (Enabled(w, run[0]) && Legal(Step(w, run[0]), run[1..]))
  }

  function Run(w: World, run: seq<Label>): World
    requires Legal(w, run)
    decreases |run|
  {
    if run == [] then w else Run(Step(w, run[0]), run[1..])
  }

  // ---- counting operations ----

  datatype Kind = Holding | Won

  /** A retry holds the claim from its ZREM to its EXEC, and has won once it answers success. */
  predicate Fits(op: Op, kind: Kind, id: string) {
    && op.id == id && op.retry
    && match kind
       case Holding => op.phase.Claimed? || op.phase.Targeted?
       case Won => op.phase == Done(Succeeded)
  }

  function Fitting(ops: map<nat, Op>, kind: Kind, id: string): set<nat> {
    set p | p in ops && Fits(ops[p], kind, id)
  }

  function Tally(ops: map<nat, Op>, kind: Kind, id: string): nat { |Fitting(ops, kind, id)| }

  function Weight(b: bool): nat { if b then 1 else 0 }

  lemma TallyUpdate(ops: map<nat, Op>, pid: nat, op: Op, kind: Kind, id: string)
    ensures Tally(ops[pid := op], kind, id)
            == Tally(ops, kind, id) - Weight(pid in ops && Fits(ops[pid], kind, id)) + Weight(Fits(op, kind, id))
  {
    FittingUpdate(ops, pid, op, kind, id);
    Swap(Fitting(ops, kind, id), pid, Fits(op, kind, id));
  }

  lemma Swap(s: set<nat>, p: nat, member: bool)
    ensures |(s - {p}) + if member then {p} else {}| == |s| - Weight(p in s) + Weight(member)
  {}

  lemma FittingUpdate(ops: map<nat, Op>, pid: nat, op: Op, kind: Kind, id: string)
    ensures Fitting(ops[pid := op], kind, id)
            == (Fitting(ops, kind, id) - {pid}) + (if Fits(op, kind, id) then {pid} else {})
  {}

  // ---- the account of one id ----

  /** Where an id is: in a structure, parked, in the hands of a retry, or lost in one of two ways. */
  function Whereabouts(w: World, id: string): nat {
    w.queue.Occurrences(id) + Weight(id in w.parked) + Tally(w.ops, Holding, id)
    + w.ledger.stranded[id] + w.ledger.overwritten[id]
  }

  /** A delete of the id that has sent its transaction; whether it took effect the answer alone does not tell. */
  predicate DoneDelete(w: World, pid: nat, id: string) {
    && pid in w.ops && !w.ops[pid].retry && w.ops[pid].id == id
    && (w.ops[pid].phase == Done(Succeeded) || w.ops[pid].phase == Done(Faulted))
  }

  predicate Accounted(w: World, id: string) {
    && Whereabouts(w, id) <= 1
    && (id in w.queue.jobs ==> Whereabouts(w, id) == 1 && Lasting(w.queue.jobs[id]))
    && (Whereabouts(w, id) > 0 || id in w.queue.jobs || id in w.ledger.crossed ==> id in w.used)
    && Tally(w.ops, Won, id) + Tally(w.ops, Holding, id) + w.ledger.stranded[id] + multiset(w.queue.failed)[id]
       <= w.ledger.entered[id]
    && (Tally(w.ops, Holding, id) > 0 ==> (id in w.queue.jobs <==> id !in w.ledger.crossed))
    && (w.queue.Occurrences(id) > 0 && id !in w.queue.jobs ==> id in w.ledger.crossed)
    && (id in w.ledger.crossed ==> id !in w.queue.jobs && DoneDelete(w, w.ledger.crossed[id], id))
  }

  predicate OpsSane(w: World) {
    forall p :: p in w.ops ==> SaneOp(w.ops[p])
  }

  predicate SaneOp(op: Op) {
    match op.phase
    case Checked => op.retry
    case Claimed => op.retry
    case Targeted(to) => op.retry && to in {Wait, Paused}
    case Deleting => !op.retry
    case Done(_) => true
  }


  // What one step does to the account of an arbitrary id, step by step.

  lemma TallyStep(w: World, w': World, pid: nat, id: string)
    requires pid in w'.ops && w'.ops == w.ops[pid := w'.ops[pid]]
    ensures Tally(w'.ops, Holding, id)
            == Tally(w.ops, Holding, id) - Weight(pid in w.ops && Fits(w.ops[pid], Holding, id))
               + Weight(Fits(w'.ops[pid], Holding, id))
    ensures Tally(w'.ops, Won, id)
            == Tally(w.ops, Won, id) - Weight(pid in w.ops && Fits(w.ops[pid], Won, id))
               + Weight(Fits(w'.ops[pid], Won, id))
  {
    TallyUpdate(w.ops, pid, w'.ops[pid], Holding, id);
    TallyUpdate(w.ops, pid, w'.ops[pid], Won, id);
  }

  lemma BeginKeeps(w: World, l: Label, id: string)
    requires l.RetryBegin? || l.DeleteBegin? || l.ExistsFault?
    requires Enabled(w, l) && Accounted(w, id)
    ensures Accounted(Step(w, l), id)
  {
    hide Queue.Occurrences, Tally, Lasting;
    TallyStep(w, Step(w, l), l.pid, id);
  }

  lemma ClaimKeeps(w: World, pid: nat, id: string)
    requires Enabled(w, Claim(pid)) && OpsSane(w) && Accounted(w, id)
    ensures Accounted(Step(w, Claim(pid)), id)
    ensures var w' := Step(w, Claim(pid)); var moved := Weight(w.ops[pid].id == id && id in w.queue.failed);
            && w'.queue.Occurrences(id) == w.queue.Occurrences(id) - moved
            && multiset(w'.queue.failed)[id] == multiset(w.queue.failed)[id] - moved
            && Tally(w'.ops, Holding, id) == Tally(w.ops, Holding, id) + moved
  {
    hide Queue.Occurrences, Tally, Lasting;
    TallyStep(w, Step(w, Claim(pid)), pid, id);
    OccurrencesClaimed(w.queue, w.ops[pid].id, id);
    WithoutCount(w.queue.failed, w.ops[pid].id, id);
  }

  lemma ReadPausedKeeps(w: World, pid: nat, id: string)
    requires Enabled(w, ReadPaused(pid)) && OpsSane(w) && Accounted(w, id)
    ensures Accounted(Step(w, ReadPaused(pid)), id)
  {
    hide Queue.Occurrences, Tally, Lasting;
    TallyStep(w, Step(w, ReadPaused(pid)), pid, id);
  }

  lemma RequeueKeeps(w: World, pid: nat, id: string)
    requires Enabled(w, Requeue(pid)) && OpsSane(w) && Accounted(w, id)
    requires w.ops[pid].id in w.queue.jobs ==> Lasting(w.queue.jobs[w.ops[pid].id])
    ensures Accounted(Step(w, Requeue(pid)), id)
    ensures var w' := Step(w, Requeue(pid)); var to := w.ops[pid].phase.to; var moved := Weight(w.ops[pid].id == id);
            && w'.queue.Occurrences(id) == w.queue.Occurrences(id) + moved
            && multiset(w'.queue.At(to))[id] == multiset(w.queue.At(to))[id] + moved
            && Tally(w'.ops, Holding, id) == Tally(w.ops, Holding, id) - moved
            && Tally(w'.ops, Won, id) == Tally(w.ops, Won, id) + moved
  {
    hide Queue.Occurrences, Tally, Queue.Requeued;
    TallyStep(w, Step(w, Requeue(pid)), pid, id);
    RequeuedParts(w.queue, w.ops[pid].id, w.ops[pid].phase.to, id);
    OccurrencesRequeued(w.queue, w.ops[pid].id, w.ops[pid].phase.to, id);
  }

  lemma CommitKeeps(w: World, pid: nat, id: string)
    requires Enabled(w, DeleteCommit(pid)) && OpsSane(w) && Accounted(w, id)
    ensures Accounted(Step(w, DeleteCommit(pid)), id)
    ensures var w' := Step(w, DeleteCommit(pid)); var mine := w.ops[pid].id == id;
            && w'.queue.Occurrences(id) == (if mine then 0 else w.queue.Occurrences(id))
            && (id in w'.queue.jobs <==> id in w.queue.jobs && !mine)
            && (id in w'.ledger.crossed <==> id in w.ledger.crossed || (mine && Crosses(w, id)))
            && (mine && Crosses(w, id) ==> w'.ledger.crossed[id] == pid)
  {
    hide Queue.Occurrences, Tally, Lasting;
    TallyStep(w, Step(w, DeleteCommit(pid)), pid, id);
    OccurrencesRemoved(w.queue, w.ops[pid].id, id);
    WithoutCount(w.queue.failed, w.ops[pid].id, id);
  }

  /** A fault strands an id when the claim has taken effect, or does so now, and the push does not. */
  predicate Strands(w: World, l: Label, id: string) {
    && l.Fault? && l.pid in w.ops && w.ops[l.pid].id == id
    && match w.ops[l.pid].phase
       case Checked => l.effect && id in w.queue.failed
       case Claimed => true
       case Targeted(_) => !l.effect
       case _ => false
  }

  lemma FaultKeeps(w: World, pid: nat, effect: bool, id: string)
    requires Enabled(w, Fault(pid, effect)) && OpsSane(w) && Accounted(w, id)
    requires w.ops[pid].id in w.queue.jobs ==> Lasting(w.queue.jobs[w.ops[pid].id])
    ensures Accounted(Step(w, Fault(pid, effect)), id)
    ensures Step(w, Fault(pid, effect)).ledger.stranded[id]
            == w.ledger.stranded[id] + Weight(Strands(w, Fault(pid, effect), id))
  {
    match w.ops[pid].phase
    case Deleting => EraseFaultKeeps(w, pid, effect, id);
    case Targeted(_) => PushFaultKeeps(w, pid, effect, id);
    case Checked => ClaimFaultKeeps(w, pid, effect, id);
    case Claimed => ClaimFaultKeeps(w, pid, effect, id);
    case Done(_) =>
  }

  lemma ClaimFaultKeeps(w: World, pid: nat, effect: bool, id: string)
    requires Enabled(w, Fault(pid, effect)) && OpsSane(w) && Accounted(w, id)
    requires w.ops[pid].phase.Checked? || w.ops[pid].phase.Claimed?
    ensures Accounted(Step(w, Fault(pid, effect)), id)
    ensures Step(w, Fault(pid, effect)).ledger.stranded[id]
            == w.ledger.stranded[id] + Weight(Strands(w, Fault(pid, effect), id))
  {
    hide Queue.Occurrences, Tally, Lasting, Without;
    TallyStep(w, Step(w, Fault(pid, effect)), pid, id);
    OccurrencesClaimed(w.queue, w.ops[pid].id, id);
    WithoutCount(w.queue.failed, w.ops[pid].id, id);
  }

  lemma PushFaultKeeps(w: World, pid: nat, effect: bool, id: string)
    requires Enabled(w, Fault(pid, effect)) && OpsSane(w) && Accounted(w, id)
    requires w.ops[pid].phase.Targeted?
    requires w.ops[pid].id in w.queue.jobs ==> Lasting(w.queue.jobs[w.ops[pid].id])
    ensures Accounted(Step(w, Fault(pid, effect)), id)
    ensures Step(w, Fault(pid, effect)).ledger.stranded[id]
            == w.ledger.stranded[id] + Weight(Strands(w, Fault(pid, effect), id))
  {
    hide Queue.Occurrences, Tally;
    TallyStep(w, Step(w, Fault(pid, effect)), pid, id);
    OccurrencesRequeued(w.queue, w.ops[pid].id, w.ops[pid].phase.to, id);
  }

  lemma EraseFaultKeeps(w: World, pid: nat, effect: bool, id: string)
    requires Enabled(w, Fault(pid, effect)) && OpsSane(w) && Accounted(w, id)
    requires w.ops[pid].phase.Deleting?
    ensures Accounted(Step(w, Fault(pid, effect)), id)
    ensures Step(w, Fault(pid, effect)).ledger.stranded[id]
            == w.ledger.stranded[id] + Weight(Strands(w, Fault(pid, effect), id))
  {
    hide Queue.Occurrences, Tally, Lasting, Without;
    TallyStep(w, Step(w, Fault(pid, effect)), pid, id);
    OccurrencesRemoved(w.queue, w.ops[pid].id, id);
    WithoutCount(w.queue.failed, w.ops[pid].id, id);
  }

  lemma PutAtCounts(q: Queue, to: Place, rank: nat, x: string, id: string)
    requires rank <= |q.At(to)|
    ensures var q' := PutAt(q, to, rank, x);
            && q'.Occurrences(id) == q.Occurrences(id) + Weight(x == id)
            && multiset(q'.failed)[id] == multiset(q.failed)[id] + Weight(to == Failed && x == id)
            && q'.jobs == q.jobs
  {
    var s := q.At(to);
    var s' := s[..rank] + [x] + s[rank..];
    assert s == s[..rank] + s[rank..];
    assert multiset(s')[id] == multiset(s)[id] + Weight(x == id);
    OccurrencesWith(q, to, s', id);
  }

  lemma TakenCounts(q: Queue, from: Place, x: string, id: string)
    ensures var q' := q.With(from, Without(q.At(from), x));
            && q'.Occurrences(id) == q.Occurrences(id) - (if x == id then multiset(q.At(from))[id] else 0)
            && multiset(q'.failed)[id] == (if from == Failed && x == id then 0 else multiset(q.failed)[id])
            && q'.jobs == q.jobs
  {
    WithoutCount(q.At(from), x, id);
    OccurrencesWith(q, from, Without(q.At(from), x), id);
  }

  lemma AddKeeps(w: World, x: string, to: Place, rank: nat, hash: Hash, id: string)
    requires Enabled(w, Add(x, to, rank, hash)) && Accounted(w, id)
    ensures Accounted(Step(w, Add(x, to, rank, hash)), id)
  {
    hide Queue.Occurrences, Tally, Lasting, PutAt;
    PutAtCounts(w.queue, to, rank, x, id);
    OccurrencesJobs(PutAt(w.queue, to, rank, x), w.queue.jobs[x := hash], id);
  }

  lemma OccurrencesJobs(q: Queue, jobs: map<string, Hash>, id: string)
    ensures q.(jobs := jobs).Occurrences(id) == q.Occurrences(id)
  {}

  lemma MoveKeeps(w: World, x: string, from: Place, to: Place, rank: nat, id: string)
    requires Enabled(w, Move(x, from, to, rank)) && Accounted(w, id)
    ensures Accounted(Step(w, Move(x, from, to, rank)), id)
  {
    hide Queue.Occurrences, Tally, Lasting, PutAt, Queue.With;
    assert multiset(w.queue.At(from))[x] <= w.queue.Occurrences(x) && x in multiset(w.queue.At(from)) by {
      AtMostOccurrences(w.queue, from, x);
    }
    TakenCounts(w.queue, from, x, id);
    PutAtCounts(w.queue.With(from, Without(w.queue.At(from), x)), to, rank, x, id);
  }

  lemma AddParkedKeeps(w: World, x: string, hash: Hash, id: string)
    requires Enabled(w, AddParked(x, hash)) && Accounted(w, id)
    ensures Accounted(Step(w, AddParked(x, hash)), id)
  {
    hide Queue.Occurrences, Tally, Lasting;
    OccurrencesJobs(w.queue, w.queue.jobs[x := hash], id);
  }

  lemma ParkKeeps(w: World, x: string, from: Place, id: string)
    requires Enabled(w, Park(x, from)) && Accounted(w, id)
    ensures Accounted(Step(w, Park(x, from)), id)
  {
    hide Queue.Occurrences, Tally, Lasting, Queue.With;
    assert multiset(w.queue.At(from))[x] <= w.queue.Occurrences(x) && x in multiset(w.queue.At(from)) by {
      AtMostOccurrences(w.queue, from, x);
    }
    TakenCounts(w.queue, from, x, id);
  }

  lemma UnparkKeeps(w: World, x: string, to: Place, rank: nat, id: string)
    requires Enabled(w, Unpark(x, to, rank)) && Accounted(w, id)
    ensures Accounted(Step(w, Unpark(x, to, rank)), id)
  {
    hide Queue.Occurrences, Tally, Lasting, PutAt;
    PutAtCounts(w.queue, to, rank, x, id);
  }

  /** BullMQ removes a job it finds in a structure or parked, so no retry holds it. */
  lemma DropKeeps(w: World, x: string, id: string)
    requires Enabled(w, Drop(x)) && Accounted(w, id)
    ensures Accounted(Step(w, Drop(x)), id)
  {
    hide Queue.Occurrences, Tally, Lasting, Without;
    OccurrencesDropped(w.queue, x, id);
    WithoutCount(w.queue.failed, x, id);
  }

  lemma OccurrencesExtras(q: Queue, marker: set<string>, events: seq<map<string, string>>, id: string)
    ensures q.(marker := marker).Occurrences(id) == q.(events := events).Occurrences(id) == q.Occurrences(id)
  {}

  lemma AtMostOccurrences(q: Queue, p: Place, id: string)
    ensures multiset(q.At(p))[id] <= q.Occurrences(id)
  {}

  lemma ToggleKeeps(w: World, pausing: bool, id: string)
    requires Accounted(w, id)
    ensures Accounted(Toggle(w, pausing), id)
  {
    hide Tally, Lasting;
  }

  // ---- every reachable state ----

  ghost predicate Inv(w: World) {
    OpsSane(w) && forall id :: Accounted(w, id)
  }

  /** No operation under way, every job in exactly one structure or parked, nothing else in any of them. */
  ghost predicate Initial(w: World) {
    && w.ops == map[]
    && w.ledger == Ledger(multiset{}, multiset{}, multiset(w.queue.failed), map[])
    && forall id :: InitialId(w, id)
  }

  predicate InitialId(w: World, id: string) {
    && w.queue.Occurrences(id) + Weight(id in w.parked) == Weight(id in w.queue.jobs)
    && (id in w.queue.jobs ==> id in w.used && Lasting(w.queue.jobs[id]))
  }

  /** The world of a queue that nothing is happening to: job hashes in no structure count as parked. */
  function StartWorld(q: Queue): World {
    World(q, map[], q.jobs.Keys, (set id | id in q.jobs && q.Occurrences(id) == 0),
          Ledger(multiset{}, multiset{}, multiset(q.failed), map[]))
  }

  predicate AtRestFor(q: Queue, id: string) {
    q.Occurrences(id) <= Weight(id in q.jobs) && (id in q.jobs ==> Lasting(q.jobs[id]))
  }

  /** Exactly which queues are a start: no id twice in the structures, and none there without a lasting hash. */
  lemma StartIff(q: Queue)
    ensures Initial(StartWorld(q)) <==> forall id :: AtRestFor(q, id)
  {
    hide Queue.Occurrences, Lasting;
    forall id ensures InitialId(StartWorld(q), id) <==> AtRestFor(q, id) {}
  }

  lemma InitialInv(w: World)
    requires Initial(w)
    ensures Inv(w)
  {
    forall id ensures Accounted(w, id) {
      assert InitialId(w, id);
      assert Fitting(w.ops, Holding, id) == {} && Fitting(w.ops, Won, id) == {};
      AtMostOccurrences(w.queue, Failed, id);
    }
  }

  lemma StepKeeps(w: World, l: Label)
    requires Inv(w) && Enabled(w, l)
    ensures Inv(Step(w, l))
  {
    hide Accounted;
    forall id ensures Accounted(Step(w, l), id) { StepKeepsId(w, l, id); }
  }

  lemma StepKeepsId(w: World, l: Label, id: string)
    requires Inv(w) && Enabled(w, l)
    ensures Accounted(Step(w, l), id)
  {
    assert Accounted(w, id);
    hide Accounted, Step, Tally, Queue.Occurrences, Without, PutAt, Toggle, Queue.With, Lasting;
    match l
    case RetryBegin(_, _) => BeginKeeps(w, l, id);
    case DeleteBegin(_, _) => BeginKeeps(w, l, id);
    case ExistsFault(_, _, _) => BeginKeeps(w, l, id);
    case Claim(pid) => ClaimKeeps(w, pid, id);
    case ReadPaused(pid) => ReadPausedKeeps(w, pid, id);
    case Requeue(pid) =>
      AccountLasts(w, w.ops[pid].id);
      RequeueKeeps(w, pid, id);
    case DeleteCommit(pid) => CommitKeeps(w, pid, id);
    case Fault(pid, effect) =>
      AccountLasts(w, w.ops[pid].id);
      FaultKeeps(w, pid, effect, id);
    case Add(x, to, rank, hash) => AddKeeps(w, x, to, rank, hash, id);
    case Move(x, from, to, rank) => MoveKeeps(w, x, from, to, rank, id);
    case AddParked(x, hash) => AddParkedKeeps(w, x, hash, id);
    case Park(x, from) => ParkKeeps(w, x, from, id);
    case Unpark(x, to, rank) => UnparkKeeps(w, x, to, rank, id);
    case Drop(x) => DropKeeps(w, x, id);
    case Rewrite(_, _) => ExtrasKeep(w, l, id);
    case Pause => TogglesKeep(w, l, id);
    case Resume => TogglesKeep(w, l, id);
    case Mark(_) => ExtrasKeep(w, l, id);
    case Log(_) => ExtrasKeep(w, l, id);
  }

  lemma AccountLasts(w: World, id: string)
    requires Accounted(w, id)
    ensures id in w.queue.jobs ==> Lasting(w.queue.jobs[id])
  {}

  lemma TogglesKeep(w: World, l: Label, id: string)
    requires (l.Pause? || l.Resume?) && Accounted(w, id)
    ensures Accounted(Step(w, l), id)
  {
    hide Accounted, Toggle;
    ToggleKeeps(w, l.Pause?, id);
  }

  lemma ExtrasKeep(w: World, l: Label, id: string)
    requires (l.Rewrite? || l.Mark? || l.Log?) && Enabled(w, l) && Accounted(w, id)
    ensures Accounted(Step(w, l), id)
  {
    hide Tally, Queue.Occurrences, Lasting;
    match l
    case Rewrite(x, hash) => OccurrencesJobs(w.queue, w.queue.jobs[x := hash], id);
    case Mark(m) => OccurrencesExtras(w.queue, m, w.queue.events, id);
    case Log(e) => OccurrencesExtras(w.queue, w.queue.marker, e, id);
  }

  lemma {:induction false} RunKeeps(w: World, run: seq<Label>)
    requires Inv(w) && Legal(w, run)
    ensures Inv(Run(w, run))
    decreases |run|
  {
    if run != [] {
      StepKeeps(w, run[0]);
      RunKeeps(Step(w, run[0]), run[1..]);
    }
  }
}
