/**
 * The interleaved adapter on the keyspace itself, over any number of queues: every step of a retry or
 * delete is the Redis round trip the adapter makes. It is a refinement of the protocol, queue by queue.
 */
module Concurrent {
  import opened Text
  import opened Keys
  import opened Redis
  import opened Queues
  import opened Views
  import opened BullMQ
  import opened Effects
  import opened Frames
  import P = Protocol
  import Runs
  import Listing
  import ListingMeaning

  datatype Task = Task(queue: string, op: P.Op)

  datatype State = State(db: Keyspace, tasks: map<nat, Task>)

  /** The part of the state that belongs to one queue. */
  function OpsOf(tasks: map<nat, Task>, queue: string): map<nat, P.Op> {
    map pid | pid in tasks && tasks[pid].queue == queue :: tasks[pid].op
  }

  function ByAdapter(l: P.Label): bool {
    || l.RetryBegin? || l.DeleteBegin? || l.ExistsFault? || l.Claim? || l.ReadPaused?
    || l.Requeue? || l.DeleteCommit? || l.Fault?
  }

  /** The first round trip of an operation, over the given wire. */
  function Begin(s: State, prefix: string, queue: string, pid: nat, id: string, retry: bool, wire: Wire): State {
    var phase :=
      match ExistsTrip(s.db, Key(prefix, queue, id), wire)
      case Err(_) => P.Done(P.Faulted)
      case Ok(known) => if !known then P.Done(P.NotFound) else if retry then P.Checked else P.Deleting;
    s.(tasks := s.tasks[pid := Task(queue, P.Op(retry, id, phase))])
  }

  function Proceed(s: State, pid: nat, db: Keyspace, phase: P.Phase): State
    requires pid in s.tasks
  {
    State(db, s.tasks[pid := s.tasks[pid].(op := s.tasks[pid].op.(phase := phase))])
  }

  /** The next round trip of a task over the given wire, and where the task stands afterwards. */
  function Trip(s: State, prefix: string, pid: nat, wire: Wire): State
    requires pid in s.tasks && !s.tasks[pid].op.phase.Done?
  {
    var queue, id := s.tasks[pid].queue, s.tasks[pid].op.id;
    match s.tasks[pid].op.phase
    case Checked =>
      var reply := ZRemTrip(s.db, Key(prefix, queue, "failed"), id, wire);
      Proceed(s, pid, reply.db,
              match reply.result
              case Err(_) => P.Done(P.Faulted)
              case Ok(removed) => if removed then P.Claimed else P.Done(P.NotFailed))
    case Claimed =>
      (match HGetTrip(s.db, Key(prefix, queue, "meta"), "paused", wire)
       case Err(_) => Proceed(s, pid, s.db, P.Done(P.Faulted))
       case Ok(flag) => Proceed(s, pid, s.db, P.Targeted(if flag.Some? && flag.value != "" then Paused else Wait)))
    case Targeted(to) =>
      var reply := ExecTrip(s.db, RetryCommands(prefix, queue, id, Key(prefix, queue, Suffix(to))), wire);
      Proceed(s, pid, reply.db, P.Done(if reply.result.Ok? then P.Succeeded else P.Faulted))
    case Deleting =>
      var reply := ExecTrip(s.db, DeleteCommands(prefix, queue, id), wire);
      Proceed(s, pid, reply.db, P.Done(if reply.result.Ok? then P.Succeeded else P.Faulted))
  }

  /** One step of an operation on one queue. */
  ghost predicate Next(s: State, prefix: string, queue: string, l: P.Label, s': State) {
    match l
    case RetryBegin(pid, id) => Fresh(s, prefix, queue, pid, id) && s' == Begin(s, prefix, queue, pid, id, true, Fine)
    case DeleteBegin(pid, id) => Fresh(s, prefix, queue, pid, id) && s' == Begin(s, prefix, queue, pid, id, false, Fine)
    case ExistsFault(pid, id, retry) =>
      Fresh(s, prefix, queue, pid, id) && s' == Begin(s, prefix, queue, pid, id, retry, Broken(false))
    case Fault(pid, effect) => Standing(s, queue, pid) && s' == Trip(s, prefix, pid, Broken(effect))
    case Claim(pid) => TripDue(s, prefix, queue, l, pid, s')
    case ReadPaused(pid) => TripDue(s, prefix, queue, l, pid, s')
    case Requeue(pid) => TripDue(s, prefix, queue, l, pid, s')
    case DeleteCommit(pid) => TripDue(s, prefix, queue, l, pid, s')
    case _ => false
  }

  predicate TripDue(s: State, prefix: string, queue: string, l: P.Label, pid: nat, s': State) {
    Standing(s, queue, pid) && Due(l, s.tasks[pid].op.phase) && s' == Trip(s, prefix, pid, Fine)
  }

  /** A request names a job: its id is plain, and the key of the id holds a hash or nothing. */
  predicate Fresh(s: State, prefix: string, queue: string, pid: nat, id: string) {
    pid !in s.tasks && PlainId(id) && JobTyped(s.db, prefix, queue, id)
  }

  predicate Due(l: P.Label, phase: P.Phase) {
    || (l.Claim? && phase.Checked?) || (l.ReadPaused? && phase.Claimed?)
    || (l.Requeue? && phase.Targeted?) || (l.DeleteCommit? && phase.Deleting?)
  }

  /**
   * One atomic step of workers, producers or pause/resume, such as a script of BullMQ: it keeps to its queue and
   * to the types of the state keys, and leaves a hash or nothing under the ids that operations are about.
   */
  ghost predicate Environment(s: State, prefix: string, queue: string, s': State) {
    && s'.tasks == s.tasks && Typed(s'.db, prefix, queue)
    && (forall pid :: Standing(s, queue, pid) ==> JobTyped(s'.db, prefix, queue, s.tasks[pid].op.id))
    && forall other :: Apart(queue, other) ==> SameQueue(s.db, s'.db, prefix, other)
  }

  predicate Standing(s: State, queue: string, pid: nat) {
    pid in s.tasks && s.tasks[pid].queue == queue && !s.tasks[pid].op.phase.Done?
  }

  /** The keyspace and the tasks, seen from one queue, are a world of the protocol. */
  ghost predicate Matches(s: State, prefix: string, queue: string, w: P.World) {
    Typed(s.db, prefix, queue) && w.queue == View(s.db, prefix, queue) && w.ops == OpsOf(s.tasks, queue)
    && forall p :: p in w.ops ==> P.SaneOp(w.ops[p]) && NamesJob(s.db, prefix, queue, w.ops[p])
  }

  predicate NamesJob(db: Keyspace, prefix: string, queue: string, op: P.Op) {
    PlainId(op.id) && (op.phase.Done? || JobTyped(db, prefix, queue, op.id))
  }

  lemma OpsUpdate(tasks: map<nat, Task>, pid: nat, t: Task, queue: string)
    requires pid in tasks ==> tasks[pid].queue == t.queue
    ensures OpsOf(tasks[pid := t], queue)
            == if t.queue == queue then OpsOf(tasks, queue)[pid := t.op] else OpsOf(tasks, queue)
  {}

  // ---- one step ----

  lemma BeginRefines(s: State, prefix: string, queue: string, l: P.Label, s': State, w: P.World)
    requires l.RetryBegin? || l.DeleteBegin? || l.ExistsFault?
    requires ByAdapter(l) && Matches(s, prefix, queue, w) && Next(s, prefix, queue, l, s')
    ensures P.Enabled(w, l) && Matches(s', prefix, queue, P.Step(w, l))
  {
    hide View, Typed, Key, PlainId, JobTyped;
    KnownView(s.db, prefix, queue, l.id);
    OpsUpdate(s.tasks, l.pid, s'.tasks[l.pid], queue);
  }

  lemma ClaimRefines(s: State, prefix: string, queue: string, l: P.Label, s': State, w: P.World)
    requires l.Claim? || (l.Fault? && l.pid in s.tasks && s.tasks[l.pid].op.phase.Checked?)
    requires ByAdapter(l) && Matches(s, prefix, queue, w) && Next(s, prefix, queue, l, s')
    ensures P.Enabled(w, l) && Matches(s', prefix, queue, P.Step(w, l))
  {
    hide View, Typed, Key, Apply, P.Tally, Without, PlainId, JobTyped;
    var id := s.tasks[l.pid].op.id;
    OpsUpdate(s.tasks, l.pid, s'.tasks[l.pid], queue);
    forall x | PlainId(x) && JobTyped(s.db, prefix, queue, x) ensures JobTyped(s'.db, prefix, queue, x) {
      ClaimKeepsJob(s.db, prefix, queue, id, x);
    }
    ClaimView(s.db, prefix, queue, id);
    if id !in w.queue.failed { WithoutAbsent(w.queue.failed, id); }
  }

  lemma ReadRefines(s: State, prefix: string, queue: string, l: P.Label, s': State, w: P.World)
    requires l.ReadPaused? || (l.Fault? && l.pid in s.tasks && s.tasks[l.pid].op.phase.Claimed?)
    requires ByAdapter(l) && Matches(s, prefix, queue, w) && Next(s, prefix, queue, l, s')
    ensures P.Enabled(w, l) && Matches(s', prefix, queue, P.Step(w, l))
  {
    hide Typed, Key, P.Tally, View, HGetTrip, PlainId, JobTyped;
    FlagRead(s.db, prefix, queue);
    OpsUpdate(s.tasks, l.pid, s'.tasks[l.pid], queue);
  }

  lemma FlagRead(db: Keyspace, prefix: string, queue: string)
    requires Typed(db, prefix, queue)
    ensures var r := HGetTrip(db, Key(prefix, queue, "meta"), "paused", Fine);
            r.Ok? && ((r.value.Some? && r.value.value != "") <==> View(db, prefix, queue).isPaused)
    ensures forall effect :: HGetTrip(db, Key(prefix, queue, "meta"), "paused", Broken(effect)).Err?
  {}

  lemma ExecRefines(s: State, prefix: string, queue: string, l: P.Label, s': State, w: P.World)
    requires l.Requeue? || l.DeleteCommit?
             || (l.Fault? && l.pid in s.tasks
                 && (s.tasks[l.pid].op.phase.Targeted? || s.tasks[l.pid].op.phase.Deleting?))
    requires ByAdapter(l) && Matches(s, prefix, queue, w) && Next(s, prefix, queue, l, s')
    ensures P.Enabled(w, l) && Matches(s', prefix, queue, P.Step(w, l))
  {
    hide View, Typed, Key, Exec, RetryCommands, DeleteCommands, P.Tally, Queue.Requeued, Queue.Removed, Deleted;
    hide IsSubKey, JobTyped;
    var op := s.tasks[l.pid].op;
    ExecKeepsNames(s, prefix, queue, l, s');
    assert w.ops[l.pid] == op;
    OpsUpdate(s.tasks, l.pid, s'.tasks[l.pid], queue);
    if op.phase.Targeted? {
      RetryExec(s.db, prefix, queue, op.id, op.phase.to);
    } else {
      DeleteExec(s.db, prefix, queue, op.id);
      DeletedIsRemoved(View(s.db, prefix, queue), op.id);
    }
  }

  lemma ExecKeepsNames(s: State, prefix: string, queue: string, l: P.Label, s': State)
    requires ByAdapter(l) && Next(s, prefix, queue, l, s')
    requires l.pid in s.tasks && (s.tasks[l.pid].op.phase.Targeted? || s.tasks[l.pid].op.phase.Deleting?)
    ensures forall x :: PlainId(x) && JobTyped(s.db, prefix, queue, x) ==> JobTyped(s'.db, prefix, queue, x)
  {
    hide Key, Exec, RetryCommands, DeleteCommands, PlainId, JobTyped;
    var op := s.tasks[l.pid].op;
    forall x | PlainId(x) && JobTyped(s.db, prefix, queue, x) ensures JobTyped(s'.db, prefix, queue, x) {
      if op.phase.Targeted? { RetryKeepsJob(s.db, prefix, queue, op.id, op.phase.to, x); }
      else { DeleteKeepsJob(s.db, prefix, queue, op.id, x); }
    }
  }

  /** A step of the adapter is the protocol step of the same name; the protocol always allows it. */
  lemma AdapterStepRefines(s: State, prefix: string, queue: string, l: P.Label, s': State, w: P.World)
    requires ByAdapter(l) && Matches(s, prefix, queue, w) && Next(s, prefix, queue, l, s')
    ensures P.Enabled(w, l) && Matches(s', prefix, queue, P.Step(w, l))
  {
    hide Matches;
    match l
    case RetryBegin(_, _) => BeginRefines(s, prefix, queue, l, s', w);
    case DeleteBegin(_, _) => BeginRefines(s, prefix, queue, l, s', w);
    case ExistsFault(_, _, _) => BeginRefines(s, prefix, queue, l, s', w);
    case Claim(_) => ClaimRefines(s, prefix, queue, l, s', w);
    case ReadPaused(_) => ReadRefines(s, prefix, queue, l, s', w);
    case Requeue(_) => ExecRefines(s, prefix, queue, l, s', w);
    case DeleteCommit(_) => ExecRefines(s, prefix, queue, l, s', w);
    case Fault(pid, _) =>
      if s.tasks[pid].op.phase.Checked? { ClaimRefines(s, prefix, queue, l, s', w); }
      else if s.tasks[pid].op.phase.Claimed? { ReadRefines(s, prefix, queue, l, s', w); }
      else { ExecRefines(s, prefix, queue, l, s', w); }
  }

  /** No round trip on a queue is visible from another one that is not nested with it. */
  lemma StepElsewhere(s: State, prefix: string, queue: string, l: P.Label, s': State, other: string, w: P.World)
    requires ByAdapter(l) && Apart(queue, other)
    requires Next(s, prefix, queue, l, s') && Matches(s, prefix, other, w)
    ensures Matches(s', prefix, other, w)
  {
    hide View, Typed, Key, Apply, Exec, RetryCommands, DeleteCommands, Matches;
    SameSelf(s.db, prefix, other);
    OpsUpdate(s.tasks, l.pid, s'.tasks[l.pid], other);
    if !l.RetryBegin? && !l.DeleteBegin? && !l.ExistsFault? {
      var op := s.tasks[l.pid].op;
      ClaimElsewhere(s.db, prefix, queue, op.id, other);
      TargetOwn(prefix, queue, op);
      DeleteOwn(prefix, queue, op.id);
      ExecElsewhere(s.db, DeleteCommands(prefix, queue, op.id), prefix, queue, other);
      if op.phase.Targeted? {
        var commands := RetryCommands(prefix, queue, op.id, Key(prefix, queue, Suffix(op.phase.to)));
        ExecElsewhere(s.db, commands, prefix, queue, other);
      }
    }
    MatchesFrame(s, s', prefix, other, w);
  }

  lemma MatchesFrame(s: State, s': State, prefix: string, queue: string, w: P.World)
    requires Matches(s, prefix, queue, w) && SameQueue(s.db, s'.db, prefix, queue)
    requires OpsOf(s'.tasks, queue) == OpsOf(s.tasks, queue)
    ensures Matches(s', prefix, queue, w)
  {
    hide View, Typed, Key, PlainId;
    ViewFrame(s.db, s'.db, prefix, queue);
    forall p | p in w.ops ensures NamesJob(s'.db, prefix, queue, w.ops[p]) {
      assert SameAt(s.db, s'.db, Key(prefix, queue, w.ops[p].id));
    }
  }

  lemma SameSelf(db: Keyspace, prefix: string, queue: string)
    ensures SameQueue(db, db, prefix, queue)
  {}

  lemma TargetOwn(prefix: string, queue: string, op: P.Op)
    ensures op.phase.Targeted?
            ==> OwnCommands(prefix, queue, RetryCommands(prefix, queue, op.id, Key(prefix, queue, Suffix(op.phase.to))))
  {}

  // ---- an operation that nothing interrupts ----

  function Remaining(phase: P.Phase): nat {
    match phase case Checked => 3 case Claimed => 2 case Targeted(_) => 1 case Deleting => 1 case Done(_) => 0
  }

  /** All remaining round trips of a task, one after the other. */
  function Finish(s: State, prefix: string, pid: nat, net: Network, n: nat): (s': State)
    requires pid in s.tasks
    ensures pid in s'.tasks && s'.tasks[pid].op.phase.Done?
    decreases Remaining(s.tasks[pid].op.phase)
  {
    if s.tasks[pid].op.phase.Done? then s else Finish(Trip(s, prefix, pid, net(n)), prefix, pid, net, n + 1)
  }

  function AnswerOf(r: Result<()>): P.Answer {
    if r.Ok? then P.Succeeded
    else if r.message == MESSAGE_NOT_FOUND then P.NotFound
    else if r.message == NOT_IN_FAILED_STATE then P.NotFailed
    else P.Faulted
  }

  /** RetryMessage is its round trips in sequence, over any network. */
  lemma RetryIsItsTrips(db: Keyspace, prefix: string, queue: string, id: string, net: Network)
    ensures var s := Finish(Begin(State(db, map[]), prefix, queue, 0, id, true, net(0)), prefix, 0, net, 1);
            var r := Retry(db, prefix, queue, id, net);
            s.db == r.db && s.tasks[0].op.phase == P.Done(AnswerOf(r.result))
  {
    hide Key, Exec, Apply, RetryCommands;
    SuffixesAre();
    var s1 := Begin(State(db, map[]), prefix, queue, 0, id, true, net(0));
    if s1.tasks[0].op.phase.Checked? {
      var s2 := Trip(s1, prefix, 0, net(1));
      if s2.tasks[0].op.phase.Claimed? {
        var s3 := Trip(s2, prefix, 0, net(2));
        if s3.tasks[0].op.phase.Targeted? {
          assert Finish(s3, prefix, 0, net, 3) == Trip(s3, prefix, 0, net(3));
        }
        assert Finish(s2, prefix, 0, net, 2) == Finish(s3, prefix, 0, net, 3);
      }
    }
  }

  /** DeleteMessage is its round trips in sequence, over any network. */
  lemma DeleteIsItsTrips(db: Keyspace, prefix: string, queue: string, id: string, net: Network)
    ensures var s := Finish(Begin(State(db, map[]), prefix, queue, 0, id, false, net(0)), prefix, 0, net, 1);
            var r := Delete(db, prefix, queue, id, net);
            s.db == r.db && s.tasks[0].op.phase == P.Done(AnswerOf(r.result))
  {}

  // ---- whole runs ----

  /** The system, with the protocol history of each of its queues beside it. */
  datatype System = System(state: State, worlds: map<string, P.World>)

  ghost predicate Consistent(sys: System, prefix: string) {
    && (forall q :: q in sys.worlds ==> Matches(sys.state, prefix, q, sys.worlds[q]) && P.Inv(sys.worlds[q]))
    && AllApart(sys.worlds.Keys)
  }

  predicate AllApart(queues: set<string>) {
    forall q1, q2 :: q1 in queues && q2 in queues && q1 != q2 ==> Apart(q1, q2)
  }

  /**
   * A round trip of the adapter, or one atomic step of the environment. The latter may be any sequence of the
   * changes that the protocol allows: a script that moves a job, fetches the next one and logs both is one turn.
   */
  datatype Turn = Adapter(queue: string, step: P.Label) | Work(queue: string, steps: seq<P.Label>)

  function Labels(t: Turn): seq<P.Label> { if t.Adapter? then [t.step] else t.steps }

  predicate AllWork(steps: seq<P.Label>) { forall i :: 0 <= i < |steps| ==> !ByAdapter(steps[i]) }

  /** Nothing is required of the adapter's round trips beyond what the code does. */
  ghost predicate SystemStep(a: System, prefix: string, t: Turn, b: System) {
    && t.queue in a.worlds
    && (match t
        case Adapter(queue, l) => ByAdapter(l) && Next(a.state, prefix, queue, l, b.state)
        case Work(queue, steps) =>
          && Environment(a.state, prefix, queue, b.state) && AllWork(steps) && P.Legal(a.worlds[queue], steps)
          && View(b.state.db, prefix, queue) == P.Run(a.worlds[queue], steps).queue)
    && (P.Legal(a.worlds[t.queue], Labels(t)) ==>
          b.worlds == a.worlds[t.queue := P.Run(a.worlds[t.queue], Labels(t))])
  }

  lemma SystemStepKeeps(a: System, prefix: string, t: Turn, b: System)
    requires Consistent(a, prefix) && SystemStep(a, prefix, t, b)
    ensures P.Legal(a.worlds[t.queue], Labels(t)) && b.worlds.Keys == a.worlds.Keys && Consistent(b, prefix)
  {
    hide View, Typed, P.Inv, Next, P.Enabled, P.Step, P.Legal, P.Run, Matches, Environment, AllWork;
    var w := a.worlds[t.queue];
    if t.Adapter? {
      AdapterStepRefines(a.state, prefix, t.queue, t.step, b.state, w);
      OneStep(w, t.step);
    } else {
      WorkRefines(a.state, prefix, t.queue, t.steps, b.state, w);
    }
    P.RunKeeps(w, Labels(t));
    forall q | q in b.worlds ensures Matches(b.state, prefix, q, b.worlds[q]) && P.Inv(b.worlds[q]) {
      if q != t.queue {
        assert Apart(t.queue, q);
        if t.Adapter? { StepElsewhere(a.state, prefix, t.queue, t.step, b.state, q, a.worlds[q]); }
        else { WorkElsewhere(a.state, prefix, t.queue, b.state, q, a.worlds[q]); }
      }
    }
  }

  lemma WorkElsewhere(s: State, prefix: string, queue: string, s': State, other: string, w: P.World)
    requires Apart(queue, other) && Environment(s, prefix, queue, s') && Matches(s, prefix, other, w)
    ensures Matches(s', prefix, other, w)
  {
    hide View, Typed, Key, Matches, SameQueue, Apart;
    MatchesFrame(s, s', prefix, other, w);
  }

  lemma WorkRefines(s: State, prefix: string, queue: string, steps: seq<P.Label>, s': State, w: P.World)
    requires Matches(s, prefix, queue, w) && Environment(s, prefix, queue, s') && AllWork(steps)
    requires P.Legal(w, steps) && View(s'.db, prefix, queue) == P.Run(w, steps).queue
    ensures Matches(s', prefix, queue, P.Run(w, steps))
  {
    hide View, Typed, P.Legal, P.Run, JobTyped, PlainId, SameQueue;
    WorkKeepsOps(w, steps);
  }

  lemma {:induction false} WorkKeepsOps(w: P.World, steps: seq<P.Label>)
    requires AllWork(steps) && P.Legal(w, steps)
    ensures P.Run(w, steps).ops == w.ops
    decreases |steps|
  {
    if steps != [] {
      assert !ByAdapter(steps[0]);
      assert AllWork(steps[1..]) by { assert forall i :: 0 <= i < |steps[1..]| ==> steps[1..][i] == steps[i + 1]; }
      assert P.Step(w, steps[0]).ops == w.ops by { hide Without, Lasting; }
      WorkKeepsOps(P.Step(w, steps[0]), steps[1..]);
    }
  }

  /**
   * With no task under way, a typed keyspace is a consistent start for any queues that are not nested and
   * that hold no id twice, nor one without a lasting hash. Their other keys may hold anything.
   */
  lemma ConsistentStart(db: Keyspace, prefix: string, queues: set<string>)
    requires AllApart(queues)
    requires forall q :: q in queues ==> Typed(db, prefix, q) && forall id :: P.AtRestFor(View(db, prefix, q), id)
    ensures Consistent(System(State(db, map[]), map q | q in queues :: P.StartWorld(View(db, prefix, q))), prefix)
    ensures forall q :: q in queues ==> P.Initial(P.StartWorld(View(db, prefix, q)))
  {
    hide View, Typed, P.Initial, P.Inv, P.AtRestFor;
    forall q | q in queues ensures P.Initial(P.StartWorld(View(db, prefix, q)))
      && P.Inv(P.StartWorld(View(db, prefix, q))) {
      P.StartIff(View(db, prefix, q));
      P.InitialInv(P.StartWorld(View(db, prefix, q)));
    }
  }

  const DATA: Hash := map["data" := "{}"]

  /**
   * A queue as BullMQ leaves it: a failed job, the counter of ids (a string), a flow parent waiting for its children
   * (in a sorted set the adapter does not know), and the hash of a repeat schedule.
   */
  const SEEDED: map<string, Value> :=
    map["id" := OtherV, "meta" := HashV(map["version" := "bullmq"]), "failed" := ZSetV([ZEntry("7", 1)]),
        "waiting-children" := ZSetV([ZEntry("8", 1)]), "7" := HashV(DATA), "8" := HashV(DATA),
        "repeat:r" := HashV(DATA)]

  const SEEDED_JOBS: map<string, Hash> := map["7" := DATA, "8" := DATA, "repeat:r" := DATA]

  /** A queue's keys, given by their suffixes. */
  function Laid(prefix: string, queue: string, content: map<string, Value>): Keyspace {
    map k | k in (set s | s in content :: Key(prefix, queue, s)) && k[|Stem(prefix, queue)|..] in content
      :: content[k[|Stem(prefix, queue)|..]]
  }

  lemma LaidAt(prefix: string, queue: string, content: map<string, Value>, s: string)
    ensures var db := Laid(prefix, queue, content);
            && (Key(prefix, queue, s) in db <==> s in content)
            && (s in content ==> db[Key(prefix, queue, s)] == content[s])
  {
    KeyIsStem(prefix, queue, s);
    forall t | Key(prefix, queue, t) == Key(prefix, queue, s) ensures t == s { SuffixInjective(prefix, queue, t, s); }
    hide Key;
  }

  lemma SeededJobs(prefix: string, queue: string)
    ensures Jobs(Laid(prefix, queue, SEEDED), prefix, queue) == SEEDED_JOBS
  {
    var jobs := Jobs(Laid(prefix, queue, SEEDED), prefix, queue);
    hide Key, Jobs, Laid, IsSubKey;
    forall id ensures id in jobs <==> id in SEEDED_JOBS ensures id in jobs ==> jobs[id] == SEEDED_JOBS[id] {
      JobsAt(Laid(prefix, queue, SEEDED), prefix, queue, id);
      LaidAt(prefix, queue, SEEDED, id);
      if id in SEEDED_JOBS { SeededPlain(id); }
    }
  }

  lemma SeededPlain(id: string)
    requires id in SEEDED_JOBS
    ensures PlainId(id)
  {
    assert forall sub :: sub in SUB_SUFFIXES ==> !HasSuffix(id, sub);
  }

  lemma SeededPlace(prefix: string, queue: string, p: Place)
    ensures var db := Laid(prefix, queue, SEEDED);
            PlaceOf(db, prefix, queue, p) == (if p == Failed then ["7"] else []) && PlaceTyped(db, prefix, queue, p)
  {
    hide Key, Laid, Suffix, SEEDED;
    LaidAt(prefix, queue, SEEDED, Suffix(p));
    SeededSuffix(p);
    assert Members([ZEntry("7", 1)]) == ["7"] && Members([]) == [];
  }

  lemma SeededSuffix(p: Place)
    ensures Suffix(p) in SEEDED <==> p == Failed
    ensures p == Failed ==> SEEDED[Suffix(p)] == ZSetV([ZEntry("7", 1)])
  {
    SuffixesAre();
  }

  lemma SeededExtras(prefix: string, queue: string)
    ensures var db := Laid(prefix, queue, SEEDED);
            && !FlagOf(db, prefix, queue) && MarkerOf(db, prefix, queue) == {} && EventsOf(db, prefix, queue) == []
            && HashAt(db, Key(prefix, queue, "meta")).Some? && ZSetAt(db, Key(prefix, queue, "marker")).Some?
            && StreamAt(db, Key(prefix, queue, "events")).Some?
  {
    LaidAt(prefix, queue, SEEDED, "meta");
    LaidAt(prefix, queue, SEEDED, "marker");
    LaidAt(prefix, queue, SEEDED, "events");
    hide Key, Laid;
    assert Members([]) == [];
  }

  const SEEDED_QUEUE := Queue([], [], [], [], ["7"], [], [], false, SEEDED_JOBS, {}, [])

  lemma SeededView(prefix: string, queue: string)
    ensures var db := Laid(prefix, queue, SEEDED);
            Typed(db, prefix, queue) && View(db, prefix, queue) == SEEDED_QUEUE
  {
    hide Key, Laid, Jobs, PlaceOf, PlaceTyped, FlagOf, MarkerOf, EventsOf;
    forall p: Place ensures var db := Laid(prefix, queue, SEEDED);
                            PlaceOf(db, prefix, queue, p) == (if p == Failed then ["7"] else [])
                            && PlaceTyped(db, prefix, queue, p)
    {
      SeededPlace(prefix, queue, p);
    }
    SeededExtras(prefix, queue);
    SeededJobs(prefix, queue);
  }

  lemma SeededRest(id: string)
    ensures P.AtRestFor(SEEDED_QUEUE, id)
    ensures id in SEEDED_JOBS && SEEDED_QUEUE.Occurrences(id) == 0 <==> id in {"8", "repeat:r"}
  {
    assert Lasting(DATA) by { assert "data" in DATA - VOLATILE; }
  }

  /** Such a queue is a consistent start, with its parent and its schedule parked. */
  lemma SeededStart(prefix: string, queue: string)
    ensures var db := Laid(prefix, queue, SEEDED);
            && Consistent(System(State(db, map[]), map q | q in {queue} :: P.StartWorld(View(db, prefix, q))), prefix)
            && P.StartWorld(View(db, prefix, queue)).parked == {"8", "repeat:r"}
  {
    hide View, Typed, Laid, P.AtRestFor, Queue.Occurrences;
    SeededView(prefix, queue);
    forall id
      ensures P.AtRestFor(SEEDED_QUEUE, id)
      ensures id in SEEDED_JOBS && SEEDED_QUEUE.Occurrences(id) == 0 <==> id in {"8", "repeat:r"}
    {
      SeededRest(id);
    }
    ConsistentStart(Laid(prefix, queue, SEEDED), prefix, {queue});
    hide Consistent;
  }

  ghost predicate Trace(states: seq<System>, prefix: string, turns: seq<Turn>) {
    && |states| == |turns| + 1
    && forall i :: 0 <= i < |turns| ==> SystemStep(states[i], prefix, turns[i], states[i + 1])
  }

  lemma {:induction false} TraceKeeps(states: seq<System>, prefix: string, turns: seq<Turn>, i: nat)
    requires Trace(states, prefix, turns) && i < |states| && Consistent(states[0], prefix)
    ensures Consistent(states[i], prefix)
  {
    hide Consistent, SystemStep;
    if i > 0 {
      TraceKeeps(states, prefix, turns, i - 1);
      SystemStepKeeps(states[i - 1], prefix, turns[i - 1], states[i]);
    }
  }

  /** What the first `n` turns did to one queue. */
  function StepsOf(turns: seq<Turn>, n: nat, queue: string): seq<P.Label>
    requires n <= |turns|
  {
    if n == 0 then []
    else StepsOf(turns, n - 1, queue) + if turns[n - 1].queue == queue then Labels(turns[n - 1]) else []
  }

  /**
   * Along every run, the turns of each queue are a legal run of the protocol, and the keyspace read
   * through that queue's keys, with its tasks, is the state which that run reaches.
   */
  lemma {:induction false} TraceRefines(states: seq<System>, prefix: string, turns: seq<Turn>, i: nat, queue: string)
    requires Trace(states, prefix, turns) && i < |states| && Consistent(states[0], prefix) && queue in states[0].worlds
    ensures var w0, run := states[0].worlds[queue], StepsOf(turns, i, queue);
            && P.Legal(w0, run) && queue in states[i].worlds && states[i].worlds[queue] == P.Run(w0, run)
            && Matches(states[i].state, prefix, queue, P.Run(w0, run))
  {
    hide Matches, Next, Environment, Labels, AllWork, P.Step, P.Enabled, P.Inv, View;
    TraceKeeps(states, prefix, turns, i);
    if i > 0 {
      TraceRefines(states, prefix, turns, i - 1, queue);
      TraceKeeps(states, prefix, turns, i - 1);
      var t, run := turns[i - 1], StepsOf(turns, i - 1, queue);
      SystemStepKeeps(states[i - 1], prefix, t, states[i]);
      if t.queue == queue {
        Runs.Join(states[0].worlds[queue], run, Labels(t));
      } else {
        assert run + [] == run;
      }
    }
  }

  lemma OneStep(w: P.World, l: P.Label)
    requires P.Enabled(w, l)
    ensures P.Legal(w, [l]) && P.Run(w, [l]) == P.Step(w, l)
  {}

  /**
   * In the keyspace itself: however the round trips of all queues interleave, no id is twice in the
   * structures of a queue, and a job outside all of them is parked, held, stranded or overwritten.
   */
  lemma KeyspaceAccount(states: seq<System>, prefix: string, turns: seq<Turn>, i: nat, queue: string, id: string)
    requires Trace(states, prefix, turns) && i < |states| && Consistent(states[0], prefix) && queue in states[0].worlds
    ensures queue in states[i].worlds
    ensures var s := states[i].state; var ledger := states[i].worlds[queue].ledger;
            var there := View(s.db, prefix, queue).Occurrences(id) + P.Weight(id in states[i].worlds[queue].parked)
                         + P.Tally(OpsOf(s.tasks, queue), P.Holding, id);
            && there <= 1
            && (IsJob(s.db, prefix, queue, id) ==> there + ledger.stranded[id] + ledger.overwritten[id] == 1)
  {
    TraceKeeps(states, prefix, turns, i);
    TraceRefines(states, prefix, turns, i, queue);
    var w := states[i].worlds[queue];
    assert P.Accounted(w, id);
    JobsAt(states[i].state.db, prefix, queue, id);
    ViewParts(states[i].state.db, prefix, queue);
  }

  /**
   * Exactly when the keyspace still has a job in place: no turn of its queue was a fault that took the claim
   * without the push, or a rename over a list that held the job.
   */
  lemma KeyspaceKeepsJobIff(states: seq<System>, prefix: string, turns: seq<Turn>, i: nat, queue: string, id: string)
    requires Trace(states, prefix, turns) && i < |states| && Consistent(states[0], prefix) && queue in states[0].worlds
    requires P.Initial(states[0].worlds[queue]) && IsJob(states[i].state.db, prefix, queue, id)
    ensures queue in states[i].worlds && P.Legal(states[0].worlds[queue], StepsOf(turns, i, queue))
    ensures var s := states[i].state;
            View(s.db, prefix, queue).Occurrences(id) + P.Weight(id in states[i].worlds[queue].parked)
            + P.Tally(OpsOf(s.tasks, queue), P.Holding, id) == 1
            <==> Runs.Spared(states[0].worlds[queue], StepsOf(turns, i, queue), id)
  {
    hide SystemStep, P.Initial, Runs.Spared, P.Legal, P.Run, Typed, View, IsJob, P.Tally, Queue.Occurrences;
    TraceRefines(states, prefix, turns, i, queue);
    JobsAt(states[i].state.db, prefix, queue, id);
    ViewParts(states[i].state.db, prefix, queue);
    Runs.JobKeptIff(states[0].worlds[queue], StepsOf(turns, i, queue), id);
  }

  /** So ListMessages, in any state a run reaches, lists no message twice. */
  lemma ReachableListingHasNoDuplicates(states: seq<System>, prefix: string, turns: seq<Turn>, i: nat, queue: string,
                                        filter: Listing.Filter, matches: Listing.Matcher, id: string)
    requires Trace(states, prefix, turns) && i < |states| && Consistent(states[0], prefix) && queue in states[0].worlds
    ensures var r := Listing.Windowed(states[i].state.db, prefix, queue, Listing.StatusesFor(filter.status),
                                      Listing.NormalizeLimit(filter.limit), filter.query, matches, []);
            r.Ok? ==> ListingMeaning.CountId(r.value, id) <= 1
  {
    hide Trace, Listing.Windowed, ListingMeaning.CountId, View, Typed, P.Tally, Queue.Occurrences;
    KeyspaceAccount(states, prefix, turns, i, queue, id);
    TraceRefines(states, prefix, turns, i, queue);
    ListingMeaning.ListedAtMostHeld(states[i].state.db, prefix, queue, filter, matches, id);
  }
}
