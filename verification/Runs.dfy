/** What holds over whole runs of the retry/delete protocol, and the two ways in which it loses a job. */
module Runs {
  import opened Queues
  import opened Redis
  import opened Protocol

  // ---- uniqueness and conservation ----

  lemma ReachableAccount(w0: World, run: seq<Label>, id: string)
    requires Initial(w0) && Legal(w0, run)
    ensures Accounted(Run(w0, run), id)
  {
    InitialInv(w0);
    RunKeeps(w0, run);
  }

  /** No id is ever in two structures, nor in one while it is parked or a retry holds it, nor held by two retries. */
  lemma ConcurrentUniqueness(w0: World, run: seq<Label>, id: string)
    requires Initial(w0) && Legal(w0, run)
    ensures var w := Run(w0, run); w.queue.Occurrences(id) + Weight(id in w.parked) + Tally(w.ops, Holding, id) <= 1
  {
    ReachableAccount(w0, run, id);
  }

  /**
   * A job that still has its hash is in one structure, parked, held by one retry, stranded once, or overwritten
   * once.
   */
  lemma NoJobUnaccounted(w0: World, run: seq<Label>, id: string)
    requires Initial(w0) && Legal(w0, run) && id in Run(w0, run).queue.jobs
    ensures var w := Run(w0, run);
            w.queue.Occurrences(id) + Weight(id in w.parked) + Tally(w.ops, Holding, id)
            + w.ledger.stranded[id] + w.ledger.overwritten[id] == 1
  {
    ReachableAccount(w0, run, id);
  }

  // ---- when nothing is stranded or overwritten ----

  predicate FaultFree(run: seq<Label>) { forall i :: 0 <= i < |run| ==> !run[i].Fault? }

  lemma {:induction false} FaultFreeStrandsNothing(w: World, run: seq<Label>)
    requires Legal(w, run) && FaultFree(run)
    ensures Run(w, run).ledger.stranded == w.ledger.stranded
    decreases |run|
  {
    if run != [] {
      assert !run[0].Fault?;
      assert FaultFree(run[1..]) by { assert forall i :: 0 <= i < |run[1..]| ==> run[1..][i] == run[i + 1]; }
      FaultFreeStrandsNothing(Step(w, run[0]), run[1..]);
    }
  }

  /** Exactly the list that pause, or resume, writes to must be empty. */
  lemma OverwritesIff(w: World, pausing: bool)
    ensures Toggle(w, pausing).ledger.overwritten != w.ledger.overwritten
            <==> w.queue.wait != [] && w.queue.paused != []
    ensures (forall id :: Toggle(w, pausing).queue.Occurrences(id) == w.queue.Occurrences(id))
            <==> w.queue.wait == [] || w.queue.paused == []
  {
    var target := if pausing then w.queue.paused else w.queue.wait;
    if target != [] {
      assert multiset(target)[target[0]] > 0;
      assert (w.ledger.overwritten + multiset(target))[target[0]] > w.ledger.overwritten[target[0]];
      var id := target[0];
      if w.queue.wait != [] && w.queue.paused != [] {
        assert Toggle(w, pausing).queue.Occurrences(id) != w.queue.Occurrences(id);
      }
    }
  }

  /** A retry's push lands where the pause flag points at that moment. */
  predicate Punctual(w: World, l: Label) {
    l.Requeue? || (l.Fault? && l.effect) ==>
      l.pid in w.ops && (w.ops[l.pid].phase.Targeted? ==> w.ops[l.pid].phase.to == w.queue.Target())
  }

  predicate AllPunctual(w: World, run: seq<Label>)
    requires Legal(w, run)
    decreases |run|
  {
    run != [] ==> Punctual(w, run[0]) && AllPunctual(Step(w, run[0]), run[1..])
  }

  /** Only the list that the pause flag selects is in use. */
  predicate Tidy(q: Queue) { (q.isPaused ==> q.wait == []) && (!q.isPaused ==> q.paused == []) }

  lemma TidyStep(w: World, l: Label)
    requires Enabled(w, l) && OpsSane(w) && Tidy(w.queue) && Punctual(w, l)
    ensures Tidy(Step(w, l).queue)
    ensures Step(w, l).ledger.overwritten == w.ledger.overwritten
  {
    hide Tally, Without, Lasting, Tidy, Queue.Removed, Queue.Dropped, Queue.Requeued, Queue.Claimed, PutAt;
    match l
    case Claim(pid) => TidyClaimed(w.queue, w.ops[pid].id);
    case Requeue(pid) => TidyRequeued(w.queue, w.ops[pid].id);
    case DeleteCommit(pid) => TidyRemoved(w.queue, w.ops[pid].id);
    case Fault(pid, _) =>
      TidyClaimed(w.queue, w.ops[pid].id);
      TidyRequeued(w.queue, w.ops[pid].id);
      TidyRemoved(w.queue, w.ops[pid].id);
    case Add(id, to, rank, hash) => TidyPut(w.queue, to, rank, id, w.queue.jobs[id := hash]);
    case Move(id, from, to, rank) =>
      TidyTaken(w.queue, from, id);
      TidyPut(w.queue.With(from, Without(w.queue.At(from), id)), to, rank, id, w.queue.jobs);
    case AddParked(id, hash) => TidyJobs(w.queue, w.queue.jobs[id := hash], w.queue.marker, w.queue.events);
    case Park(id, from) => TidyTaken(w.queue, from, id);
    case Unpark(id, to, rank) => TidyPut(w.queue, to, rank, id, w.queue.jobs);
    case Drop(id) => TidyRemoved(w.queue, id);
    case Rewrite(id, hash) => TidyJobs(w.queue, w.queue.jobs[id := hash], w.queue.marker, w.queue.events);
    case Pause => TidyToggle(w, true);
    case Resume => TidyToggle(w, false);
    case Mark(m) => TidyJobs(w.queue, w.queue.jobs, m, w.queue.events);
    case Log(e) => TidyJobs(w.queue, w.queue.jobs, w.queue.marker, e);
    case _ =>
  }

  lemma TidyClaimed(q: Queue, id: string)
    requires Tidy(q)
    ensures Tidy(q.Claimed(id))
  {}

  lemma TidyRequeued(q: Queue, id: string)
    requires Tidy(q)
    ensures Tidy(q.Requeued(id, q.Target()))
  {}

  lemma TidyRemoved(q: Queue, id: string)
    requires Tidy(q)
    ensures Tidy(q.Removed(id)) && Tidy(q.Dropped(id))
  {}

  lemma TidyTaken(q: Queue, from: Place, id: string)
    requires Tidy(q)
    ensures Tidy(q.With(from, Without(q.At(from), id)))
    ensures q.With(from, Without(q.At(from), id)).isPaused == q.isPaused
    ensures q.With(from, Without(q.At(from), id)).jobs == q.jobs
  {}

  lemma TidyPut(q: Queue, to: Place, rank: nat, id: string, jobs: map<string, Hash>)
    requires Tidy(q) && rank <= |q.At(to)| && Respects(q, to)
    ensures Tidy(PutAt(q, to, rank, id).(jobs := jobs))
    ensures PutAt(q, to, rank, id).(jobs := q.jobs) == PutAt(q, to, rank, id)
  {}

  lemma TidyJobs(q: Queue, jobs: map<string, Hash>, marker: set<string>, events: seq<map<string, string>>)
    requires Tidy(q)
    ensures Tidy(q.(jobs := jobs)) && Tidy(q.(marker := marker)) && Tidy(q.(events := events))
  {}

  lemma TidyToggle(w: World, pausing: bool)
    requires Tidy(w.queue)
    ensures Tidy(Toggle(w, pausing).queue)
    ensures Toggle(w, pausing).ledger.overwritten == w.ledger.overwritten
  {}

  /** If every push is punctual, no RENAME ever overwrites a list. */
  lemma {:induction false} PunctualOverwritesNothing(w: World, run: seq<Label>)
    requires Legal(w, run) && Inv(w) && Tidy(w.queue) && AllPunctual(w, run)
    ensures Run(w, run).ledger.overwritten == w.ledger.overwritten
    ensures Tidy(Run(w, run).queue)
    decreases |run|
  {
    if run != [] {
      TidyStep(w, run[0]);
      StepKeeps(w, run[0]);
      PunctualOverwritesNothing(Step(w, run[0]), run[1..]);
    }
  }

  /** The pause flag changes under a retry that has read it and not yet pushed. */
  predicate Disturbs(w: World, l: Label) {
    && (l.Pause? || l.Resume?)
    && exists p :: p in w.ops && w.ops[p].phase.Targeted?
  }

  predicate Undisturbed(w: World, run: seq<Label>)
    requires Legal(w, run)
    decreases |run|
  {
    run != [] ==> !Disturbs(w, run[0]) && Undisturbed(Step(w, run[0]), run[1..])
  }

  predicate Current(w: World) {
    forall p :: p in w.ops ==> (w.ops[p].phase.Targeted? ==> w.ops[p].phase.to == w.queue.Target())
  }

  lemma CurrentStep(w: World, l: Label)
    requires Enabled(w, l) && Current(w) && !Disturbs(w, l)
    ensures Current(Step(w, l)) && Punctual(w, l)
  {
    var w' := Step(w, l);
    assert l.Pause? || l.Resume? || w'.queue.isPaused == w.queue.isPaused;
    forall p | p in w'.ops && w'.ops[p].phase.Targeted? ensures w'.ops[p].phase.to == w'.queue.Target() {
      if p in w.ops && w.ops[p] == w'.ops[p] {
        assert w.ops[p].phase.Targeted?;
      }
    }
  }

  lemma {:induction false} UndisturbedIsPunctual(w: World, run: seq<Label>)
    requires Legal(w, run) && Current(w) && Undisturbed(w, run)
    ensures AllPunctual(w, run)
    decreases |run|
  {
    if run != [] {
      CurrentStep(w, run[0]);
      UndisturbedIsPunctual(Step(w, run[0]), run[1..]);
    }
  }

  predicate SettledOps(ops: map<nat, Op>) { forall p :: p in ops ==> ops[p].phase.Done? }

  predicate Quiescent(w: World) { SettledOps(w.ops) }

  /** A pause or resume renames a nonempty list over one that holds the id. */
  predicate Overwrites(w: World, l: Label, id: string) {
    || (l.Pause? && w.queue.wait != [] && id in w.queue.paused)
    || (l.Resume? && w.queue.paused != [] && id in w.queue.wait)
  }

  /** No step of the run strands the id or overwrites it. */
  predicate Spared(w: World, run: seq<Label>, id: string)
    requires Legal(w, run)
    decreases |run|
  {
    run != [] ==>
      !Strands(w, run[0], id) && !Overwrites(w, run[0], id) && Spared(Step(w, run[0]), run[1..], id)
  }

  function Lost(w: World, id: string): nat { w.ledger.stranded[id] + w.ledger.overwritten[id] }

  /** A step loses an id exactly when it strands or overwrites it. */
  lemma LossStep(w: World, l: Label, id: string)
    requires Inv(w) && Enabled(w, l)
    ensures Lost(Step(w, l), id) >= Lost(w, id)
    ensures Lost(Step(w, l), id) == Lost(w, id) <==> !Strands(w, l, id) && !Overwrites(w, l, id)
  {
    hide Tally, Without, Lasting, Queue.Occurrences, Accounted, Toggle, PutAt, Queue.With;
    if l.Fault? {
      assert Accounted(w, w.ops[l.pid].id) && Accounted(w, id);
      assert w.ops[l.pid].id in w.queue.jobs ==> Lasting(w.queue.jobs[w.ops[l.pid].id]) by {
        AccountLasts(w, w.ops[l.pid].id);
      }
      FaultKeeps(w, l.pid, l.effect, id);
    } else if l.Pause? || l.Resume? {
      ToggleLoss(w, l.Pause?, id);
    }
  }

  lemma ToggleLoss(w: World, pausing: bool, id: string)
    ensures var lost := Lost(Toggle(w, pausing), id);
            && lost >= Lost(w, id)
            && (lost == Lost(w, id) <==> !Overwrites(w, if pausing then Pause else Resume, id))
  {
    assert id in w.queue.wait <==> id in multiset(w.queue.wait);
    assert id in w.queue.paused <==> id in multiset(w.queue.paused);
  }

  lemma {:induction false} LostIff(w: World, run: seq<Label>, id: string)
    requires Inv(w) && Legal(w, run)
    ensures Lost(Run(w, run), id) >= Lost(w, id)
    ensures Lost(Run(w, run), id) == Lost(w, id) <==> Spared(w, run, id)
    decreases |run|
  {
    hide Lost, Strands, Overwrites, Inv, Step;
    if run != [] {
      LossStep(w, run[0], id);
      StepKeeps(w, run[0]);
      LostIff(Step(w, run[0]), run[1..], id);
    }
  }

  /**
   * Exactly when a run keeps a job: no step of it is a fault that takes the claim without the push, or a
   * rename over a list that holds the job. The job is then in exactly one structure, parked, or in the hands
   * of exactly one retry.
   */
  lemma JobKeptIff(w0: World, run: seq<Label>, id: string)
    requires Initial(w0) && Legal(w0, run) && id in Run(w0, run).queue.jobs
    ensures var w := Run(w0, run);
            w.queue.Occurrences(id) + Weight(id in w.parked) + Tally(w.ops, Holding, id) == 1 <==> Spared(w0, run, id)
  {
    InitialInv(w0);
    NoJobUnaccounted(w0, run, id);
    LostIff(w0, run, id);
  }

  /**
   * So, whenever nothing is under way, a job is in exactly one structure if and only if the run spared it and
   * it is not parked.
   */
  lemma JobInOnePlaceIff(w0: World, run: seq<Label>, id: string)
    requires Initial(w0) && Legal(w0, run) && Quiescent(Run(w0, run)) && id in Run(w0, run).queue.jobs
    ensures Run(w0, run).queue.Occurrences(id) == 1 <==> Spared(w0, run, id) && id !in Run(w0, run).parked
  {
    JobKeptIff(w0, run, id);
    ConcurrentUniqueness(w0, run, id);
    assert Fitting(Run(w0, run).ops, Holding, id) == {};
  }

  /**
   * Runs without faults, and without a pause or resume between a retry's reading of the flag and its push,
   * spare every job.
   */
  lemma UndisturbedSpares(w0: World, run: seq<Label>, id: string)
    requires Initial(w0) && Tidy(w0.queue) && Legal(w0, run) && FaultFree(run) && Undisturbed(w0, run)
    ensures Spared(w0, run, id)
  {
    InitialInv(w0);
    FaultFreeStrandsNothing(w0, run);
    UndisturbedIsPunctual(w0, run);
    PunctualOverwritesNothing(w0, run);
    LostIff(w0, run, id);
  }

  lemma EveryJobInOnePlace(w0: World, run: seq<Label>, id: string)
    requires Initial(w0) && Tidy(w0.queue) && Legal(w0, run)
    requires FaultFree(run) && Undisturbed(w0, run) && Quiescent(Run(w0, run))
    requires id in Run(w0, run).queue.jobs && id !in Run(w0, run).parked
    ensures Run(w0, run).queue.Occurrences(id) == 1
  {
    UndisturbedSpares(w0, run, id);
    JobInOnePlaceIff(w0, run, id);
  }

  // ---- two runs that lose a job ----

  const BODY: Hash := map["data" := "x"]

  lemma BodyLasts()
    ensures Lasting(BODY) && BODY - VOLATILE == BODY
  {
    assert BODY - VOLATILE == BODY;
    assert "data" in BODY;
  }

  /** A lost reply after the claim leaves a job with its hash and in no structure. */
  lemma FaultLosesJob() returns (w0: World, run: seq<Label>)
    ensures Initial(w0) && Tidy(w0.queue) && Legal(w0, run) && Undisturbed(w0, run)
    ensures var w := Run(w0, run);
            Quiescent(w) && "b" in w.queue.jobs && w.queue.Occurrences("b") == 0 && w.parked == {}
  {
    hide Tally;
    BodyLasts();
    w0 := StartWorld(Queue([], [], [], [], ["b"], [], [], false, map["b" := BODY], {}, []));
    StartIff(w0.queue);
    var l1, l2, l3 := RetryBegin(0, "b"), Claim(0), Fault(0, false);
    var w1 := Step(w0, l1);
    var w2 := Step(w1, l2);
    var w3 := Step(w2, l3);
    assert w2.queue.failed == Without(["b"], "b") == [];
    Chain(w2, l3, []);
    Chain(w1, l2, [l3]);
    Chain(w0, l1, [l2, l3]);
    run := [l1, l2, l3];
  }

  lemma Chain(w: World, l: Label, rest: seq<Label>)
    requires Enabled(w, l) && Legal(Step(w, l), rest)
    ensures Legal(w, [l] + rest) && Run(w, [l] + rest) == Run(Step(w, l), rest)
    ensures !Disturbs(w, l) && Undisturbed(Step(w, l), rest) ==> Undisturbed(w, [l] + rest)
  {}

  /**
   * Without any fault: a retry reads the flag, the queue is paused, the retry pushes to `wait`, and resume
   * renames over it.
   */
  lemma StalePushLosesJob() returns (w0: World, run: seq<Label>)
    ensures Initial(w0) && Tidy(w0.queue) && Legal(w0, run) && FaultFree(run)
    ensures var w := Run(w0, run);
            Quiescent(w) && "b" in w.queue.jobs && w.queue.Occurrences("b") == 0 && w.parked == {}
  {
    BodyLasts();
    var q0 := Queue(["a"], [], [], [], ["b"], [], [], false, map["a" := BODY, "b" := BODY], {}, []);
    w0 := StartWorld(q0);
    StartIff(w0.queue);
    var first := [RetryBegin(0, "b"), Claim(0), ReadPaused(0)];
    var w3 := StaleReading(w0);
    assert w3.queue.Occurrences("b") == 0;
    var second := [Pause, Requeue(0), Resume];
    hide *;
    LatePush(w3);
    Join(w0, first, second);
    run := first + second;
  }

  lemma StaleReading(w0: World) returns (w3: World)
    requires w0.ops == map[] && w0.queue.failed == ["b"] && "b" in w0.queue.jobs && !w0.queue.isPaused
    ensures var run := [RetryBegin(0, "b"), Claim(0), ReadPaused(0)]; Legal(w0, run) && w3 == Run(w0, run)
    ensures w3.parked == w0.parked && w3.queue == w0.queue.(failed := [])
            && w3.ops == map[0 := Op(true, "b", Targeted(Wait))]
  {
    hide Tally, Lasting;
    var l1, l2, l3 := RetryBegin(0, "b"), Claim(0), ReadPaused(0);
    var w1 := Step(w0, l1);
    assert Without(["b"], "b") == [];
    var w2 := Step(w1, l2);
    w3 := Step(w2, l3);
    Chain(w2, l3, []);
    Chain(w1, l2, [l3]);
    Chain(w0, l1, [l2, l3]);
    assert [l1] + [l2, l3] == [l1, l2, l3];
  }

  lemma LatePush(w: World)
    requires w.ops == map[0 := Op(true, "b", Targeted(Wait))] && "b" in w.queue.jobs && Lasting(w.queue.jobs["b"])
    requires w.queue.wait == ["a"] && w.queue.paused == [] && !w.queue.isPaused
    ensures var run := [Pause, Requeue(0), Resume];
            && Legal(w, run) && SettledOps(Run(w, run).ops) && "b" in Run(w, run).queue.jobs
            && Run(w, run).queue.Occurrences("b") == w.queue.Occurrences("b") && Run(w, run).parked == w.parked
  {
    hide *;
    PauseMoves(w);
    var w1 := Step(w, Pause);
    PushMoves(w1);
    var w2 := Step(w1, Requeue(0));
    ResumeMoves(w2);
    var w3 := Step(w2, Resume);
    RunNothing(w3);
    Chain(w2, Resume, []);
    assert [Resume] + [] == [Resume];
    Chain(w1, Requeue(0), [Resume]);
    assert [Requeue(0)] + [Resume] == [Requeue(0), Resume];
    Chain(w, Pause, [Requeue(0), Resume]);
    assert [Pause] + [Requeue(0), Resume] == [Pause, Requeue(0), Resume];
  }

  lemma RunNothing(w: World)
    ensures Legal(w, []) && Run(w, []) == w
  {}

  lemma PauseMoves(w: World)
    requires w.queue.wait == ["a"] && w.queue.paused == []
    ensures Enabled(w, Pause)
    ensures var w' := Step(w, Pause);
            && w'.ops == w.ops && w'.parked == w.parked
               && w'.queue == w.queue.(isPaused := true, wait := [], paused := ["a"])
            && w'.queue.Occurrences("b") == w.queue.Occurrences("b")
  {}

  lemma PushMoves(w: World)
    requires w.ops == map[0 := Op(true, "b", Targeted(Wait))] && "b" in w.queue.jobs && Lasting(w.queue.jobs["b"])
    requires w.queue.wait == []
    ensures Enabled(w, Requeue(0))
    ensures var w' := Step(w, Requeue(0));
            && w'.parked == w.parked && SettledOps(w'.ops) && "b" in w'.queue.jobs && w'.queue.wait == ["b"]
               && w'.queue.paused == w.queue.paused
            && w'.queue.Occurrences("b") == w.queue.Occurrences("b") + 1
  {}

  lemma ResumeMoves(w: World)
    requires w.queue.wait == ["b"] && w.queue.paused == ["a"]
    ensures Enabled(w, Resume)
    ensures var w' := Step(w, Resume);
            && w'.ops == w.ops && w'.queue.jobs == w.queue.jobs && w'.parked == w.parked
            && w'.queue.Occurrences("b") == w.queue.Occurrences("b") - 1
  {}

  lemma {:induction false} Join(w: World, first: seq<Label>, second: seq<Label>)
    requires Legal(w, first) && Legal(Run(w, first), second)
    ensures Legal(w, first + second) && Run(w, first + second) == Run(Run(w, first), second)
    decreases |first|
  {
    if first == [] {
      assert first + second == second;
    } else {
      Join(Step(w, first[0]), first[1..], second);
      assert (first + second)[1..] == first[1..] + second;
    }
  }

  // ---- claims are exclusive ----

  predicate EntersFailed(l: Label, id: string) {
    (l.Add? || l.Move? || l.Unpark?) && l.id == id && l.to == Failed
  }

  /** How often an id enters `failed` in a run. */
  function Entries(run: seq<Label>, id: string): nat {
    if run == [] then 0 else Weight(EntersFailed(run[0], id)) + Entries(run[1..], id)
  }

  lemma {:induction false} EntriesRecorded(w: World, run: seq<Label>, id: string)
    requires Legal(w, run)
    ensures Run(w, run).ledger.entered[id] == w.ledger.entered[id] + Entries(run, id)
    decreases |run|
  {
    if run != [] {
      assert Step(w, run[0]).ledger.entered[id] == w.ledger.entered[id] + Weight(EntersFailed(run[0], id)) by {
        hide Tally, Without, Lasting;
      }
      EntriesRecorded(Step(w, run[0]), run[1..], id);
    }
  }

  /**
   * However many retries race, at most one succeeds for each time the id entered `failed`; the ones
   * under way and the ones lost to a fault use up an entry as well.
   */
  lemma ClaimExclusive(w0: World, run: seq<Label>, id: string)
    requires Initial(w0) && Legal(w0, run)
    ensures var w := Run(w0, run);
            Tally(w.ops, Won, id) + Tally(w.ops, Holding, id) + w.ledger.stranded[id]
            <= multiset(w0.queue.failed)[id] + Entries(run, id)
  {
    ReachableAccount(w0, run, id);
    EntriesRecorded(w0, run, id);
  }

  // ---- dangling ids ----

  predicate Dangling(q: Queue, id: string) { q.Occurrences(id) > 0 && id !in q.jobs }

  /** A delete, numbered `pid`, takes the job's hash away while a retry holds the job's claim. */
  predicate Overlaps(w: World, l: Label, id: string, pid: nat) {
    && (l.DeleteCommit? || (l.Fault? && l.effect)) && l.pid == pid
    && pid in w.ops && w.ops[pid].phase.Deleting? && w.ops[pid].id == id && Crosses(w, id)
  }

  function Actor(l: Label): nat { if l.DeleteCommit? || l.Fault? then l.pid else 0 }

  /** In some step of the run, this operation deletes the id while a retry holds its claim. */
  predicate OverlappedBy(w: World, run: seq<Label>, id: string, pid: nat)
    requires Legal(w, run)
    decreases |run|
  {
    run != [] && (Overlaps(w, run[0], id, pid) || OverlappedBy(Step(w, run[0]), run[1..], id, pid))
  }

  ghost predicate Overlapped(w: World, run: seq<Label>, id: string)
    requires Legal(w, run)
  {
    exists pid :: OverlappedBy(w, run, id, pid)
  }

  lemma ChargeStep(w: World, l: Label, id: string)
    requires Enabled(w, l)
    ensures var now, then_ := w.ledger.crossed, Step(w, l).ledger.crossed;
            && (forall pid :: Overlaps(w, l, id, pid) ==> pid == Actor(l))
            && if Overlaps(w, l, id, Actor(l)) then id in then_ && then_[id] == Actor(l)
               else (id in now <==> id in then_) && (id in now ==> now[id] == then_[id])
  {
    hide Tally, Without, Lasting;
  }

  /** The ledger's charges are the overlaps of the run: each id with the delete that committed under its claim. */
  lemma {:induction false} ChargedIff(w: World, run: seq<Label>, id: string)
    requires Legal(w, run)
    ensures var now, then_ := w.ledger.crossed, Run(w, run).ledger.crossed;
            && (id in then_ <==> id in now || Overlapped(w, run, id))
            && (Overlapped(w, run, id) ==> OverlappedBy(w, run, id, then_[id]))
            && (!Overlapped(w, run, id) && id in now ==> then_[id] == now[id])
    decreases |run|
  {
    hide Step, Overlaps, Crosses;
    if run != [] {
      var w1 := Step(w, run[0]);
      ChargeStep(w, run[0], id);
      ChargedIff(w1, run[1..], id);
      assert forall pid :: OverlappedBy(w, run, id, pid)
                           <==> Overlaps(w, run[0], id, pid) || OverlappedBy(w1, run[1..], id, pid);
      assert Overlaps(w, run[0], id, Actor(run[0])) ==> OverlappedBy(w, run, id, Actor(run[0]));
    }
  }

  /** An operation overlaps for its own id only. */
  lemma {:induction false} OverlapsForOwnId(w: World, run: seq<Label>, id: string, pid: nat)
    requires Legal(w, run) && OverlappedBy(w, run, id, pid)
    ensures pid in Run(w, run).ops && Run(w, run).ops[pid].id == id
    decreases |run|
  {
    hide Crosses;
    var w1 := Step(w, run[0]);
    if pid in w1.ops && w1.ops[pid].id == id {
      OpKeepsId(w1, run[1..], pid);
    } else {
      OverlapsForOwnId(w1, run[1..], id, pid);
    }
  }

  lemma {:induction false} OpKeepsId(w: World, run: seq<Label>, pid: nat)
    requires Legal(w, run) && pid in w.ops
    ensures pid in Run(w, run).ops && Run(w, run).ops[pid].id == w.ops[pid].id
    decreases |run|
  {
    if run != [] {
      assert pid in Step(w, run[0]).ops && Step(w, run[0]).ops[pid].id == w.ops[pid].id by {
        hide Tally, Without, Lasting;
      }
      OpKeepsId(Step(w, run[0]), run[1..], pid);
    }
  }

  /**
   * In any run, a dangling id is one whose job a delete committed away while a retry held the claim, and
   * each dangling id has such a delete of its own.
   */
  lemma DanglingIsCharged(w0: World, run: seq<Label>, id: string) returns (pid: nat)
    requires Initial(w0) && Legal(w0, run) && Dangling(Run(w0, run).queue, id)
    ensures OverlappedBy(w0, run, id, pid)
    ensures forall other :: OverlappedBy(w0, run, other, pid) ==> other == id
  {
    ReachableAccount(w0, run, id);
    ChargedIff(w0, run, id);
    pid := Run(w0, run).ledger.crossed[id];
    OverlapsForOwnId(w0, run, id, pid);
    forall other | OverlappedBy(w0, run, other, pid) ensures other == id { OverlapsForOwnId(w0, run, other, pid); }
  }

  /** If no delete overlaps a retry of the same job, every id in a structure has its hash. */
  lemma NoOverlapNoDangling(w0: World, run: seq<Label>, id: string)
    requires Initial(w0) && Legal(w0, run) && !Overlapped(w0, run, id)
    ensures !Dangling(Run(w0, run).queue, id)
  {
    if Dangling(Run(w0, run).queue, id) { var pid := DanglingIsCharged(w0, run, id); }
  }

  /** A push creates a dangling id exactly when, earlier in the run, a delete of it committed under a held claim. */
  lemma PushDanglesIff(w0: World, run: seq<Label>, pid: nat)
    requires Initial(w0) && Legal(w0, run) && Enabled(Run(w0, run), Requeue(pid))
    ensures var w := Run(w0, run); var id := w.ops[pid].id;
            Dangling(Step(w, Requeue(pid)).queue, id) <==> Overlapped(w0, run, id)
  {
    var w := Run(w0, run);
    var id := w.ops[pid].id;
    InitialInv(w0);
    RunKeeps(w0, run);
    ChargedIff(w0, run, id);
    assert Accounted(w, id);
    assert pid in Fitting(w.ops, Holding, id);
    OccurrencesRequeued(w.queue, id, w.ops[pid].phase.to, id);
    hide Overlapped;
  }

  /** A dangling id is reachable: a retry claims and reads the flag, a delete runs, the retry pushes. */
  lemma DanglingHappens() returns (w0: World, run: seq<Label>)
    ensures Initial(w0) && Tidy(w0.queue) && Legal(w0, run) && FaultFree(run)
    ensures Quiescent(Run(w0, run)) && Dangling(Run(w0, run).queue, "b")
  {
    BodyLasts();
    w0 := StartWorld(Queue([], [], [], [], ["b"], [], [], false, map["b" := BODY], {}, []));
    StartIff(w0.queue);
    var first := [RetryBegin(0, "b"), Claim(0), ReadPaused(0)];
    var w3 := StaleReading(w0);
    var second := [DeleteBegin(1, "b"), DeleteCommit(1), Requeue(0)];
    DeleteThenPush(w3);
    Join(w0, first, second);
    run := first + second;
  }

  lemma DeleteThenPush(w: World)
    requires w.ops == map[0 := Op(true, "b", Targeted(Wait))] && "b" in w.queue.jobs
    ensures var run := [DeleteBegin(1, "b"), DeleteCommit(1), Requeue(0)];
            Legal(w, run) && Quiescent(Run(w, run)) && Dangling(Run(w, run).queue, "b")
  {
    hide *;
    DeleteCommits(w);
    var w2 := Step(Step(w, DeleteBegin(1, "b")), DeleteCommit(1));
    PushDangles(w2);
    RunNothing(Step(w2, Requeue(0)));
    Chain(w2, Requeue(0), []);
    assert [Requeue(0)] + [] == [Requeue(0)];
    Chain(Step(w, DeleteBegin(1, "b")), DeleteCommit(1), [Requeue(0)]);
    assert [DeleteCommit(1)] + [Requeue(0)] == [DeleteCommit(1), Requeue(0)];
    Chain(w, DeleteBegin(1, "b"), [DeleteCommit(1), Requeue(0)]);
    assert [DeleteBegin(1, "b")] + [DeleteCommit(1), Requeue(0)] == [DeleteBegin(1, "b"), DeleteCommit(1), Requeue(0)];
  }

  lemma DeleteCommits(w: World)
    requires w.ops == map[0 := Op(true, "b", Targeted(Wait))] && "b" in w.queue.jobs
    ensures Enabled(w, DeleteBegin(1, "b")) && Enabled(Step(w, DeleteBegin(1, "b")), DeleteCommit(1))
    ensures var w' := Step(Step(w, DeleteBegin(1, "b")), DeleteCommit(1));
            && w'.ops == map[0 := Op(true, "b", Targeted(Wait)), 1 := Op(false, "b", Done(Succeeded))]
            && "b" !in w'.queue.jobs
  {
    hide Tally, Without, Lasting;
  }

  lemma PushDangles(w: World)
    requires w.ops == map[0 := Op(true, "b", Targeted(Wait)), 1 := Op(false, "b", Done(Succeeded))]
    requires "b" !in w.queue.jobs
    ensures Enabled(w, Requeue(0))
    ensures Quiescent(Step(w, Requeue(0))) && Dangling(Step(w, Requeue(0)).queue, "b")
  {
    hide Tally, Without, Lasting, Queue.Occurrences;
    OccurrencesRequeued(w.queue, "b", Wait, "b");
  }

  predicate Idle(w: World, id: string) { forall p :: p in w.ops && w.ops[p].id == id ==> w.ops[p].phase.Done? }

  /** The id is known, its hash is gone, and nothing is under way on it. */
  predicate Gone(w: World, id: string) { id in w.used && id !in w.queue.jobs && Idle(w, id) }

  lemma GoneStep(w: World, l: Label, id: string)
    requires Inv(w) && Enabled(w, l) && Gone(w, id)
    ensures Gone(Step(w, l), id)
  {
    GoneJobs(w, l, id);
    GoneIdle(w, l, id);
  }

  lemma GoneJobs(w: World, l: Label, id: string)
    requires Enabled(w, l) && id in w.used && id !in w.queue.jobs
    ensures id in Step(w, l).used && id !in Step(w, l).queue.jobs
  {
    hide Tally, Without, Lasting, Queue.Occurrences;
  }

  lemma GoneIdle(w: World, l: Label, id: string)
    requires Enabled(w, l) && Idle(w, id) && id !in w.queue.jobs
    ensures Idle(Step(w, l), id)
  {
    hide Tally, Without, Lasting, Queue.Occurrences, PutAt, Queue.With, Queue.Removed, Queue.Dropped, Queue.Requeued;
  }

  lemma GoneStepStays(w: World, l: Label, id: string)
    requires Inv(w) && Enabled(w, l) && Gone(w, id) && l != Drop(id)
    ensures var w' := Step(w, l);
            w'.queue.Occurrences(id) + w'.ledger.overwritten[id] == w.queue.Occurrences(id) + w.ledger.overwritten[id]
  {
    hide Queue.Occurrences, Tally, Without, Lasting, PutAt, Queue.With, Queue.Removed, Queue.Dropped, Queue.Requeued;
    hide Toggle;
    assert Accounted(w, id);
    match l
    case Claim(pid) => OccurrencesClaimed(w.queue, w.ops[pid].id, id);
    case Requeue(pid) => OccurrencesRequeued(w.queue, w.ops[pid].id, w.ops[pid].phase.to, id);
    case DeleteCommit(pid) => OccurrencesRemoved(w.queue, w.ops[pid].id, id);
    case Fault(pid, _) => GoneFaultStays(w, l, id);
    case Add(x, to, rank, hash) =>
      PutAtCounts(w.queue, to, rank, x, id);
      OccurrencesJobs(PutAt(w.queue, to, rank, x), w.queue.jobs[x := hash], id);
    case Move(x, from, to, rank) =>
      TakenCounts(w.queue, from, x, id);
      AtMostOccurrences(w.queue, from, x);
      PutAtCounts(w.queue.With(from, Without(w.queue.At(from), x)), to, rank, x, id);
    case AddParked(x, hash) => OccurrencesJobs(w.queue, w.queue.jobs[x := hash], id);
    case Park(x, from) => TakenCounts(w.queue, from, x, id);
    case Unpark(x, to, rank) => PutAtCounts(w.queue, to, rank, x, id);
    case Drop(x) => OccurrencesDropped(w.queue, x, id);
    case Rewrite(x, hash) => OccurrencesJobs(w.queue, w.queue.jobs[x := hash], id);
    case Pause => ToggleCounts(w, true, id);
    case Resume => ToggleCounts(w, false, id);
    case Mark(m) => OccurrencesExtras(w.queue, m, w.queue.events, id);
    case Log(e) => OccurrencesExtras(w.queue, w.queue.marker, e, id);
    case _ =>
  }

  lemma GoneFaultStays(w: World, l: Label, id: string)
    requires l.Fault? && Enabled(w, l) && Gone(w, id)
    ensures var w' := Step(w, l);
            w'.queue.Occurrences(id) + w'.ledger.overwritten[id] == w.queue.Occurrences(id) + w.ledger.overwritten[id]
  {
    hide Queue.Occurrences, Tally, Without, Lasting;
    var x := w.ops[l.pid].id;
    OccurrencesClaimed(w.queue, x, id);
    OccurrencesRemoved(w.queue, x, id);
    if w.ops[l.pid].phase.Targeted? { OccurrencesRequeued(w.queue, x, w.ops[l.pid].phase.to, id); }
  }

  lemma ToggleCounts(w: World, pausing: bool, id: string)
    ensures var w' := Toggle(w, pausing);
            w'.queue.Occurrences(id) + w'.ledger.overwritten[id] == w.queue.Occurrences(id) + w.ledger.overwritten[id]
  {}

  /**
   * Once nothing is under way on a deleted id, it stays deleted: every later retry or delete of it
   * answers "message not found", and no step but an overwriting RENAME, or BullMQ dropping the id of its own
   * accord, removes it from the structures.
   */
  lemma {:induction false} NothingRemovesDangling(w: World, run: seq<Label>, id: string)
    requires Inv(w) && Legal(w, run) && Gone(w, id)
    ensures var w' := Run(w, run);
            && Gone(w', id)
            && (Drop(id) !in run ==>
                  w'.queue.Occurrences(id) + w'.ledger.overwritten[id]
                  == w.queue.Occurrences(id) + w.ledger.overwritten[id])
            && forall pid: nat :: pid !in w'.ops ==>
                 && Step(w', RetryBegin(pid, id)).ops[pid].phase == Done(NotFound)
                 && Step(w', DeleteBegin(pid, id)).ops[pid].phase == Done(NotFound)
    decreases |run|
  {
    if run != [] {
      GoneStep(w, run[0], id);
      if run[0] != Drop(id) { GoneStepStays(w, run[0], id); }
      StepKeeps(w, run[0]);
      NothingRemovesDangling(Step(w, run[0]), run[1..], id);
    }
  }
}
