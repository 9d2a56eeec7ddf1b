# QueueScope in Dafny

QueueScope inspects BullMQ queues in Redis and, through connections in operator mode, retries failed jobs
and deletes jobs, writing every such action to an audit log. This project models that core and proves what
it keeps, what it loses, and exactly when.

- `Text`, `Keys`: the Go string functions the code relies on; the key printer and where colons break it.
- `Redis`: the commands the adapter sends, on a keyspace of typed values (wrong types refused, empty values
  removed, MULTI/EXEC that runs on after a refused command).
- `Queues`, `Views`: one queue as an abstract record (seven structures, pause flag, job hashes, marker, events),
  and how it is read out of the keyspace.
- `BullMQ`, `Effects`, `Frames`: `RetryMessage` and `DeleteMessage` as methods over a Redis server whose every
  round trip may break before or after it took effect; what they mean, and what they leave alone.
- `Protocol`, `Runs`: any number of retries and deletes interleaved with workers, producers and pause/resume;
  invariants of every reachable state and theorems about whole runs.
- `Concurrent`: the same interleaving made of the adapter's actual round trips on one keyspace with many queues,
  proved to be the protocol, queue by queue.
- `Listing`, `ListingMeaning`, `Discovery`: the bounded listing and the queue discovery against plain specifications.
- `Sessions`, `Store`, `Api`, `Pipeline`, `Replay`: session tokens and table, connection and audit tables, the HTTP
  handlers, and whole sequences of requests. `Config`: validation of connection settings and its reader.
- `EndToEnd`: what a request does, from its answer down to the queue, and the order in which requests are refused.

Definitions are shared between the operations and the specifications that refine them. What each operation finally does
is therefore also stated without them, name by name: `Views.ViewReads`, `Effects.RetrySpelled`, `Effects.DeleteSpelled`,
`ListingMeaning.NamedListing`, `Sessions.TokenIsLiveIff`, `Config.BullMQStores` and the lemmas of `EndToEnd`.

## Findings

The proofs separate what the code does from what one would wish. Each item names the lemmas that show it.

- A retry claims a job (ZREM) before it re-queues it, in separate round trips. A fault in between strands the job:
  it keeps its hash and is in no structure (`Runs.FaultLosesJob`).
- A retry reads the pause flag in one round trip and pushes in another. If the queue is paused and resumed around the
  push, RENAME overwrites a list that is not empty and a job is lost without any fault (`Runs.StalePushLosesJob`).
- These are the only two ways, and the condition is exact. In every run, a job with a hash is in one structure, parked
  (see below) or held by one retry if and only if no step of the run was a fault that took its claim without its push,
  or a pause or resume that renamed over a list holding it (`Runs.JobKeptIff`; with nothing under way,
  `Runs.JobInOnePlaceIff`; on the keyspace, `Concurrent.KeyspaceKeepsJobIff`). Without faults, and without a toggle
  between a retry's read of the flag and its push, no job is lost (`Runs.EveryJobInOnePlace`). A toggle loses ids
  exactly when both lists hold some (`Runs.OverwritesIff`).
- A retry's push leaves an id without a hash exactly when, earlier in the run, a delete of that job took effect while a
  retry held its claim (`Runs.PushDanglesIff`, a run in `Runs.DanglingHappens`); there is no other source of such ids
  (`Runs.DanglingIsCharged`). No later retry or delete removes one (`Runs.NothingRemovesDangling`) and no listing shows
  it (`ListingMeaning.ListedIsHeld`).
- Job keys and state keys share one format. `DeleteMessage` with the id `wait` deletes the waiting list, and with `meta` it
  clears the pause flag. What it does for any id is `Effects.DeleteAnyId`, and it takes exactly its own job out of the queue
  if and only if the id names nothing else (`Effects.DeleteSparesRestIff`).
- Queues whose names are nested (`a` and `a:b`) share keys, others never do (`Keys.ApartIff`); a delete on the outer one
  reaches the inner one (`Keys.DeleteReachesNestedQueue`). The fallback discovery never finds names with colons
  (`Discovery.RevealedIff`).
- A retry of a failed id under whose key there is no hash reports an error and has re-queued the id all the same, because
  a transaction runs on after a refused command (`Effects.RetryMeaning`).
- A listing shows no message twice if Redis stands still. If a job moves between two reads of the call, it can be listed
  under both statuses (`Listing.MovedJobIsListedTwice`); each entry was true at its own reads (`Listing.ListedWasThere`).
- A successful retry on a paused queue lowers the five-way total of the queue statistics (`Effects.RetryStats`).
- `GetMessage` answers the status `waiting` for every job of a keyspace that stands still. If the job appears between two
  of its five reads of the one key, the label is that of the first read which sees it (`Listing.GetMessage`).
- The two "cannot be empty" errors of the validators are unreachable (`Config.NeverEmptyErrors`).
- When a `meta` key exists anywhere under the prefix, `ListQueues` lists the queues with a `meta` key and no others, and
  lists one twice if SCAN returns its key twice (`Discovery.RepeatedScanListsTwice`). The names listed are distinct exactly
  when the scanned keys are, or when there are none and the fallback answers (`Discovery.ListQueues`).

## Assumptions

- Redis: commands have their documented effect; a transaction is atomic; SCAN on a keyspace at rest returns every
  matching key at least once.
- The Redis client sends each command once. One that sends a command again after losing its reply is not part of this
  model: a second ZREM would find nothing, so a retry could answer "message is not in failed state" with the claim taken.
  That the log alone tells which failures may have changed Redis (`Replay.LogReplaysServers`) depends on this.
- The environment of the protocol: workers move an id between structures; producers add jobs under ids that were never
  used; both put jobs into the list the pause flag selects; pause and resume set the flag and RENAME one list over the
  other if it exists; finished jobs are removed where BullMQ finds them, in a structure; marker and event log change at any
  time. Jobs may be parked outside the seven structures, as flow parents are in `waiting-children`, and come back while they
  have their hash; hashes of BullMQ's own, such as a repeat schedule's, count as parked for good. One turn of the
  environment is any sequence of these changes in one atomic step, as a script makes them (`Concurrent.SystemStep`). They
  follow BullMQ, which is not part of this repository.
- A job hash holds at least one field besides `finishedOn`, `processedOn` and `failedReason` (`Queues.Lasting`), because
  Redis removes a hash whose last field is deleted. Where this matters it is a precondition on the initial state and on
  producers; the retry itself keeps it.
- The ten state keys of a queue hold the types the adapter takes them for, or nothing (`Views.Typed`). Its other keys, the
  counter `id` for one, may hold anything; `Concurrent.SeededStart` is such a queue.
- Requests in `Concurrent`, and the ids in the structures a listing reads (`ListingMeaning.Sound`), name jobs: the id is
  neither the suffix of a state key nor of a job's sub-key such as `:logs`, and its key holds a hash or nothing. It may
  contain colons. Single deletes are covered for every id, single retries for every id but the ten state suffixes
  (`Effects.DeleteOutcomes`, `Effects.RetryOutcomes`).
- The queues of one run of `Concurrent` are not nested in each other.
- The MAC of a token is any function with nonempty results; session ids are nonempty and dot-free, as the unpadded
  base64url alphabet of section 5 of RFC 4648 gives them, and never repeat. Connection ids never repeat.
- `url.Parse`, `redis.ParseURL`, `unicode.IsSpace`, e-mail syntax, `strings.EqualFold` and `matchesQuery` are arbitrary
  functions; where a default such as `bull` must survive trimming this is said (`Config.KeepsDefaults`).

## Model

| member | source | states |
|---|---|---|
| `Text.CutAtFirst` | internal/auth/session.go:91 | cutting at the first separator splits a text exactly after a separator-free first part |
| `Text.TrimSpaceIdempotent` | internal/config/connection_config.go:94-108 | trimming a trimmed text changes nothing, for any notion of white space |
| `Text.TrimSpaceIs` | internal/config/connection_config.go:94-108 | exactly the white space at both ends is taken off |
| `Text.SplitJoins` | internal/providers/bullmq/adapter.go:293 | the parts of a split are the text between the separators, all of it and in order |
| `Keys.SuffixInjective` | internal/providers/bullmq/adapter.go:359-365 | within a queue, keys are equal exactly when their suffixes are |
| `Keys.KeyInjective` | internal/providers/bullmq/adapter.go:359-365 | for colon-free queue names, keys are equal exactly when queue and suffix are, whatever the suffix contains |
| `Keys.ApartIff` | internal/providers/bullmq/adapter.go:359-365 | two queue names share no key exactly when they differ and neither continues the other after a colon |
| `Keys.CollidesIff` | internal/providers/bullmq/adapter.go:359-365 | another queue can own the same key exactly when the queue name or the suffix contains a colon |
| `Keys.DeleteHitsStateKeyIff` | internal/providers/bullmq/adapter.go:231 | for queues not nested in each other, the keys a delete removes include a state key exactly when the message id is that key's suffix, in the same queue |
| `Keys.DeleteHitsJobKeyIff` | internal/providers/bullmq/adapter.go:231 | for queues not nested in each other, they include another key exactly when it is the job's own or one of its five sub-keys, spelled out |
| `Keys.DeleteReachesNestedQueue` | internal/providers/bullmq/adapter.go:223-231 | for every queue name with a colon there is a delete on another queue that removes its keys |
| `Redis.ExecFrame` | internal/providers/bullmq/adapter.go:188-203 | a transaction leaves every key alone that none of its commands names |
| `Redis.ZAddMembers` | internal/providers/bullmq/adapter.go:191 | after ZADD the member is there exactly once, whether or not it was before, and all others are as they were, in their order |
| `Redis.ZAddEntries` | internal/providers/bullmq/adapter.go:191 | ZADD gives the member its score and leaves every other member its own |
| `Redis.ZAddKeepsRankOrder` | internal/providers/bullmq/adapter.go:191 | a sorted set stays ordered by score, and by member where scores are equal |
| `Redis.DropMembers` | internal/providers/bullmq/adapter.go:171 | ZREM removes exactly the one member and keeps the order of the rest |
| `Queues.OccurrencesClaimed` | internal/providers/bullmq/adapter.go:171 | the claim takes an id out of the seven structures as often as it was in `failed`, and touches no other id |
| `Queues.OccurrencesRequeued` | internal/providers/bullmq/adapter.go:188-190 | the push adds exactly one occurrence, of exactly one id |
| `Queues.OccurrencesRemoved` | internal/providers/bullmq/adapter.go:223-230 | the delete leaves no occurrence of the id and every occurrence of the others |
| `Views.ViewFrame` | internal/providers/bullmq/adapter.go:359-365 | what the adapter sees of a queue depends on that queue's keys only |
| `Views.ViewReads` | internal/providers/bullmq/adapter.go:359-365 | each structure of the view is what the list, sorted set or stream under its name holds |
| `Views.ViewReadsRest` | internal/providers/bullmq/adapter.go:180-187 | the pause flag is the field `paused` of `meta`, nonempty; jobs are the hashes under plain ids; the marker is its members |
| `Views.RemoveView` | internal/providers/bullmq/adapter.go:224-230 | LREM or ZREM on one structure's key changes that structure and nothing else of the queue |
| `Views.PushView` | internal/providers/bullmq/adapter.go:190 | LPUSH puts the id at the head of the one list |
| `Views.ClearView` | internal/providers/bullmq/adapter.go:189 | HDEL clears the volatile fields of the one job, and drops the job exactly if it has no other field; it is refused exactly if the key holds something else than a hash |
| `Effects.ClearedFields` | internal/providers/bullmq/adapter.go:189 | a job loses exactly `finishedOn`, `processedOn` and `failedReason`, its other fields keep their values, and no other job changes |
| `Views.DelView` | internal/providers/bullmq/adapter.go:231 | DEL removes the job of the id, for any id whatever, and the state key whose suffix the id is, if it is one, and leaves all else of the queue |
| `Views.MarkView` | internal/providers/bullmq/adapter.go:191 | ZADD on the marker adds member `0` and changes nothing else |
| `Views.EventView` | internal/providers/bullmq/adapter.go:192-201 | XADD appends one event and changes nothing else |
| `BullMQ.RetryMessage` | internal/providers/bullmq/adapter.go:154-204 | server state and answer for every outcome of its four round trips |
| `BullMQ.DeleteMessage` | internal/providers/bullmq/adapter.go:206-243 | server state and answer for every outcome of its two round trips |
| `BullMQ.RemovalsAre` | internal/providers/bullmq/adapter.go:224-230 | the seven removal commands, with the right command for each structure |
| `Effects.RetryExec` | internal/providers/bullmq/adapter.go:188-203 | the retry transaction, command by command on the keyspace, is the abstract push, and reports an error exactly if the id's key holds no hash |
| `Effects.DeleteExec` | internal/providers/bullmq/adapter.go:223-242 | for any id, the delete transaction on the keyspace is the abstract removal, wiping the state key the id names if it names one, and reports no error |
| `Effects.RetryMeaning` | internal/providers/bullmq/adapter.go:161-203 | an undisturbed retry re-queues exactly a known failed id, where the pause flag points, and succeeds exactly if there is a hash under it; otherwise it names the reason and leaves the keyspace as it was |
| `Effects.RetrySpelled` | internal/providers/bullmq/adapter.go:171-203 | a successful retry structure by structure: out of `failed`, at the head of `paused` or `wait`, three fields gone, marker and event, nothing else |
| `Effects.RetryAnswers` | internal/providers/bullmq/adapter.go:165-177 | the two refusals word for word, and when each is given |
| `Effects.RetryTouches` | internal/providers/bullmq/adapter.go:163-203 | six keys at most change, whatever the network does |
| `Effects.RetryMarks` | internal/providers/bullmq/adapter.go:191 | the marker gets member `0` with score 0 and stays in rank order |
| `Effects.DeleteMeaning` | internal/providers/bullmq/adapter.go:213-242 | an undisturbed delete of a job's id succeeds exactly on a known job; otherwise the keyspace is as it was |
| `Effects.DeleteSpelled` | internal/providers/bullmq/adapter.go:213-242 | a successful delete structure by structure, with its event, and its one refusal word for word |
| `Effects.DeleteTouches` | internal/providers/bullmq/adapter.go:223-242 | the seven structures, the job's six keys and the event log at most change, whatever the network does |
| `Effects.DeleteRemovesKeys` | internal/providers/bullmq/adapter.go:231 | nothing is left under the job's key and its five sub-keys |
| `Effects.RetryOutcomes` | internal/providers/bullmq/adapter.go:161-203 | for every outcome of the four round trips and every id but a state suffix, exactly which queue results (untouched, claimed, or claimed and pushed back) and which answer |
| `Effects.DeleteOutcomes` | internal/providers/bullmq/adapter.go:213-242 | for every outcome of the two round trips and every id, exactly which queue and answer result; a delete happens entirely or not at all |
| `Effects.DeleteAnyId` | internal/providers/bullmq/adapter.go:214-231 | for any id: without a key under it the delete answers "not found"; otherwise it succeeds, the id and its job go, and so does the structure, pause flag, marker or event log whose suffix the id is |
| `Effects.DeleteSparesRestIff` | internal/providers/bullmq/adapter.go:214-231 | a delete takes exactly its own job out of the queue if and only if the id is not the suffix of a state key that holds anything else |
| `Effects.RetryStats` | internal/providers/bullmq/adapter.go:318-347 | effect of a successful retry on the five counts and their total, on a paused and on an unpaused queue |
| `Effects.DeleteStats` | internal/providers/bullmq/adapter.go:318-347 | a successful delete lowers the total by one exactly if the id was in one of the five counted structures; for a job in one structure, exactly if not in `paused` or `prioritized` |
| `Frames.OtherQueuesUntouched` | internal/providers/bullmq/adapter.go:188-192 | any retries and deletes on one queue, with any ids and any faults, leave every key of every queue unchanged that is not nested with it |
| `Frames.OtherJobsUntouched` | internal/providers/bullmq/adapter.go:223-231 | with any ids but the ten state suffixes, they keep every other job's hash and the relative order of all other ids in each structure |
| `Protocol.StepKeeps` | internal/providers/bullmq/adapter.go:161-242 | every step of every operation, fault and worker keeps the account of every id |
| `Protocol.RunKeeps` | internal/providers/bullmq/adapter.go:161-242 | so does every run |
| `Protocol.StartIff` | internal/providers/bullmq/adapter.go:359-365 | a queue is a start of the protocol exactly if no id is twice in its structures, nor there without a hash that a retry leaves nonempty |
| `Protocol.ClaimKeeps` | internal/providers/bullmq/adapter.go:171-177 | the claim takes its id, and no other, out of `failed` and adds it to those held, exactly if it was there; the account of every id is kept |
| `Protocol.RequeueKeeps` | internal/providers/bullmq/adapter.go:179-203 | the push moves its id, and no other, from the held ones into the one list and counts the retry as won; the account of every id is kept |
| `Protocol.CommitKeeps` | internal/providers/bullmq/adapter.go:223-242 | the delete leaves no occurrence and no hash of its id, touches no other id, and is charged exactly if a retry holds the job at that moment; the account of every id is kept |
| `Protocol.FaultKeeps` | internal/providers/bullmq/adapter.go:172-183 | a fault strands an id exactly when the claim has taken effect, or does so now, and the push does not; the account of every id is kept |
| `Runs.ConcurrentUniqueness` | internal/providers/bullmq/adapter.go:171-202 | in every reachable state an id is in at most one structure, parked, or held by at most one retry, and only one of these |
| `Runs.NoJobUnaccounted` | internal/providers/bullmq/adapter.go:171-203 | every job with a hash is in one structure, parked, held, stranded or overwritten, exactly once |
| `Runs.JobKeptIff` | internal/providers/bullmq/adapter.go:171-203 | after any run a job with a hash is in one structure, parked or held by one retry, if and only if no step of the run stranded or overwrote it |
| `Runs.JobInOnePlaceIff` | internal/providers/bullmq/adapter.go:171-203 | so with nothing under way it is in exactly one structure if and only if the run spared it and it is not parked |
| `Runs.EveryJobInOnePlace` | internal/providers/bullmq/adapter.go:171-203 | without faults and without a pause toggle inside a retry's window, every job that is not parked is in exactly one structure whenever nothing is under way |
| `Runs.PunctualOverwritesNothing` | internal/providers/bullmq/adapter.go:179-190 | if every push lands where the flag points, no toggle of any run loses an id |
| `Runs.UndisturbedIsPunctual` | internal/providers/bullmq/adapter.go:179-203 | pushes do land there when no toggle falls between a retry's read and its push |
| `Runs.LostIff` | internal/providers/bullmq/adapter.go:171-203 | over any run an id is lost exactly if some step strands it (a fault that takes the claim without the push) or overwrites it |
| `Runs.UndisturbedSpares` | internal/providers/bullmq/adapter.go:171-203 | without faults and without a toggle inside a retry's window no step does |
| `Runs.FaultLosesJob` | internal/providers/bullmq/adapter.go:171-183 | a run in which one fault loses a job |
| `Runs.StalePushLosesJob` | internal/providers/bullmq/adapter.go:179-203 | a fault-free run in which a pause and a resume around a push lose a job |
| `Runs.ClaimExclusive` | internal/providers/bullmq/adapter.go:171-177 | successful, running and stranded retries of an id together never exceed its entries into `failed` |
| `Runs.ChargedIff` | internal/providers/bullmq/adapter.go:223-242 | the charges on record are exactly the deletes that took effect in the run while a retry held the job's claim |
| `Runs.NoOverlapNoDangling` | internal/providers/bullmq/adapter.go:163-202 | for each id: if no delete of it takes effect under a held claim, it is in a structure only with its hash |
| `Runs.DanglingIsCharged` | internal/providers/bullmq/adapter.go:188-231 | each dangling id has a delete that took effect in the run while a retry held its claim, and that did so for no other id |
| `Runs.PushDanglesIff` | internal/providers/bullmq/adapter.go:188-203 | a push leaves a dangling id exactly when, earlier in the run, a delete of the id took effect while a retry held its claim |
| `Runs.DanglingHappens` | internal/providers/bullmq/adapter.go:179-231 | a fault-free run that ends with a dangling id: claim, read of the flag, delete, push |
| `Runs.NothingRemovesDangling` | internal/providers/bullmq/adapter.go:163-169 | once nothing is under way on a deleted id, later retries and deletes answer "not found", and it leaves the structures only by an overwriting rename or if BullMQ drops it of its own accord |
| `Concurrent.AdapterStepRefines` | internal/providers/bullmq/adapter.go:161-242 | each round trip of the adapter on the keyspace is the protocol step of the same name, which the protocol always allows |
| `Concurrent.StepElsewhere` | internal/providers/bullmq/adapter.go:188-231 | no round trip on one queue is visible from another that is not nested with it |
| `Concurrent.TraceRefines` | internal/providers/bullmq/adapter.go:161-242 | along every run over many queues, with any atomic sequence of environment changes as a turn, the turns of each queue are a legal run of the protocol, and the keyspace seen through that queue's keys is the state that run reaches |
| `Concurrent.ConsistentStart` | internal/providers/bullmq/adapter.go:359-365 | a keyspace whose queues are typed, not nested, and hold no id twice or without a lasting hash is a start from which all this holds, whatever their other keys hold |
| `Concurrent.SeededStart` | internal/providers/bullmq/adapter.go:359-365 | such a start is a queue with a counter, a failed job, a parent waiting for its children and a repeat schedule |
| `Concurrent.KeyspaceAccount` | internal/providers/bullmq/adapter.go:161-242 | uniqueness and the account of every job, stated on the keyspace itself |
| `Concurrent.KeyspaceKeepsJobIff` | internal/providers/bullmq/adapter.go:161-242 | on the keyspace: a job is in one structure of its queue, parked or held by one retry, if and only if no turn of its queue stranded or overwrote it |
| `Concurrent.RetryIsItsTrips` | internal/providers/bullmq/adapter.go:161-203 | over any network, the retry of the method is the retry of the protocol with nothing in between, in its effect and in its answer |
| `Concurrent.DeleteIsItsTrips` | internal/providers/bullmq/adapter.go:213-242 | likewise for the delete |
| `Concurrent.ReachableListingHasNoDuplicates` | internal/providers/bullmq/adapter.go:103-127 | in every reachable state at rest a listing that succeeds shows no message twice, whatever the job keys hold |
| `Listing.NormalizeLimit` | internal/providers/bullmq/adapter.go:477-485 | 50 below 1, 200 above 200, and unchanged between |
| `Listing.ListMessages` | internal/providers/bullmq/adapter.go:92-130 | never more than the limit and exactly the reads in their order, even if Redis changes between any two of them; on a keyspace at rest, the windowed listing |
| `Listing.StillIsWindowed` | internal/providers/bullmq/adapter.go:103-127 | if Redis stands still, when the reads happen does not matter |
| `Listing.ListedWasThere` | internal/providers/bullmq/adapter.go:103-127 | whatever changes between the reads, each listed message matches, has a status asked for, and was in that structure at one read and had that hash at a later one |
| `Listing.ListedHasStatus` | internal/providers/bullmq/adapter.go:367-378 | a listing of a named status shows that status only, matching the query, with the failure time and error of the hash, whatever changes between the reads |
| `Listing.OtherStatusListsNothing` | internal/providers/bullmq/adapter.go:380-390 | any status but the five, "" and "unknown" lists nothing |
| `Listing.MovedJobIsListedTwice` | internal/providers/bullmq/adapter.go:103-127 | a job that moves between two reads of a call can be listed under both statuses |
| `Listing.GetMessage` | internal/providers/bullmq/adapter.go:132-152 | on a keyspace at rest the message if its hash exists, labelled `waiting`; on one that changes, the message as the first of five reads that sees it labels it, and "not found" only if none does |
| `Listing.LRangePrefix` | internal/providers/bullmq/adapter.go:380-390 | with a positive limit the range is the first that many elements |
| `ListingMeaning.WindowedIsWindow` | internal/providers/bullmq/adapter.go:103-129 | over a well-typed keyspace whose structures name jobs, every command succeeds and the loop depends on the queue's view only |
| `ListingMeaning.WindowIsTake` | internal/providers/bullmq/adapter.go:103-127 | without query and dangling ids the windowed loop is take(limit) of the concatenated listings |
| `ListingMeaning.WindowIsComplete` | internal/providers/bullmq/adapter.go:103-127 | if the structures hold at most limit ids, the listing is everything live and matching |
| `ListingMeaning.WindowIsSubsequence` | internal/providers/bullmq/adapter.go:103-127 | in every case it is a subsequence of everything live and matching |
| `ListingMeaning.ListedIsHeld` | internal/providers/bullmq/adapter.go:114-126 | every message in the plain listing is a job with a hash, matching, labelled with the status whose structure holds it |
| `ListingMeaning.DefaultOrder` | internal/providers/bullmq/adapter.go:367-378 | the default listing spelled out structure by structure |
| `ListingMeaning.ListingMeansView` | internal/providers/bullmq/adapter.go:92-130 | all of the above for one call, and no id more often than in the structures |
| `ListingMeaning.NamedListing` | internal/providers/bullmq/adapter.go:92-130 | a listing of one status: the first messages of that structure, lists from the head and sorted sets from the last rank, with the limit spelled out; if the limit allows, exactly the live matching ones |
| `Discovery.ScanKeys` | internal/providers/bullmq/adapter.go:266-283 | all batches, in order, with their repetitions, or the error of the first reply that failed |
| `Discovery.GatheredIff` | internal/providers/bullmq/adapter.go:266-283 | a scan gives exactly the keys of its replies if none failed, and else the first error |
| `Discovery.DiscoverQueueKeys` | internal/providers/bullmq/adapter.go:285-307 | the meta keys of exactly the revealed names, each once, for every batching of the scan, or the error of the scan |
| `Discovery.RevealedIff` | internal/providers/bullmq/adapter.go:291-300 | with a colon-free prefix a name is revealed exactly if it is colon-free and owns a key whose last part is a known suffix |
| `Discovery.EndsKnownIff` | internal/providers/bullmq/adapter.go:309-316 | the last part of a key is known exactly if it is one of the nine suffixes, alone or after a colon |
| `Discovery.FallbackListsIff` | internal/providers/bullmq/adapter.go:285-307 | without any meta key and with a colon-free prefix, exactly the colon-free names are listed that own a key ending in one of the nine suffixes |
| `Discovery.StateKeyRevealsQueue` | internal/providers/bullmq/adapter.go:291-316 | every colon-free queue with a state key is revealed |
| `Discovery.ColonPrefixRevealsNothing` | internal/providers/bullmq/adapter.go:293-296 | a prefix that contains a colon reveals nothing |
| `Discovery.TrimsRecoverName` | internal/providers/bullmq/adapter.go:74 | the two trims recover every name from its meta key, with or without colons |
| `Discovery.MetaGlob` | internal/providers/bullmq/adapter.go:61 | the scan pattern matches exactly the meta keys of names |
| `Discovery.ListQueues` | internal/providers/bullmq/adapter.go:53-90 | lists exactly the queues with a meta key, or the revealed ones if there are none, each with its own statistics; none is listed twice exactly if no meta key was scanned twice; a failing scan is its error |
| `Discovery.DistinctNamesIff` | internal/providers/bullmq/adapter.go:71-87 | the loop lists distinct names exactly if it is given distinct keys |
| `Discovery.RepeatedScanListsTwice` | internal/providers/bullmq/adapter.go:61-87 | a scan that repeats its one meta key makes the listing show that queue twice |
| `Discovery.StatsView` | internal/providers/bullmq/adapter.go:318-347 | the five counts, one by one, are the sizes of the structures of their names |
| `Discovery.StatsReadIff` | internal/providers/bullmq/adapter.go:318-347 | the statistics fail exactly if one of the five keys holds another type |
| `Sessions.VerifyIff` | internal/auth/session.go:83-103 | a token is accepted for an id exactly if the id is nonempty and dot-free and the token is the id, a dot and the id's MAC |
| `Sessions.SignInjective` | internal/auth/session.go:83-88 | different ids never share a token |
| `Sessions.Manager.Create` | internal/auth/session.go:37-54 | new table, token (the id, a dot and its MAC) and session with an expiry twelve hours on, or an error and the old table |
| `Sessions.Manager.Get` | internal/auth/session.go:56-70 | the session, if the token verifies, is in the table and has not expired |
| `Sessions.Manager.Delete` | internal/auth/session.go:72-81 | the table without the token's session |
| `Sessions.TableIff` | internal/auth/session.go:49-80 | a session is in the table exactly if it was created and its own token was not deleted since |
| `Sessions.GetSucceedsIff` | internal/auth/session.go:37-81 | Get succeeds exactly for a token issued at most twelve hours ago and not deleted since |
| `Sessions.TokenIsLiveIff` | internal/auth/session.go:37-103 | the same with token and lifetime spelled out |
| `Sessions.RefusedForever` | internal/auth/session.go:56-70 | an issued token that is refused once is refused forever |
| `Store.ConnectionStore.Create` | internal/store/connections.go:82-102 | the table with the new row, or an error and the old table |
| `Store.ConnectionStore.Get` | internal/store/connections.go:104-120 | the row, "not found", or an error |
| `Store.ConnectionStore.Delete` | internal/store/connections.go:122-135 | the table without the row; "not found" for a row that is not there |
| `Store.ConnectionStore.CreateAuditEntry` | internal/store/connections.go:137-174 | appends one entry or changes nothing |
| `Store.ConnectionStore.ListAuditEntries` | internal/store/connections.go:176-226 | the rows the query selected in their order, or the database's error; if rows were recorded one after the other, the last inserted come first, as many as the normalised limit allows |
| `Store.LatestInOrder` | internal/store/connections.go:181-197 | ordering by creation time and cutting at the limit gives the last inserted rows exactly in reverse, if they were recorded one after the other |
| `Api.Server.RequireAuth` | internal/api/server.go:381-398 | the live session behind the cookie, if any |
| `Api.Server.Login` | internal/api/server.go:82-109 | new state and answer of a login |
| `Api.Server.Logout` | internal/api/server.go:111-120 | new state and answer of a logout |
| `Api.Server.CreateConnection` | internal/api/server.go:150-197 | new state and answer of a creation |
| `Api.Server.DeleteConnection` | internal/api/server.go:228-240 | new state and answer of a deletion |
| `Api.Server.Run` | internal/api/server.go:293-303 | the adapter call behind an action, on the server the connection names |
| `Api.Server.HandleMessageAction` | internal/api/server.go:315-379 | new state and answer of a retry or delete request |
| `Pipeline.OnlyGatedActionsWrite` | internal/api/server.go:315-358 | nothing but an action past session, lookup and mode gate touches a Redis server or the log |
| `Pipeline.ActionAccount` | internal/api/server.go:326-357 | such an action answers 500 or adds exactly one entry with its actor, action, connection, queue, message and true outcome, in the words the log uses |
| `Pipeline.AuditAccounting` | internal/api/server.go:336-357 | over any run earlier entries stay, 200 answers equal success entries, gated 400 answers equal failure entries |
| `Pipeline.SuccessIsGated` | internal/api/server.go:315-358 | an action that answers 200 passed the gate |
| `Pipeline.ConnectionNeverChanges` | internal/store/connections.go:82-135 | wherever an id appears in a run it names the same connection, mode included |
| `Pipeline.ReadOnlyNeverWrites` | internal/api/server.go:321-324 | a connection that is read-only at any time of a run never causes a write at any time |
| `Pipeline.WritesAreAuthorised` | internal/api/server.go:315-398 | every write had a live session and a connection in operator mode, all along |
| `Pipeline.WritesFollowLogin` | internal/api/server.go:381-397 | every write used a token that a login of the run issued at most twelve hours before and no logout took back |
| `Pipeline.SessionsFollowHistory` | internal/api/server.go:82-120 | the session table is that of the logins and logouts that took effect |
| `Pipeline.LoginRoundTrip` | internal/api/server.go:82-120 | exactly the administrator's credentials log in; the token works for twelve hours or until its logout |
| `Pipeline.CreationGivesWhatWasAsked` | internal/api/server.go:167-196 | a new connection is well-formed, has the trimmed name, the validated configuration, and operator mode exactly if that was asked for; a refused one changes nothing |
| `Pipeline.CreationStoresConfig` | internal/api/server.go:167-196 | each setting that was given is stored trimmed, under its own name; one that was not has its default, is left out, or the creation is refused, for all three providers |
| `Pipeline.StoredConnectionsWellFormed` | internal/api/server.go:150-197 | every connection of every run has a known provider, a legal mode and a validated configuration |
| `Pipeline.AdapterReadsWhatIsStored` | internal/providers/bullmq/adapter.go:245-264 | behind every BullMQ connection of every run the adapter reads exactly the stored URL and prefix |
| `Pipeline.DeletedConnectionIsGone` | internal/api/server.go:228-240 | after a deletion, actions through the connection answer 404 |
| `EndToEnd.ActionRan` | internal/api/server.go:293-357 | past the gate a retry request is the adapter's retry and a delete request its delete, of its own queue and message, on the connection's server and no other, for every network; the answer is that operation's |
| `EndToEnd.RetryRequest` | internal/api/server.go:293-357 | a retry request answered 200 has moved its job from `failed` to where the pause flag points, changed no other server, and is logged as a retry that succeeded |
| `EndToEnd.DeleteRequest` | internal/api/server.go:299-357 | a delete request answered 200 has removed its job, changed no other server, and is logged as a delete that succeeded |
| `EndToEnd.OtherProviders` | internal/providers/sqs/adapter.go:49-55 | actions on the other providers fail, word for word, and change no server |
| `EndToEnd.SessionFirst` | internal/api/server.go:381-398 | every request but a login is refused without a live session, before anything else |
| `EndToEnd.LoginAnswers` | internal/api/server.go:82-109 | the answers of a login and the session it creates |
| `EndToEnd.LogoutAnswers` | internal/api/server.go:111-120 | a logout takes exactly the session its cookie is signed for |
| `EndToEnd.CreationAnswers` | internal/api/server.go:150-197 | the refusals of a creation, in their order |
| `EndToEnd.DeletionAnswers` | internal/api/server.go:228-240 | the refusals of a deletion; it takes exactly its own connection and leaves the others as they are |
| `EndToEnd.ActionAnswers` | internal/api/server.go:315-379 | the refusals of an action, in their order |
| `Replay.HarmlessRetry` | internal/providers/bullmq/adapter.go:163-177 | a retry that fails for another reason than the connection to Redis has changed nothing |
| `Replay.SuccessIsQuiet` | internal/providers/bullmq/adapter.go:154-243 | an operation that succeeds did what it does over an undisturbed connection |
| `Replay.LogReplaysServers` | internal/api/server.go:330-350 | redoing the success entries of the log, with the work of others in its places, gives exactly the current servers, if no logged failure was one of the connection to Redis |
| `Replay.LostReplyChangesRedis` | internal/providers/bullmq/adapter.go:171-174 | why that proviso is needed: such a failure can have changed Redis |
| `Config.ValidateIdempotent` | internal/config/connection_config.go:12-108 | validating a validated configuration changes nothing, for all three providers; for SQS under any notion of white space |
| `Config.BullMQStores` | internal/config/connection_config.go:25-44 | for every configuration, the refusal or exactly what is stored of URL and prefix |
| `Config.SQSStores` | internal/config/connection_config.go:46-71 | likewise of region, queue URL, profile and endpoint |
| `Config.RabbitMQStores` | internal/config/connection_config.go:73-92 | likewise of URL and vhost |
| `Config.BullMQAcceptedIff` | internal/config/connection_config.go:25-44 | exactly which BullMQ configurations are accepted |
| `Config.NeverEmptyErrors` | internal/config/connection_config.go:35-38 | the "cannot be empty" errors are never returned |
| `Config.ReaderAgrees` | internal/providers/bullmq/adapter.go:245-264 | on a validated configuration the adapter's reader never uses a fallback |
| `Config.ReaderIs` | internal/providers/bullmq/adapter.go:258-264 | a setting that is missing, empty or no string reads as the fallback, any other as itself |

## Left out

- Requests are handled one after the other in `Api`; interleaving is modelled for the adapter's round trips only.
- The web UI, demo scripts, container files, startup, environment variables, CORS and cookies' attributes.
- The SQS and RabbitMQ adapters, beyond the errors their retry and delete return.
- Views.EventView: the approximate trimming of the event stream to 10000 entries is not modelled, because Redis leaves open how many it removes; the modelled stream keeps every event until a `Log` step of the environment trims it.
- Scores are integers where Redis has doubles; no proof depends on scores beyond the rank order.
- Decoding of job fields (JSON, integers, timestamps) and the contents of `matchesQuery`.
- Glob metacharacters inside a prefix: the scan pattern's fixed parts are taken literally.
- SCAN on a keyspace that changes meanwhile; listing is modelled for a keyspace that changes between reads.
- An INSERT that takes effect although the database reports an error; a failed statement changes nothing here.
- Two different Redis URLs that lead to the same server: servers are told apart by URL.
- Read-only endpoints (health, me, providers, connection list, connection health): they change no state.
- A broken connection during a listing, a statistics call or a read of one message: these write nothing and return the error.
- Retries of an id that is a state suffix, such as `meta`: nothing is shown of them but that they leave other queues alone (`Frames.OtherQueuesUntouched`).
