# pysync: a Dafny model of its concurrent containers, channels, threads and locks

pysync is a Rust/Python library of thread-safe building blocks. This project models their protocols and proves what
every run keeps. Each component appears in up to two forms:

- a **step machine**: a run is any sequence of labels, by any number of threads, and every lock-protected block, every
  unlocked key comparison, every channel operation is one step. The theorems about concurrency are about all runs;
- a **class** whose methods are the source's own methods, with its fields and loops, proved against a specification.
  Where the source waits for other threads, the method takes their steps as a schedule or as arbitrary choices.

## The sharded map

Python keys are `Obj` values: an identity and an equality class, and the class fixes the hash. Identity (`is`) is
equality of these values; user-level `==` is having the same class, so it is an equivalence that agrees with the hash.

`MapMachine` is the optimistic protocol of `src/map.rs`: fast path under the lock; snapshot; unlocked comparisons that
grow `checked_keys`; re-lock after a match; step 3, which retries, acts or appends. Its field `hist` records the table
after every step and is only a record: no step looks at anything but the last table.

- `MapUniqueness`, `MapFreshKeys`: when equal keys can coexist. The claim that `set` never creates duplicate entries
  (`tests/test_map.py:439`) is **false of the code** in full generality: `SetCanDuplicate` gives the interleaving. A
  key that compared equal stays in `checked_keys` after it was missed at the re-lock; when the same object is put back
  before step 3, `set` appends a second equal key beside it. `UniqueExactly` is the exact condition, `UniqueWithSet` and
  `UniqueWithFreshKeys` are conditions callers can keep to (the test keeps to the last one), and
  `UniqueWithoutSetAppend` shows that everything except that append is unconditionally safe.
- `MapLinear`, `MapOrder`: linearizability of every run that keeps keys unique. A `delete` or `pop_val` that finds
  nothing although an equal key is listed again needs hindsight (`MissHindsight`).
- `MapMeaning`: what each call of a run did to the stored values, said about the tables alone; and what every block of
  the protocol does with its bucket, fast paths and identity fallback included.
- `MapProgress`: retries are paid for, one by one, by other threads' insertions or removals.
- `MapScan`, `MapConsume`: weak snapshots of `items()` and `len()`; removals consume entries exactly once.
- `ContendedMaps`: the fast paths and retry loops as code, with other threads at work between any two of their steps.
  Each call is a run of the machine, so what is proved of all runs holds of it; and it ends under every finite schedule,
  because a `continue` needs a step of somebody else.
- `ConcurrentMaps`, `ConcurrentDicts`: the objects as one thread sees them when nobody interferes, refining one abstract
  map over key classes, with the entries of a hash in shard `hash % n` and no bucket list left empty. Here one iteration
  of each retry loop is enough.

## Channels and select

`Channels` has channels of any capacity, live sender handles (the channel's own, clones in pending calls, clones in
`SendOp` objects), the two steps of `close`, and calls waiting on any number of arms, each beside its close arm. Which
ready arm fires and when a timeout fires is left open. `ChannelSafety` proves FIFO conservation and the one-to-one
correspondence between accepted items and successful sends, delivered items and successful receives, in every run.
`ChannelClose` proves that each call does one thing, that closing leaves nobody hanging, and that the "closed and empty"
error is honest. `ChannelAnswers` says of every step what it does, each error with its exact cause, and traces every
accepted item to the call that sent it. `ChannelObjects` and `Selects` are the methods themselves, for one consumer.

## Threads

- `ThreadGroups`: threads start before they are listed and may spawn more; when `__exit__` leaves its loop, every thread
  ever started in the group has finished and was joined, by descent on the spawn tree.
- `ActorMachine`: the mailbox protocol. In every run the worker's history is `on_start`, then a prefix of the accepted
  messages in order and each once, then `on_stop`: draining in batches behaves like receiving one at a time. A message
  accepted before the first sentinel is lost if and only if one of two steps is taken (`LostExactly`): `try_recv` finds
  the mailbox empty with no live sender while a batch is in hand, or a send that was in flight at the close is accepted
  after `recv` has given up. `DropRunLoses` and `StrandRunLoses` are runs of each kind. Closing only after the worker has
  exited, which is what `stop()` without a timeout does, rules both out (`OrderlyStopLosesNothing`). Messages accepted
  behind a sentinel never run (`BehindSentinelNeverRuns`), and there are such runs (`LateRunLeaves`).
- `ActorOutcomes`: the worker's history event by event: every future gets exactly what its message returned or raised, the
  executions are in the order of acceptance, and the hooks are in place.
- `Actors`: `_run_loop`, the send path and `stop` as code; each is a run of that protocol, under every schedule of the
  callers. `ActorInits`: which constructor of a class chain raises the guard on public attributes.
- `ThreadPools`: every task is run or cancelled, once, and its future gets what the callable returned or raised, or the
  cancellation; when `shutdown(wait=True)` or a drop without prior shutdown is
  done every future is settled; and shutting down ends. A second `shutdown` and a drop after `shutdown(wait=False)` wait
  for nobody: the contracts of `Shutdown` and `Drop` claim completion only while the pool is active.
- `RwLocks`: `READ_DEPTH` is the number of read guards entered over all locks, and a thread that reads a lock can read it
  again whatever writers are queued. Because the depth is not kept per lock, a thread reading any lock also passes the
  writers queued on every other lock: `ReadEntersIff` is the exact rule.

Where code and documentation disagree the model follows the code: the default shard count is a parameter of at least 16
(`README.md` speaks of 32 shards).

## Model

| member | source | states |
|---|---|---|
| Buckets.Pos | src/map.rs:177 | the identity search finds a position exactly when that very object is listed |
| Buckets.Fresh | src/map.rs:110-119 | a snapshot's candidates are exactly the entries not yet compared |
| Buckets.Find | src/map.rs:64-71 | a bucket answers for a class exactly when some entry has it, with that entry's value |
| Buckets.UpdateMeaning | src/map.rs:177-180 | overwriting a value keeps keys distinct and changes one class only |
| Buckets.RemoveMeaning | src/map.rs:258-264 | removing an entry keeps keys distinct and forgets one class only |
| Buckets.PushMeaning | src/map.rs:240 | appending a key keeps keys distinct if and only if its class was absent |
| MapMachine.Step | src/map.rs:99-424 | a step extends the recorded history by one table and rewrites nothing of the past |
| MapMachine.RunInv | src/map.rs:99-424 | in every run: each entry lies under its own hash; every checked key equal to the call's key was seen in the bucket and later missed; no entry of a snapshot is forgotten |
| MapUniqueness.GetOrInsertSeesAbsence | src/map.rs:133-153 | when `get_or_insert` appends, no listed key is equal, so its identity fallback never fires |
| MapUniqueness.TurnUnique | src/map.rs:99-424 | a block keeps a duplicate-free bucket duplicate-free unless it is a `set` appending beside an equal key |
| MapUniqueness.UniqueIff | src/map.rs:99-424 | a run keeps all buckets duplicate-free if and only if no `set` appends beside an equal key |
| MapUniqueness.UniqueWithoutSetAppend | src/map.rs:99-155 | without step-3 appends by `set`, uniqueness holds in every interleaving, re-insertions included |
| MapUniqueness.DuplicateNeedsPutBack | src/map.rs:209-241 | a duplicate append proves that a removed key object was put back during the retry loop |
| MapUniqueness.UniqueWithSet | src/map.rs:158-243 | uniqueness with `set`, when no removed object is put back during the retry loop of a `set` of an equal key |
| MapUniqueness.SetCanDuplicate | src/map.rs:209-241 | the interleaving, for any two equal keys, that leaves both in the bucket |
| MapFreshKeys.DuplicateIffPutBack | src/map.rs:209-241 | an append is a duplicate exactly when an equal object seen and missed by the same call has come back |
| MapFreshKeys.UniqueExactly | src/map.rs:158-243 | a run keeps keys unique if and only if no append happens beside such an object |
| MapFreshKeys.UniqueWithFreshKeys | tests/test_map.py:439-498 | if no key object is handed to two storing calls, equal keys never coexist |
| MapFreshKeys.RunExplained | src/map.rs:99-243 | a key object only ever appears at the last step of a call that stores it |
| MapLinear.EffectAnswers | src/map.rs:158-424 | an effectful last block changes exactly its class, to what the sequential map would hold, with the right answer |
| MapLinear.SnapshotAnswers | src/map.rs:49-96 | what comparing the snapshot finds is what the bucket held for the class at the snapshot |
| MapLinear.AbsentBefore | src/map.rs:273-332 | hindsight: a key seen, missed and present again was inserted in between, with its class absent just before |
| MapLinear.MissHindsight | src/map.rs:314-331 | a `delete` that finds nothing although an equal key is listed: the class was absent at some instant of the call |
| MapLinear.AnswerInstant | src/map.rs:49-450 | every answer without an effect was right at some instant of its call |
| MapLinear.ClearMeets | src/map.rs:471-475 | one turn of `clear` removes exactly the classes of its shard |
| MapLinear.RunLin | src/map.rs:49-475 | in every run calls complete one at a time, each explained by an instant, and no other step changes a bucket |
| MapLinear.EveryCallTakesEffect | src/map.rs:49-475 | in every uniqueness-keeping run each completed call has an instant inside it where answer and effect match the abstract map |
| MapMeaning.ClearedShard | src/map.rs:471-475 | emptying a shard removes exactly the classes whose hash belongs to it |
| MapMeaning.ClearTurn | src/map.rs:471-475 | one turn of `clear`, in any run: its shard's classes are absent, all others keep their values |
| MapMeaning.ClearEmpties | src/map.rs:471-475 | after a thread's turns over all shards every class was absent right after its shard's turn |
| MapMeaning.EveryCallIsRight | src/map.rs:49-475 | in uniqueness-keeping runs, about the tables alone: the value each call answers was held during it, or is what its last step stored or removed, and no call touches another class |
| MapMeaning.OtherStepsChangeNothing | src/map.rs:49-475 | a step that is not the effect of a call changes no stored value |
| MapMeaning.FastPathDecides | src/map.rs:163-183 | the fast path ends the call exactly on an empty bucket or the caller's own key object, and how |
| MapMeaning.RelockActs | src/map.rs:211-223 | after a match that very object's entry is overwritten or removed exactly if it is still listed |
| MapMeaning.LastStepDecides | src/map.rs:226-241 | step 3 retries exactly if an unchecked key is listed; else acts on the caller's own key object, else appends or gives up |
| MapMeaning.RetriesCount | src/map.rs:230-233 | the retry counter counts exactly the `continue`s |
| MapOrder.OrderTimed | src/map.rs:49-475 | the order built from the instants respects real time |
| MapOrder.OrderComplete | src/map.rs:49-475 | the order contains each completed call, once |
| MapOrder.ReplayOrder | src/map.rs:49-475 | replaying the order on a sequential map gives every recorded answer and ends in the stored map |
| MapOrder.Linearizable | src/map.rs:49-475 | linearizability: one order of exactly the completed calls, respecting real time, legal for the sequential map, ending in what the table stores |
| MapProgress.RetryNeedsDisturbance | src/map.rs:138-144 | `continue` is taken only if another step inserted (or, except for `get_or_insert`, removed) a key since the snapshot |
| MapProgress.RetriesArePaid | src/map.rs:106-144 | in every run a call's retries never exceed the steps of other threads that inserted into (or, except for `get_or_insert`, removed from) its bucket since it began |
| MapProgress.UndisturbedFinishesFirstRound | src/map.rs:188-233 | without interference a call is in its first iteration and step 3 lets it return |
| MapScan.VisitMeaning | src/map.rs:511-518 | one visit lists exactly its shard's entries, without equal keys |
| MapScan.ScanMeaning | src/map.rs:509-520 | a scan lists exactly what each shard held at its visit |
| MapScan.WeakSnapshot | src/map.rs:509-520 | under any mutation: no two equal keys, every pair live at its visit, every key that stays is listed once |
| MapScan.LenCountsItems | src/map.rs:455-464 | in every run, with equal keys or not, `len()` is the number of pairs of an `items()` scan with the same visits |
| MapConsume.Meaning | src/map.rs:11-13 | every table denotes an abstract map |
| MapConsume.ConsumeInstant | src/map.rs:337-424 | a call that reports a removal is the very step that takes its class from present to absent |
| MapConsume.MissIsReal | src/map.rs:405-422 | a call that reports a miss: the class was absent at some instant inside it |
| MapConsume.PopItemSkipsOnlyRemoved | python/pysync/dict.py:135-144 | `popitem` passes over a key of its snapshot only because some step removed its class since |
| MapConsume.ConsumedOnce | python/pysync/dict.py:124-144 | the calls that inserted a class are as many as those that consumed it, the turns of `clear` that took it, and its live entry together |
| ShardedTable.PutRefines | src/map.rs:169-180 | replacing one bucket changes one class of the abstract map and keeps the shard layout |
| ShardedTable.AllCollected | src/map.rs:509-520 | collecting all buckets of all shards lists the abstract map, one entry per class |
| ShardedTable.ListedSize | src/map.rs:455-464 | a listing has as many entries as the map has classes |
| ContendedMaps.ContendedMap.FastPath | src/map.rs:163-183 | under any interference the fast path ends the call or hands it to the loop |
| ContendedMaps.ContendedMap.Compare | src/map.rs:208-213 | comparing outside the lock, with others at work, stops at the first equal candidate or has checked them all |
| ContendedMaps.ContendedMap.Relock | src/map.rs:297-305 | after a match the entry is acted on exactly if that object is still listed |
| ContendedMaps.ContendedMap.Conclude | src/map.rs:227-241 | step 3 retries exactly if an unchecked key is listed |
| ContendedMaps.ContendedMap.Round | src/map.rs:188-242 | an iteration ends in `continue` only if others have moved during it |
| ContendedMaps.ContendedMap.Modify | src/map.rs:158-424 | `set`, `delete` and `pop_val` end under every schedule, as runs of the machine, with an answer and effect that are right at an instant of the call |
| ContendedMaps.ContendedMap.InsertRound | src/map.rs:106-154 | the same for an iteration of `get_or_insert` |
| ContendedMaps.ContendedMap.GetOrInsert | src/map.rs:99-155 | the same for `get_or_insert` |
| ConcurrentMaps.ConcurrentMap.constructor | src/map.rs:35-40 | a map with the given number of shards, empty |
| ConcurrentMaps.ConcurrentMap.New | src/map.rs:19-41 | an error exactly for a zero count; otherwise an empty map with the given or the default number of shards |
| ConcurrentMaps.ConcurrentMap.GetVal | src/map.rs:49-96 | refines lookup on key classes |
| ConcurrentMaps.ConcurrentMap.ContainsKey | src/map.rs:427-450 | true exactly when the class is in the map |
| ConcurrentMaps.ConcurrentMap.Compare | src/map.rs:125-131 | stops at the first equal candidate, or has recorded all of them unequal |
| ConcurrentMaps.ConcurrentMap.GetOrInsertRound | src/map.rs:106-154 | undisturbed, one iteration finishes the call with the specified effect |
| ConcurrentMaps.ConcurrentMap.GetOrInsert | src/map.rs:99-155 | refines get-or-insert: the stored value, or the default stored |
| ConcurrentMaps.ConcurrentMap.SetRound | src/map.rs:188-242 | undisturbed, one iteration of the slow path assigns the class |
| ConcurrentMaps.ConcurrentMap.Set | src/map.rs:158-243 | refines assignment: exactly the key's class changes |
| ConcurrentMaps.ConcurrentMap.PopRound | src/map.rs:364-423 | undisturbed, one iteration of the slow path removes the class and returns its value |
| ConcurrentMaps.ConcurrentMap.PopVal | src/map.rs:337-424 | refines removal: the value is returned, exactly the key's class goes |
| ConcurrentMaps.ConcurrentMap.Clear | src/map.rs:471-475 | empties the map |
| ConcurrentMaps.ConcurrentMap.Items | src/map.rs:509-520 | lists the map in some order, one entry per class |
| ConcurrentMaps.ConcurrentMap.Len | src/map.rs:455-464 | the number of classes in the map |
| ConcurrentDicts.SetAllListing | python/pysync/dict.py:146-151 | setting the pairs of a listing into an empty map rebuilds the map, whatever the order |
| ConcurrentDicts.AllToMeaning | python/pysync/dict.py:168-174 | `fromkeys` stores exactly the given keys' classes, with the one value |
| ConcurrentDicts.LastPairWins | python/pysync/dict.py:112-122 | assigning pairs to any map leaves each class with the value of the last pair for it |
| ConcurrentDicts.OthersKeepTheirs | python/pysync/dict.py:112-122 | and a class without a pair keeps its value |
| ConcurrentDicts.ReadOutMeans | python/pysync/dict.py:111-120 | the pairs of a mapping are its keys in order with the values looked up, up to the first that cannot be |
| ConcurrentDicts.ConcurrentDict.GetItem | python/pysync/dict.py:25-29 | the stored value, or None for KeyError |
| ConcurrentDicts.ConcurrentDict.PopFirst | python/pysync/dict.py:139-142 | takes exactly one stored pair of a non-empty snapshot |
| ConcurrentDicts.ConcurrentDict.PopItem | python/pysync/dict.py:124-144 | KeyError exactly on the empty dictionary; otherwise one stored pair is removed and returned |
| ConcurrentDicts.ConcurrentDict.Update | python/pysync/dict.py:107-122 | the pairs read out of a mapping, of `items()` or of an iterable are assigned in order, keyword arguments last, the last value for a class winning over earlier and stored ones; a lookup that fails stops it after the pairs before |
| ConcurrentDicts.ConcurrentDict.Copy | python/pysync/dict.py:146-151 | a new dictionary with equal contents; the original is unchanged |
| ConcurrentDicts.ConcurrentDict.FromKeys | python/pysync/dict.py:168-174 | a new dictionary holding the keys with the value |
| ConcurrentDicts.ConcurrentDict.Equals | python/pysync/dict.py:51-59 | with a `ConcurrentDict` or a `dict`, same length and one-way inclusion decide equality of the contents; anything else is unequal |
| ChannelSafety.RunInv | src/channel.rs:22-253 | the invariant of every run: queue, close flags, handles, pending calls and outcomes fit together |
| ChannelSafety.Conservation | src/channel.rs:51-186 | accepted items are the delivered ones followed by the buffer, which never exceeds the capacity |
| ChannelSafety.AcceptedIffSent | src/channel.rs:51-101 | an item was accepted, once, exactly when its call returned success for that arm; any error or timeout means it never was |
| ChannelSafety.DeliveredIffGot | src/channel.rs:111-186 | each delivered item was returned by exactly one call, and a call that returned an item took it |
| ChannelSafety.OnlyOldHandlesAfterClose | src/channel.rs:200-203 | on a closed channel every item ever accepted travelled on a handle cloned before the close |
| ChannelSafety.StartCloseOk | src/channel.rs:200-203 | dropping the sender keeps the invariant: every live handle is older than the close |
| ChannelClose.EveryCallDoesOneThing | src/select.rs:83-138 | success at arm i moved exactly one item on arm i's channel and touched no other; any other outcome moved nothing |
| ChannelClose.ClosedEmptyIsHonest | src/channel.rs:132-161 | "closed and empty" only after the close began, with the buffer empty at that check, on a channel the call receives from |
| ChannelClose.NoHang | src/channel.rs:82-99 | after a completed close every pending call on the channel has a step of its own that brings it nearer its end |
| ChannelClose.CloseLetsEveryoneFinish | src/channel.rs:198-203 | and at most three such steps end it |
| ChannelClose.ClosedStaysClosed | src/channel.rs:200-203 | no step reopens a channel or takes back a completed close |
| ChannelClose.NoStepSetsBack | src/channel.rs:51-162 | no step of anybody sets a pending call back |
| ChannelAnswers.SendStarts | src/channel.rs:51-78 | `send` fails at once exactly without a sender or for a negative timeout; else it clones the sender, and tries first exactly when untimed |
| ChannelAnswers.TrySendStarts | src/channel.rs:165-167 | `try_send` fails at once exactly without a sender |
| ChannelAnswers.RecvStarts | src/channel.rs:111-128 | a receive fails at once exactly for a negative timeout, closed or not |
| ChannelAnswers.SelectStarts | src/select.rs:35-78 | `select` waits on one arm for each operation, in order, each send with its operation's item |
| ChannelAnswers.OperationsDo | src/channel.rs:207-225 | `send_op` clones the sender into the operation, and is refused exactly without one |
| ChannelAnswers.NewDoes | src/channel.rs:26-47 | a channel is made exactly for a non-negative capacity, open and empty |
| ChannelAnswers.TryingToSend | src/channel.rs:59-69 | the attempt is accepted exactly with room; without, `send` waits and `try_send` is full |
| ChannelAnswers.TryingToReceive | src/channel.rs:181-185 | the attempt takes the oldest item; on an empty channel `try_recv` says closed exactly without a live sender |
| ChannelAnswers.FiringDoes | src/select.rs:120-136 | a ready arm fires: a send with room is accepted, a receive takes the oldest item or ends without a live sender |
| ChannelAnswers.MeetingDoes | src/channel.rs:33-36 | on a rendezvous channel a waiting sender and a receiver can meet, and both succeed with the one item |
| ChannelAnswers.SignalDoes | src/channel.rs:132-142 | the close arm is ready exactly once the signal is gone |
| ChannelAnswers.LastLookDoes | src/channel.rs:137-142 | the last look after the close takes a buffered item if there is one |
| ChannelAnswers.ExpiryDoes | src/channel.rs:143 | exactly the timed calls can time out, and then nothing is transferred |
| ChannelAnswers.CloseCompletes | src/channel.rs:200-203 | `close()` waits only for a `try_send` in progress, drops sender and signal, and leaves the buffer |
| ChannelAnswers.AcceptedHistory | src/channel.rs:52-55 | every accepted item was handed to a `send`, `try_send` or `send_op` of that channel, on a closed one before the close that dropped the sender |
| ChannelObjects.Channel.New | src/channel.rs:26-47 | an error exactly for a negative capacity; otherwise an open, empty channel |
| ChannelObjects.Channel.Send | src/channel.rs:51-101 | the item is buffered exactly when the call succeeded; an untimed send with room succeeds; each error has its cause |
| ChannelObjects.Channel.TrySend | src/channel.rs:165-174 | closed, full, or appended: exactly by the sender and the room left |
| ChannelObjects.Channel.TryRecv | src/channel.rs:177-186 | the oldest item if there is one, else closed or empty by the live handles |
| ChannelObjects.Channel.Recv | src/channel.rs:111-162 | the oldest item or nothing moved; an untimed receive never misses a buffered item; each error has its cause |
| ChannelObjects.Channel.Close | src/channel.rs:200-203 | sender and close signal are dropped, the buffer stays |
| ChannelObjects.Channel.Next | src/channel.rs:236-253 | yields the oldest item; on an empty channel stops exactly when `recv` fails and the sender is gone |
| ChannelObjects.DrainByRecv | src/channel.rs:103-110 | repeated `recv` on a closed channel returns exactly the buffer, in order |
| ChannelObjects.DrainedFailsForever | src/channel.rs:103-110 | and then fails however often it is called |
| ChannelObjects.DrainByIteration | src/channel.rs:232-253 | iteration over a closed channel yields exactly the buffer and stops |
| Selects.Register | src/select.rs:58-78 | the two index tables are disjoint, cover every registered index, and give each operation one of each |
| Selects.Resolve | src/select.rs:94-137 | any ready index resolves to one thing: the item, the send, or the close; its impossible answers never occur |
| Selects.Select | src/select.rs:30-148 | any list of operations, duplicates included: each error exactly by its cause, success moves one item on its operation's channel only |
| ThreadGroups.NextInv | python/pysync/group.py:45-49 | every started thread is listed or its spawner sits between `start()` and `append()` |
| ThreadGroups.NextErrors | python/pysync/group.py:38-43 | the recorded errors are exactly the exceptions the members raised |
| ThreadGroups.FailuresAre | python/pysync/group.py:38-43 | the failures are exactly the exceptions that some member raised |
| ThreadGroups.FailuresCount | python/pysync/group.py:38-43 | there are as many failures as members that raised |
| ThreadGroups.StepsDo | python/pysync/group.py:38-49 | starting makes an unlisted running child, appending lists it, a raised exception is recorded and stays with its member |
| ThreadGroups.ListedDoneMeansAllDone | python/pysync/group.py:54-64 | once every listed thread has finished, every thread ever started has, and is listed |
| ThreadGroups.AllDoneIsFinal | python/pysync/group.py:54-64 | then nothing runs and nothing can start |
| ThreadGroups.ThreadGroup.Spawn | python/pysync/group.py:26-49 | the new thread is started, and listed when the call returns |
| ThreadGroups.ThreadGroup.JoinAll | python/pysync/group.py:61-64 | after a round every thread of the snapshot has finished and was joined |
| ThreadGroups.ThreadGroup.Exit | python/pysync/group.py:54-74 | under every schedule: on leaving the loop all threads ever started have finished and were joined; the body's exception goes first, otherwise nothing, the one exception of the members or all of them are raised, exactly; it waits only while a listed thread is unfinished and the schedule is used up |
| ActorMachine.RunOk | python/pysync/actor.py:118-181 | in every run: the worker's history is `on_start`, a prefix of the accepted messages in order and each once, `on_stop`; the rest is in hand or in the mailbox; every send is still with its caller, in flight, accepted or refused |
| ActorMachine.EndIsFinal | python/pysync/actor.py:130-181 | once the worker has left its loop nothing is executed any more, whatever is accepted |
| ActorMachine.LossStep | python/pysync/actor.py:133-145 | a step loses a message exactly if it is one of the two losing ones, in every state that satisfies the invariant |
| ActorMachine.LostExactly | python/pysync/actor.py:131-176 | over all runs, a message accepted before the first sentinel is lost if and only if a losing step is taken |
| ActorMachine.DropRunLoses | python/pysync/actor.py:137-145 | a run, for any capacity, in which a drain in progress sees the mailbox closed and drops its batch |
| ActorMachine.StrandRunLoses | src/channel.rs:53-56 | a run in which a send begun before the close is accepted after the worker has given up |
| ActorMachine.BehindSentinelNeverRuns | python/pysync/actor.py:149-151 | in every run nothing accepted behind a sentinel is executed |
| ActorMachine.SentinelMeansStopped | python/pysync/actor.py:294-298 | a sentinel is accepted only after `stop` was called |
| ActorMachine.LateRunLeaves | python/pysync/actor.py:134-135 | a run in which a message accepted behind the sentinel is left, without loss before it |
| ActorMachine.OrderlyStopLosesNothing | python/pysync/actor.py:290-307 | if the mailbox is not closed before the worker has exited, nothing accepted before the first sentinel is lost |
| ActorMachine.StopIsComplete | python/pysync/actor.py:290-307 | when the worker of such a run has exited it has run exactly the messages before the first sentinel, in order, each once |
| ActorMachine.FuturesAccount | python/pysync/actor.py:210-233 | in every run a future is resolved as often as messages carrying it were executed by the worker or refused to the caller; all other calls that asked for it are pending |
| ActorMachine.SentinelEndsWorker | python/pysync/actor.py:301-303 | once a sentinel is accepted a bounded number of worker steps leads to its exit, whatever the messages do |
| ActorOutcomes.WorkerEvents | python/pysync/actor.py:152-172 | in every run an execution, an `on_error` call or a resolution is in the worker's history exactly for an executed message it belongs to, with the outcome of that message |
| ActorOutcomes.FutureGetsOutcome | python/pysync/actor.py:156-172 | the future of an executed call gets the value returned, None for a handled exception, the exception otherwise |
| ActorOutcomes.CallerEvents | python/pysync/actor.py:210-216 | callers settle exactly the futures of refused calls, with the error |
| ActorOutcomes.ExecutedInOrder | python/pysync/actor.py:147-157 | the executions are those of the first accepted messages, in the order of acceptance |
| ActorOutcomes.HooksInPlace | python/pysync/actor.py:119-181 | `on_start` once and first, its `on_error` next exactly if it raised, `on_stop` once and last exactly after the exit |
| ActorOutcomes.StopSends | python/pysync/actor.py:294-298 | `stop` refuses all later calls and sends a sentinel exactly if there is a worker |
| ActorOutcomes.TakesFromFront | python/pysync/actor.py:133-143 | the worker takes from the front of the mailbox and drains up to a sentinel |
| Actors.Actor.constructor | python/pysync/actor.py:71-74 | an actor without a worker, over an open, empty mailbox |
| Actors.Actor.EnsureThreadStarted | python/pysync/actor.py:107-116 | one worker is started, however often it is called |
| Actors.Actor.Ask | python/pysync/actor.py:198-233 | a stopped actor has no effect; otherwise the worker is started and the message is refused exactly if the mailbox's sender is gone, its future settled by the caller, or else accepted or blocked on a full mailbox |
| Actors.Actor.LookReceiving | src/channel.rs:111-162 | `recv` takes the oldest item, gives up on an empty mailbox once the signal or the last sender is gone, and is blocked otherwise |
| Actors.Actor.LookDraining | src/channel.rs:177-186 | `try_recv` takes the oldest item, and finds an empty mailbox closed only without any live sender |
| Actors.Actor.Receive | python/pysync/actor.py:133 | whatever others do meanwhile: an item, the end at a closed mailbox, or blocked when the schedule is over |
| Actors.Actor.Drain | python/pysync/actor.py:137-145 | the batch grows by what is in the mailbox up to a sentinel, or is dropped when the mailbox is found closed |
| Actors.Actor.RunOne | python/pysync/actor.py:152-172 | one message: it runs, `on_error` on a raise, and its future gets the value, None if the exception was handled, or the exception |
| Actors.Actor.RunBatch | python/pysync/actor.py:147-174 | the batch is executed in order up to the sentinel, whatever arrives meanwhile |
| Actors.Actor.RunLoop | python/pysync/actor.py:118-181 | under every schedule of callers and closing, and for every batch split, the loop is a run of the protocol and keeps its invariant; it ends blocked, or after `on_stop` |
| Actors.Actor.StopAndJoin | python/pysync/actor.py:290-307 | `stop()` returns with every message before the first sentinel run once, between the hooks, and the mailbox closed; it does not return only while no sentinel was accepted |
| ActorInits.Guard.Wrapped | python/pysync/actor.py:6-32 | the guard is raised exactly by an outermost successful `__init__`; the depth is restored even when bodies raise |
| ActorInits.Guard.Body | python/pysync/actor.py:21-31 | nested `__init__` calls never raise the guard |
| ThreadPools.NextInv | src/pool.rs:62-104 | every task is in exactly one place: queued, held, running, finished or cancelled, with matching counts |
| ThreadPools.NeverTwice | src/pool.rs:62-104 | a task runs or is cancelled at most once and never both, cancelled only after that was requested; its future has exactly what the callable returned or raised, or the cancellation |
| ThreadPools.WorkDoes | src/pool.rs:64-102 | a worker takes the oldest task, exits on an empty queue without a sender, cancels or starts the task in hand by the flag, and ends a running one |
| ThreadPools.CancelStopsRuns | src/pool.rs:67-69 | with cancellation requested no step starts a task |
| ThreadPools.CancelledNeverRuns | src/pool.rs:67-69 | a task not started when the flag was set is never run in any later run |
| ThreadPools.CancelledInTheEnd | src/pool.rs:173-187 | and once all workers have exited it is cancelled and its future knows |
| ThreadPools.FifoDispatch | src/pool.rs:64 | tasks are taken in the order of their submission |
| ThreadPools.AllGoneSettles | src/pool.rs:64-104 | when all workers have exited every future is settled once, and every task ran if cancellation was never requested |
| ThreadPools.ShutdownEnds | src/pool.rs:177-187 | after the sender is dropped every worker that has not exited has a step, and each leaves less work |
| ThreadPools.WorkIsBounded | src/pool.rs:184-186 | from then on any run of the workers has at most as many steps as there is work left |
| ThreadPools.JoinsEnd | src/pool.rs:184-186 | and some run within that bound brings all workers to their exit, as long as tasks return |
| ThreadPools.ThreadPool.New | src/pool.rs:33-45 | an error exactly for a non-positive worker count |
| ThreadPools.ThreadPool.SubmitTask | src/pool.rs:120-160 | refused exactly when shut down; otherwise one new queued task |
| ThreadPools.ThreadPool.JoinAll | src/pool.rs:184-186 | when the joins are done every given worker has exited |
| ThreadPools.ThreadPool.Shutdown | src/pool.rs:164-196 | the first waiting call returns with every future settled and, with cancellation, exactly the tasks run that were started before the flag was set and all others cancelled; without, all run; later calls change nothing |
| ThreadPools.ThreadPool.Drop | src/pool.rs:201-216 | a drop without prior shutdown settles every future |
| RwLocks.RunOk | src/lock.rs:67-171 | in every run: each thread's depth is its entered read guards over all locks; each lock has readers or one writer |
| RwLocks.DepthNeverUnderflows | src/lock.rs:120-130 | leaving a read guard always lowers the depth by one: the `> 0` test never saves it |
| RwLocks.RereadNeverBlocks | src/lock.rs:78-95 | a thread already reading a lock enters it again at once, whatever writers are queued |
| RwLocks.ReadEntersIff | src/lock.rs:78-95 | a read is certain to enter if and only if no writer is inside and none is queued or the thread is reading some lock |
| RwLocks.WriteEntersIff | src/lock.rs:144-151 | a write is certain to enter if and only if no guard of the lock is held and no writer is queued |
| RwLocks.GuardsDo | src/lock.rs:67-171 | an entered guard holds its lock as its kind says, leaving lets go, and guards already entered are refused with no effect |
| RwLocks.WriterQueues | src/lock.rs:154-159 | a blocked write that finds somebody inside joins the queue |
| RwLocks.WriterIsAlone | src/lock.rs:133-165 | a held write guard excludes every other guard of its lock |
| RwLocks.EnterThenExit | src/lock.rs:67-131 | entering and leaving restores depth, lock and guard |
| RwLocks.FreeLockAdmits | src/lock.rs:97-116 | once nobody is inside, any blocked guard can be let in |
| RwLocks.Locks.DoEnter | src/lock.rs:70-117 | already-entered guards are refused with no effect; on a free lock the guard enters at once; otherwise, once entered, it holds the lock and the depth counts it, whatever runs meanwhile |
| RwLocks.Locks.DoExit | src/lock.rs:120-130 | the lock is released and the depth lowered, or nothing happens on a guard not entered |

## Left out

- Key equality that raises, is not an equivalence or changes over time; finalizers that run when a key or value is dropped.
- The interpreter lock, reference counting and PyO3 conversions; a hash is a number below 2^64.
- `ConcurrentMaps` is the map between interferences: the missed re-lock, the `continue` and the identity fallback of step 3
  cannot be reached there; they are in `ContendedMaps` and `MapMachine`.
- ContendedMaps.ContendedMap.Modify: one body for `set`, `delete` and `pop_val`, which differ only in the action taken.
- `delete` as a method of its own: the same code as `pop_val`, answering whether a value was removed. In the machine both
  are operations.
- `keys()` and `values()`: the loop of `items()` with one half of each pair.
- `clear` is one step per shard in the machine; it is not one atomic step of the whole map, in the code either.
- Linearizability of runs that break uniqueness: no abstract map over key classes describes a table with equal keys.
- Mutation of the argument of `update` or `==` by other threads while it is read.
- `pop`, `setdefault`, `get` with defaults, `iter_*` and `__repr__` of the dictionary: single delegating calls.
- The inside of the channel queue, of `parking_lot`, of `threading` and of futures: an atomic FIFO with any ready arm
  chosen, a reader-writer lock whose queue may let a request pass or not, start and join, a settle-once cell.
- Real time and fairness: a timeout may fire at any moment of a timed call; nothing is said about starvation.
- ChannelObjects.Channel.Recv: the calls of one consumer; several threads, clones in flight and zero-capacity rendezvous
  are in `Channels` only, and a rendezvous there may also match pairs the real queue would not.
- Selects.Select: resolves against the channels' state at the moment of the call; waiting is in `Channels` only.
- `asend` and `arecv`, context-manager sugar, `send_timeout` and `recv_timeout` (aliases).
- ThreadGroups.ThreadGroup.Exit: calls of `spawn` by threads outside the group while `__exit__` runs.
- Actors.Actor.StopAndJoin: `stop` from the actor's own thread, which does not join, or racing with the first start; a
  `stop` with a timeout is in `ActorMachine` only, as a close at any moment and a sentinel that may be given up.
- Futures cancelled by clients.
- Attribute reads and writes on actors beyond the send path and the initialisation guard.
- ThreadPools.ThreadPool.Shutdown: cancelling a future that a client has already touched; contextvars capture.
- Read guards dropped without `__exit__`; handing a guard to another thread (the source forbids it).
- `src/atomic.rs`: single machine operations and an ordering table.
