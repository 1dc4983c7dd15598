# A model of the session trail, the host, the relay and the hub

This project models the parts of the repository that keep state, and proves what they
keep. It has four layers.

**The session trail.** A thread's session is an event-sourced log. `Trail` gives the
meaning of one mutation (`Apply`) and of a log (`Replay`): a forest of entries with
parent pointers, named lanes, records with the open operations of each lane, labels, a
name and running totals. `SessionStateClass.SessionState` is the class that updates these
in place, each method proved equal to the specification. `LogValidity` says of a log alone
when it replays, `TrailIndexes` compares every derived index with a scan of the log,
`QueryAnswers` and `CatchUpReads` say which entries a reader gets, `Queries` proves the
paged reads, `Fork` the fork transformation, `ParentWalk` the walk to the root with its
cycle check.

**The storage.** `Store` models the key-value store as a map with atomic puts and an
unordered listing, `Keys` the padded log keys and session prefixes, `StoreLoad` what
loading answers over any store, `CallEffects` what each accepted call changes and when a
call is refused. `DoSession.DoSessionStorage` is the write-ahead storage as
a class, `StorageRuns` the same storage as small steps with many callers, failing puts
and crashes, over any session whose log replays. `DoSessionRepoClass.DoSessionRepo`
creates, forks and deletes sessions side by side, `RepoRuns` follows what those
operations write, and `RepoConsistency` lets all of it happen at once: sessions created,
forked, deleted and reopened while callers use their storages and anything may die.

**The host.** `HostConfig`, `HostEffects` and `SessionHostClass` model the model and
thinking-level commands and their recovery from the trail. `HostMachine` is the run machine
(Idle, Interrupted, Working, Compacting, Crashed) with a trace of its events, `HostRuns`
how its runs and compactions end.

**The control plane.** `Relay`, `RelayInvariant`, `RelayLater`, `RelayRuns`, `RelayTables`,
`RelayPairs` and `RelayRefusals` model the relay over socket events, with
`RelayCore.HubRelayCore` as the class. `Hub` and `HubEffects` model the registry, the env
gate and the idle-stop timers, with `HubClass.HubObject` as the class. `Template` and
`TemplateValues` are the config-value scanner and resolver.

Some properties hold only under a condition. Each is proved as an equivalence:

- Log keys sort like sequence numbers exactly while the log has fewer than 10^12
  mutations (`Keys.LogKeyOrderExactly`). Loading does not depend on it.
- A created or forked session agrees with its store exactly when no readable log record
  was left under its prefix beyond the ones it writes
  (`DoSession.DoSessionStorage.Create`, `DoSessionRepoClass.DoSessionRepo.ForkSession`,
  `StoreLoad.ReloadExactly`). Only a delete that died leaves such records
  (`RepoConsistency.CleanUnlessDeletesDie`), and it can
  (`RepoRuns.RecreatedLoadsOldLog`).
- The model and level commands set the live value before the trail entry is appended, and
  the append can be refused: the store's write fails, or the id is taken. From a host that
  agrees with its trail, a command leaves one that a restart would recover exactly when it
  changes no ref whose entry does not land (`HostConfig.KeptExactly`): a refused model
  entry only when the model stays, a refused level entry, alone or after a model entry
  that landed, only when the level stays. `HostConfig.RefusedLevelDiverges` is a thread for
  which it fails.
- A catch-up read reports the current sequence number as its tail exactly when the caller
  did not ask past it (`CatchUpReads.CatchUpExactly`).
- The close of either end of a pipe closes the other, whatever happens next, exactly when
  the worker was still connected as the pair was made or the daemon was already being
  closed (`RelayPairs.CloseTakesBothExactly`). It fails for the pairs an open daemon's hello
  makes with a first waiter that has closed; `RelayRuns.DeadWaiterIsPaired` is such a
  history.
- Printing template parts and parsing them gives them back exactly when no literal is
  empty and no two literals touch (`Template.TemplateRoundTrip`).

A fork writes the child's metadata before it plans the fork, so a fork that is refused at
that point leaves an empty child session behind. `DoSessionRepo.ForkSession` states this.
`matchesEntryQuery` reads an absent order as newest first, and so does the model.
The comments of the idle stop say that a timer which fires during a run is armed again; the
code calls `arm`, which refuses a thread that is not idle, so the timer stays off until the
next report or event (`HubEffects.FireDoes`).

## Model

| member | source | states |
|---|---|---|
| `SessionStateClass.SessionState.ApplyMutation` | packages/worker/src/session-state.ts:183-278 | Accepts exactly the mutations with the next sequence number, an unused id, known lane, parent, target, and the lane's leaf as parent; then the fields are those of the specification. A refused mutation leaves every field unchanged |
| `SessionStateClass.SessionState.AddEntry` | packages/worker/src/session-state.ts:205-215 | What an accepted entry does to each field: ids, list, index, lane leaf, log and message count, and no other |
| `SessionStateClass.SessionState.AddRecord` | packages/worker/src/session-state.ts:224-244 | What an accepted record does to each field: ids, list, open operations, log and usage totals, and no other |
| `SessionStateClass.SessionState.FindEntries` | packages/worker/src/session-state.ts:284-298 | The loop returns the matching entries in the asked order, up to the limit, or an error for a bad limit or cursor |
| `SessionStateClass.SessionState.FindEntriesOnBranch` | packages/worker/src/session-state.ts:300-325 | The two loops return the matching entries of the root path, cut at the first stopping entry, up to the limit, in either order |
| `SessionStateClass.SessionState.SelectUntilBound` | packages/worker/src/session-state.ts:304-313 | The oldest-first loop, which tests the bound after filtering, selects the same entries as cutting the path first |
| `SessionStateClass.SessionState.FindOpenOperations` | packages/worker/src/session-state.ts:343-348 | The open operations of a lane, newest first, up to the limit, or an error for a bad limit |
| `OpenOperations.OpenOperationsNewestFirst` | packages/worker/src/session-state.ts:343-348 | Over any log: only open operations are found, in falling order of sequence number, so the first is the latest open one; without a limit all of them |
| `SessionStateClass.SessionState.GetLog` | packages/worker/src/session-state.ts:350-364 | The log items past the cursor, oldest first, up to the limit |
| `SessionStateClass.SessionState.WalkToRoot` | packages/worker/src/session-state.ts:433-461 | The loop terminates; from a known entry it yields the path to the root or to the first stopping entry and neither error fires; an unknown start is not found |
| `SessionStateClass.SessionState.CreateForkMutations` | packages/worker/src/session-state.ts:379-431 | The loops produce the planned fork mutations. Of the child they replay into: a tree fork is the whole source; a branch fork ends at the selected entry or before it, as the options say, or fails exactly when the entry is unknown or no message |
| `Trail.ApplyKeepsWellFormed` | packages/worker/src/session-state.ts:183-278 | Every accepted mutation keeps the forest, the entry index, the lane leaves, the log numbering and the used ids consistent |
| `Trail.HistoryIsAppendOnly` | packages/worker/src/session-state.ts:202-215 | No later run of mutations, moved lanes and branches included, changes an existing entry, its place in the entries and the log, or its path to the root |
| `Trail.ReplayConcat` | packages/worker/src/do-session.ts:168-171 | Replaying a log in two parts is replaying it in one, errors included |
| `Trail.PathUp` | packages/worker/src/session-state.ts:433-461 | The path from an entry ends in a root, follows parent pointers, and has strictly falling sequence numbers |
| `LogValidity.ReplaysExactly` | packages/worker/src/session-state.ts:183-278 | A log replays if and only if each mutation continues the log before it, said of the log alone: the next number, no id used before, every lane, parent, leaf and label target already there, and an entry on a lane the child of what the log left that lane at |
| `TrailIndexes.IndexesEqualScan` | packages/worker/src/session-state.ts:130-278 | After any log that replays, entries by id, used ids, lane leaves, labels, name, open operations, message count and usage totals each equal a scan of the log, and log item i carries sequence number i + 1 |
| `TrailIndexes.OpenScanMembers` | packages/worker/src/session-state.ts:227-236 | A lane's open operations are exactly its started records that no later record of the same lane finishes |
| `ParentWalk.WalkReachesRoot` | packages/worker/src/session-state.ts:433-461 | The walk with its visited set and its two error cases equals the root path, cut at the bound, from every known entry of a forest |
| `QueryAnswers.FindEntriesExactly` | packages/worker/src/session-state.ts:284-298 | Refuses exactly a bad limit or cursor. Otherwise every entry found is one of the session, of the type and custom type asked for and past the cursor, in the asked order; no more than the limit are found, and any other such entry comes after a full page |
| `QueryAnswers.FindEntriesOnBranchExactly` | packages/worker/src/session-state.ts:300-325 | The same of the entries on the path from the start to the root that no stopping entry comes before, the stopping entry itself included; an unknown start is not found |
| `Queries.FindEntriesPages` | packages/worker/src/session-state.ts:284-298 | Following the cursor with any positive limit yields the unpaged result, in both orders and with any filter |
| `Queries.FindEntriesOnBranchPages` | packages/worker/src/session-state.ts:300-325 | The same for branch queries, in both orders, with any filter and with any stop bounds |
| `Queries.GetLogPages` | packages/worker/src/session-state.ts:350-364 | Following the cursor yields the whole log, and the unpaged read is the whole log |
| `CatchUpReads.CatchUpExactly` | packages/worker/src/session-host.ts:336-343 | Over any log that replays, a catch-up read refuses a negative cursor only, and holds exactly the entries of the session whose number lies past the cursor, once and in order: those the later mutations wrote. Its tail is the larger of the cursor and the current number |
| `CatchUpReads.CatchUpComposes` | packages/worker/src/session-host.ts:336-343 | However the log has grown since a read, that read and the next one from its tail together hold every entry past the first cursor, once and in order, and the second holds exactly the entries written in between |
| `Fork.ForkReplays` | packages/worker/src/session-state.ts:379-431 | For every reachable source and every option that does not fail, the fork's mutations replay on a fresh state; every copied entry is the source's up to its number and keeps its whole root path |
| `Fork.TreeForkIsWhole` | packages/worker/src/session-state.ts:382-384 | A tree fork never fails and has the same entries renumbered from 1, lanes in the same order, name and labels, and no records |
| `Fork.BranchForkIsPath` | packages/worker/src/session-state.ts:385-404 | Fails with an invalid target exactly when the given entry, or the leaf of `main` when none is given, is unknown or no message. Otherwise the child is a root path renumbered, `main` at its end as the only lane: up to the entry itself for "at" or when none was given, up to its parent for "before" or when one was given; empty when that is nothing |
| `Fork.ForkKeepsPaths` | packages/worker/src/session-state.ts:408-414 | In a fork, the path of every entry is the source's path, entry by entry |
| `StorageOps.PreparedIsAccepted` | packages/worker/src/do-session.ts:184-335 | Whatever passes a storage method's own validation is accepted by `applyMutation`, with the next sequence number, in every reachable state |
| `CallEffects.CreateLaneEffect` | packages/worker/src/do-session.ts:184-199 | Refused exactly for a lane that exists or an unknown leaf; otherwise the lane is added last, at that leaf, and nothing else changes but the log and the number |
| `CallEffects.MoveLaneEffect` | packages/worker/src/do-session.ts:201-216 | Refused exactly for an unknown lane or leaf; otherwise the lane is at that leaf, and nothing else changes but the log and the number |
| `CallEffects.AppendEntryEffect` | packages/worker/src/do-session.ts:218-236 | Refused exactly for an unknown lane or a used id; otherwise the entry is added last as the child of the leaf the lane had, under the next number, the lane is at it, and a message is counted |
| `CallEffects.AppendRecordEffect` | packages/worker/src/do-session.ts:238-266 | Refused exactly for an unknown lane, a used id or a start on a lane with an open operation; otherwise the record is added last, what it starts is the only open operation of its lane, what it finishes is open no more, and usage is summed |
| `CallEffects.SetLabelEffect` | packages/worker/src/do-session.ts:320-335 | Refused exactly for an unknown entry; otherwise the label is set, or deleted when none is given |
| `CallEffects.BranchContinuesPath` | packages/worker/src/session-host.ts:370-392 | After a lane is moved to an earlier entry, what is appended to it continues that entry's root path, wherever the lane was before, and the branch left behind stays |
| `StorageOps.RunIsReplay` | packages/worker/src/do-session.ts:184-335 | Replaying what any run of storage methods wrote gives the state the run left |
| `StorageOps.AtMostOneOpenOperation` | packages/worker/src/do-session.ts:238-266 | Every session grown by storage methods, from a fresh session or from any fork, has at most one open operation per lane; a fork starts with none |
| `Keys.LogKeyRoundTrip` | packages/store/src/keys.ts:28-31 | The last segment of a padded log key parses back to the sequence number, for every natural number |
| `Keys.LogKeyOrderExactly` | packages/store/src/keys.ts:28-31 | All keys up to n sort like their numbers if and only if n is below 10^12 |
| `Keys.PrefixesDisjoint` | packages/worker/src/do-session.ts:55-70 | Two distinct valid session ids never share a key under their prefixes |
| `Store.KvStore.List` | packages/store/src/kv.ts:130-135 | The listing holds each key under the prefix once, with its value, in no promised order |
| `Store.LoadsOnce` | packages/worker/src/do-session.ts:156-171 | What loading answers depends on the store's content alone, not on the order of the listing |
| `LoadOrder.GatheredAll` | packages/worker/src/do-session.ts:161-167 | From any listing order, filtering and sorting yields exactly the readable log records in ascending number |
| `StoreLoad.LoadDetectsHoles` | packages/worker/src/do-session.ts:156-171 | Over any surviving subset of a log that replays, loading succeeds if and only if the survivors are numbered 1 to some n, and then gives the state after the first n mutations |
| `StoreLoad.FirstBadRecord` | packages/worker/src/do-session.ts:156-171 | Loading fails at the first record that is no mutation, with a storage error, or whose mutation does not apply to the state before it, with an invalid entry |
| `StoreLoad.OnDiskLoads` | packages/worker/src/do-session.ts:139-174 | A store that holds exactly a log that replays loads into its state and into nothing else |
| `StoreLoad.ReloadExactly` | packages/worker/src/do-session-repo.ts:148-153 | A log written over a prefix reloads into its own state if and only if no other readable record is under the prefix |
| `DoSession.DoSessionStorage.Create` | packages/worker/src/do-session.ts:128-136 | Writes the metadata and nothing else; memory and store agree if and only if the prefix held no readable log record |
| `DoSession.DoSessionStorage.Load` | packages/worker/src/do-session.ts:139-174 | Not found without readable metadata, invalid when that record is not this session's metadata, and otherwise the replayed state or the error of the replay, whatever the listing order |
| `DoSession.DoSessionStorage.ListLog` | packages/worker/src/do-session.ts:156-167 | The filter and sort yield the readable log records, each once, ascending by number |
| `DoSession.DoSessionStorage.Commit` | packages/worker/src/do-session.ts:359-361 | One put under the mutation's key, then the mutation in memory; the store again holds exactly the history |
| `DoSession.DoSessionStorage.CreateLane` | packages/worker/src/do-session.ts:184-199 | Refuses exactly a known lane or an unknown leaf and writes nothing; otherwise the lane is added at that leaf, nothing else in memory changes but log and number, and the store gains that one lane mutation |
| `DoSession.DoSessionStorage.MoveLane` | packages/worker/src/do-session.ts:201-216 | Refuses exactly an unknown lane or leaf and writes nothing; otherwise the lane is at that leaf, nothing else in memory changes but log and number, and the store gains that one lane mutation |
| `DoSession.DoSessionStorage.AppendEntry` | packages/worker/src/do-session.ts:218-236 | Refuses exactly an unknown lane or a used id and writes nothing; otherwise the entry returned is the child of the lane's old leaf under the next number, added last in memory with the lane at it, and the one record the store gains |
| `DoSession.DoSessionStorage.AppendRecord` | packages/worker/src/do-session.ts:238-266 | Refuses exactly an unknown lane, a used id or a second open operation and writes nothing; otherwise the record returned has the next number, is added last in memory with its effect on open operations and usage, and is the one record the store gains |
| `DoSession.DoSessionStorage.SetName` | packages/worker/src/do-session.ts:301-314 | Never refused: the name is set, nothing else in memory changes but log and number, and the store gains that one name fact |
| `DoSession.DoSessionStorage.SetLabel` | packages/worker/src/do-session.ts:320-335 | Refuses exactly an unknown target and writes nothing; otherwise the label is set, or deleted when none is given, and the store gains that one label fact |
| `StorageRuns.CrashConsistency` | packages/worker/src/do-session.ts:354-361 | Over any session whose log replays, with any number of callers, failing puts and crashes at any step, the store always loads, into the state in memory or that state and the one mutation whose put had landed; what the session held and every acknowledged mutation stay in the loaded log at their own numbers |
| `StorageRuns.ExecKeepsInv` | packages/worker/src/do-session.ts:354-361 | The invariant behind crash consistency, on every run over any session whose log replays: the store holds the history, or the history and one acceptable mutation more, and what is about to be written is acceptable |
| `StorageRuns.AckedSeqsAscend` | packages/worker/src/do-session.ts:117-118 | Acknowledged mutations carry strictly increasing sequence numbers, all past those of the log that was opened, so no two mutations share one |
| `RepoRuns.Isolated` | packages/worker/src/do-session-repo.ts:114-156 | A change confined to one session's prefix never changes what loading any other session answers |
| `RepoRuns.IsolatedRun` | packages/worker/src/do-session-repo.ts:28-156 | On every run of creating, appending, forking and deleting other sessions, forks and deletes that die halfway included, loading a session answers the same |
| `RepoRuns.AfterOnlyUnder` | packages/worker/src/do-session-repo.ts:28-156 | Each of those operations, done or dead halfway, changes keys under its own session's prefix only |
| `RepoRuns.ReachableCanonical` | packages/worker/src/do-session.ts:359-361 | In every store grown from an empty one by such a run, each session's log keys are ones the log key constructor makes |
| `RepoRuns.RecreatedLoadsOldLog` | packages/worker/src/do-session-repo.ts:114-125 | A delete that removed the metadata only, and a create over it: the store does not load as the empty session its creator holds, but with the deleted one's name |
| `RepoRuns.CommittedOnlyUnder` | packages/worker/src/do-session.ts:359-361 | Every storage method changes keys under its own session's prefix only |
| `RepoConsistency.EverySessionConsistent` | packages/worker/src/do-session-repo.ts:28-156 | On every run of a repo in which sessions are created, forked, deleted and reopened while any callers use their storages, with failing puts, crashes and deletes and forks that die, every session stays crash consistent, unless it was created over readable leftovers |
| `RepoConsistency.RunKeepsRepoInv` | packages/worker/src/do-session-repo.ts:28-156 | The invariant behind it: each session's store holds its history, or that and one acceptable mutation more, and every log key is well formed and carries its mutation's number |
| `RepoConsistency.CleanUnlessDeletesDie` | packages/worker/src/do-session-repo.ts:114-125 | Where no delete dies, no readable record is ever left without its session, so every create and fork is clean |
| `RepoConsistency.CallCommits` | packages/worker/src/do-session.ts:354-361 | The small steps of one undisturbed call do to memory and store exactly what the storage class promises of its method, and acknowledge its mutation if it was accepted |
| `DoSessionRepoClass.DoSessionRepo.Create` | packages/worker/src/do-session-repo.ts:28-55 | Refuses an invalid or taken id (a corrupt record counts as taken) and writes nothing; otherwise a fresh session under its own prefix |
| `DoSessionRepoClass.DoSessionRepo.ForkSession` | packages/worker/src/do-session-repo.ts:127-156 | The child in memory is the replay of the planned fork, and reloading it gives that state if and only if nothing readable lay past it; a refused fork leaves nothing, or the child's metadata alone |
| `DoSessionRepoClass.DoSessionRepo.WriteChild` | packages/worker/src/do-session-repo.ts:150-153 | The two loops write the log record by record and replay it into the child's state |
| `DoSessionRepoClass.ForkCrash` | packages/worker/src/do-session-repo.ts:148-153 | A crash between the puts of a fork leaves a child that loads into the fork cut off at that mutation |
| `DoSessionRepoClass.ForkedRunsAreConsistent` | packages/worker/src/do-session-repo.ts:148-153 | A forked child, whole or cut off by a crash, stays crash consistent over every run of storage methods with any callers, failing puts and crashes |
| `DoSessionRepoClass.DoSessionRepo.Delete` | packages/worker/src/do-session-repo.ts:114-125 | Removes exactly the keys under the session's prefix, each moment on the way being an interrupted delete; the session is then not found |
| `HostConfig.Recover` | packages/worker/src/session-host.ts:209-227 | The loop yields the last model change that the catalog still knows as last written, else the first available model, and the last valid thinking level |
| `HostEffects.RecoversExactly` | packages/worker/src/session-host.ts:209-234 | A new host takes the model of the latest model entry, or the first available one when there is none or the catalog no longer has it, and the level of the latest entry that names one there is, or "off" |
| `HostEffects.CreatedStarts` | packages/worker/src/session-host.ts:228-276 | A fresh thread is live on the first available model and thinking off, and its trail holds exactly those, one chained to the other |
| `HostConfig.RestartTransparent` | packages/worker/src/session-machine.ts:172-229 | After any run of model, level and other trail commands on a fresh thread in which no ref changed without its entry, a new host over the trail recovers the live model and level; the next command keeps this if and only if it changes no ref without its entry |
| `HostConfig.RunAgrees` | packages/worker/src/session-machine.ts:172-229 | From any host that agrees with its trail, any run of commands that change no ref without its entry leaves a host that agrees with its trail |
| `HostConfig.KeptExactly` | packages/worker/src/session-machine.ts:172-229 | From a host that agrees with its trail, any command with any answers of the store leaves one that agrees if and only if every ref it changes has its entry landed |
| `HostConfig.LevelKeptExactly` | packages/worker/src/session-machine.ts:182-195 | A level command keeps agreement if and only if its entry landed or the clamped level is the level in force |
| `HostEffects.LevelDoes` | packages/worker/src/session-machine.ts:172-198 | After a level command the level in force is the one asked for if the model supports it or there is none, and its clamp otherwise; a level in force writes nothing, any other is appended if the store takes it and is in force either way |
| `HostEffects.ModelDoes` | packages/worker/src/session-machine.ts:201-229 | An unknown or unauthorised model changes nothing; any other is in force at once, and once its entry is written the level in force is applied to it again |
| `HostConfig.RefusedLevelDiverges` | packages/worker/src/session-machine.ts:186-195 | A fresh thread whose first level entry the store refuses: live at the new level, recovered at the old one |
| `SessionHostClass.SessionHost.Open` | packages/worker/src/session-host.ts:205-283 | Recovers the configuration of a written trail without writing; gives an empty trail its first entries |
| `SessionHostClass.ReopenGivesHostBack` | packages/worker/src/session-host.ts:205-276 | Opening a host over the trail of a host that agrees with it gives back the same host |
| `SessionHostClass.SessionHost.ApplyThinkingLevel` | packages/worker/src/session-machine.ts:172-198 | The level in force afterwards is the one asked for or its clamp, set before the trail and kept when the store refuses the entry; succeeds exactly when it was in force already or its entry was written |
| `SessionHostClass.SessionHost.ApplyModel` | packages/worker/src/session-machine.ts:201-229 | Refuses an unknown or unauthorised model untouched; otherwise sets the model, writes it down and re-clamps the level |
| `HostMachine.TraceDiscipline` | packages/worker/src/session-machine.ts:511-711 | On every run, accepted runs and settled events alternate, compaction starts and ends alternate with at most one in flight, and the last state pushed is the machine's wire state, so `working` if and only if the machine is in Working |
| `HostMachine.RunAcceptedExactly` | packages/worker/src/session-machine.ts:400-426 | A run command is accepted if and only if nothing is in flight, the host has not crashed and a model is chosen; then it is pushed as working and acknowledged. A refused one leaves the host as it was |
| `HostRuns.CrashedExactly` | packages/worker/src/session-machine.ts:659-711 | On every run, the host is crashed exactly when one of its runs failed and is no longer shown as working: its prompt failed, its compaction could not be prepared, or its compaction failed without an abort. While none has, a host with nothing in flight is idle, or interrupted and never having pushed a state |
| `HostRuns.SettledRunEnds` | packages/worker/src/session-machine.ts:659-695 | A settled run ends by pushing idle once, crashed if it failed and idle otherwise |
| `HostRuns.PromptAnswered` | packages/worker/src/session-machine.ts:331-362 | What a run in flight emits for each answer of its prompt: it settles, or its own compaction starts with a fresh controller |
| `HostRuns.AbortedExactly` | packages/worker/src/session-machine.ts:540-554 | The controller of a compaction in flight was triggered exactly when the host was disposed or its run aborted since that compaction started |
| `HostRuns.CompactionOutcome` | packages/worker/src/session-machine.ts:262-329 | A compaction ends as done when the library succeeds, and when it fails as aborted or failed exactly as an abort came since it started or not; a run settles with it and fails exactly on the last |
| `HostRuns.ManualCompactionEndsIdle` | packages/worker/src/session-machine.ts:671-682 | While a manual compaction lasts each step leaves the host compacting or idle, and however it is answered the host ends idle and pushed as such, never crashed |
| `HostRuns.ManualPrepared` | packages/worker/src/session-machine.ts:247-264 | A manual compaction that finds nothing to do, or cannot be prepared, emits nothing and ends idle; any other emits its start with a fresh controller |
| `HostRuns.CompactAcceptedExactly` | packages/worker/src/session-machine.ts:558-594 | A compact command is accepted if and only if nothing is in flight, no run has failed and there is something to compact; a refused one leaves the host as it was |
| `HostRuns.AbortDoes` | packages/worker/src/session-machine.ts:540-554 | An abort is always answered; it triggers the controller of a run's compaction in flight and otherwise changes nothing |
| `HostRuns.HasModelExactly` | packages/worker/src/session-machine.ts:201-229 | The host has a model exactly when it had one at boot or an accepted model command came since |
| `HostMachine.CrashIsFinal` | packages/worker/src/session-machine.ts:511-711 | A crashed host stays crashed and emits nothing more |
| `RelayRuns.RelayDelivers` | packages/hub/src/relay-core.ts:146-246 | On every run, the frames an open daemon was sent from a connected worker are exactly what the worker sent after its attach frame, in order and once each, across the switch from buffer to pipe; a waiting worker's buffer holds exactly what it sent |
| `RelayRuns.RelayAnswers` | packages/hub/src/relay-core.ts:185-190 | An open worker was sent, from any daemon, exactly what that daemon sent while piped to it, in order and once each |
| `RelayRuns.PipesAreMutual` | packages/hub/src/relay-core.ts:169-190 | A worker is piped to at most one daemon, one registered for its env, and that daemon pipes back |
| `RelayRuns.OnePairPerEnv` | packages/hub/src/relay-core.ts:140-168 | At most one open worker and one open daemon of an env are piped: the ones the tables name |
| `RelayPairs.PairedExactly` | packages/hub/src/relay-core.ts:194-280 | An event pipes a worker to a daemon if and only if the worker attaches while that daemon is registered, or the daemon's hello is accepted while the worker is first on the waiting list; pipes are never undone |
| `RelayPairs.CloseTakesBothExactly` | packages/hub/src/relay-core.ts:76-81 | For every event that makes a pair: on all continuations the close of either end leaves the other down, if and only if before the event the worker had not closed or the daemon was already being closed |
| `RelayRuns.CloseTakesBoth` | packages/hub/src/relay-core.ts:169-190 | From any moment at which neither end of a pair has closed alone, on every continuation the close of either leaves the other closed |
| `RelayRuns.DeadWaiterIsPaired` | packages/hub/src/relay-core.ts:232-235 | A witness that the failing case is reached: a history in which a worker that closed while waiting is paired with the next daemon, which stays open |
| `RelayTables.RegisteredExactly` | packages/hub/src/relay-core.ts:110-121 | After every history, an env's registration is the last accepted hello not ended by that very socket's close or the shutdown; the close of a superseded socket never removes the newer registration |
| `RelayPairs.NoWorkerLeftWaiting` | packages/hub/src/relay-core.ts:248-280 | While an env has a registered daemon, every open worker attached for it is piped to a daemon of that env |
| `RelayTables.WaitingStep` | packages/hub/src/relay-core.ts:194-280 | How each event but a close changes a waiting list: an accepted hello empties it, an attach with no daemon appends, a shutdown drops it |
| `RelayRefusals.FirstFrameFails` | packages/hub/src/relay-core.ts:282-338 | A first relay frame that does not decode, or is refused for its version or token, leaves its sender sent one failure if it was open and closed from our side, and nothing else changed; only the refused one is not listened to again |
| `RelayRefusals.OthersAreRefused` | packages/hub/src/relay-core.ts:248-280 | When a daemon's hello is accepted, every worker waiting for its env but the first is sent one failure if it was open, and closed |
| `RelayRefusals.GoneHoldsNothing` | packages/hub/src/relay-core.ts:232-235 | On every run, no frames are held for a worker that has gone |
| `RelayInvariant.RunKeepsInv` | packages/hub/src/relay-core.ts:100-398 | The invariant behind the relay's results, on every run: roles, listeners, links, tables, buffers and sent frames agree with each socket's own history |
| `RelayCore.HubRelayCore.PipeBoth` | packages/hub/src/relay-core.ts:146-191 | The method flushes the buffer, closes a stale worker, notes the new one and wires both directions, as the specification says |
| `RelayCore.HubRelayCore.Attach` | packages/hub/src/relay-core.ts:194-246 | Pipes to a registered daemon, otherwise buffers and waits |
| `RelayCore.HubRelayCore.Register` | packages/hub/src/relay-core.ts:248-280 | Takes the registration over, pairs the first waiter, refuses the rest |
| `RelayCore.HubRelayCore.HandleConnection` | packages/hub/src/relay-core.ts:339 | The object takes a new socket into its history and listens for its first frame |
| `RelayCore.HubRelayCore.OnMessage` | packages/hub/src/relay-core.ts:282-340 | The object handles a message as its history with that message says: the first relay frame decides the role, later ones are buffered or forwarded |
| `RelayCore.HubRelayCore.OnClose` | packages/hub/src/relay-core.ts:169-190 | The object handles a close event as its history with that event says: each close listener runs once, in order |
| `RelayCore.HubRelayCore.Close` | packages/hub/src/relay-core.ts:342-390 | The first call closes exactly the sockets registered, waiting or piped for an env and empties the tables; a second changes nothing |
| `RelayCore.HubRelayCore.Registered` | packages/hub/src/relay-core.ts:395 | The envs returned are exactly those whose last accepted hello no close of that socket and no shutdown has ended |
| `RelayCore.HubRelayCore.Delivers` | packages/hub/src/relay-core.ts:146-246 | Of the object at any moment: an open daemon was sent exactly what the connected worker piped to it said, and an unpiped worker's frames are all in its buffer |
| `RelayCore.HubRelayCore.Answers` | packages/hub/src/relay-core.ts:185-190 | Of the object at any moment: an open worker was sent, from any daemon, exactly what it said while piped |
| `RelayCore.HubRelayCore.Pairs` | packages/hub/src/relay-core.ts:140-190 | Of the object at any moment: a piped worker and its daemon pipe to each other, and while open they are the ones the tables name |
| `Hub.HubRunInvariant` | packages/hub/src/hub.ts:189-422 | On every sequence of hub operations over any sound store: cache equals store, a local thread's env stays ready, and an armed timer belongs to an existing sandbox thread with a ready env that is not working |
| `Hub.RunKeepsInv` | packages/hub/src/hub.ts:189-422 | Any run of hub operations from a sound hub leaves a sound hub |
| `Hub.NameSticks` | packages/hub/src/hub.ts:194-201 | Once a name is no longer automatic, no run of operations changes it except a rename by the user, or deleting the thread |
| `Hub.BroadcastsKeepUp` | packages/hub/src/hub.ts:217-224 | On every run, the view last broadcast of each thread is its current view up to the tail sequence number |
| `HubEffects.ReportDoes` | packages/hub/src/hub.ts:189-225 | Everything a report changes: an idle one arms the timer of a sandbox thread whose env is ready, a working one disarms it, any other leaves it; state and tail are stored as reported, session id and a still automatic name of a known thread too; other threads keep everything; consoles hear of it exactly when a field they see changed |
| `HubEffects.EventDoes` | packages/hub/src/hub.ts:236-255 | A session event stores the tail and arms the timer of an idle sandbox thread whose env is ready, and changes nothing else |
| `HubEffects.GateDoes` | packages/hub/src/hub.ts:257-291 | The env gate keeps a ready env awake; otherwise it leaves the env in error and unarmed when provisioning fails, and ready with what it was given and armed if idle when it succeeds, with one broadcast |
| `HubEffects.CommandDoes` | packages/hub/src/hub.ts:386-404 | A command on an unknown thread changes nothing; on a known one it passes the gate unless it only reads, and then changes at most the tail, to what the worker answered |
| `HubEffects.FireDoes` | packages/hub/src/idle-stop.ts:140-164 | A timer that fires is spent; it stops the env of an idle sandbox thread, with one broadcast, and changes nothing for any other thread |
| `HubEffects.IdleIsStopped` | packages/hub/src/idle-stop.ts:83-164 | Once a thread with a ready sandbox reports idle, or gets an event or a command while idle, its timer stays armed over every run without a working report, a deletion, a firing or a close, and its firing then stops that sandbox exactly if the thread is still idle |
| `HubClass.HubObject.Fire` | packages/hub/src/idle-stop.ts:140-164 | Spends the timer; stops the env of an idle sandbox thread with one broadcast and leaves any other thread as it is, unarmed; keeps the invariant |
| `HubClass.HubObject.Arm` | packages/hub/src/idle-stop.ts:83-119 | Arms a timer only for a known idle sandbox thread with a ready env |
| `HubClass.HubObject.ApplyReport` | packages/hub/src/hub.ts:189-225 | Arms on an idle report of a ready sandbox, disarms on a working one and leaves the timer otherwise; stores what was reported; touches no other thread; broadcasts exactly a changed view; keeps the invariant |
| `HubClass.HubObject.SessionEvent` | packages/hub/src/hub.ts:236-255 | Stores the tail and arms the timer of an idle ready sandbox, and nothing else; keeps the invariant |
| `HubClass.HubObject.EnsureEnv` | packages/hub/src/hub.ts:257-291 | Succeeds if and only if the env was ready or provisioning succeeds; record, timer and broadcast afterwards for each of the three cases; keeps the invariant |
| `HubClass.HubObject.RunSessionCommand` | packages/hub/src/hub.ts:386-404 | Succeeds if and only if the thread is known, the gate passes unless the command only reads, and the worker answers; the tail sequence number is then the worker's |
| `HubClass.HubObject.CreateThread` | packages/hub/src/hub.ts:312-333 | The stored record field by field, idle at tail 0, broadcast once; a thread whose worker cannot be created does not exist afterwards |
| `HubClass.HubObject.DeleteThread` | packages/hub/src/hub.ts:340-355 | The thread, its caches and its timer are gone, and its last view was broadcast |
| `HubClass.HubObject.SetArchived` | packages/hub/src/hub.ts:294-305 | Succeeds if and only if the thread is known: its archive time is then that one, nothing else changed, broadcast once |
| `HubClass.HubObject.RenameThread` | packages/hub/src/hub.ts:372-385 | Succeeds if and only if the thread is known and the name is not empty: the name is then that one and settled, nothing else changed, broadcast once |
| `HubClass.HubObject.NameStays` | packages/hub/src/hub.ts:194-201 | Of the object at any moment: a name settled earlier in its history is the thread's name now, unless the user renamed or deleted it since |
| `HubClass.HubObject.ConsolesSee` | packages/hub/src/hub.ts:217-224 | Of the object at any moment, over an empty store: the view last broadcast of a thread shows its record and state as they are now, field by field, up to the tail sequence number |
| `Template.ParseTemplate` | packages/worker/src/config-value.ts:41-78 | The scanner terminates and yields the parts of the specification |
| `Template.ReadReference` | packages/worker/src/config-value.ts:51-75 | At a dollar sign, the escapes, the braced name, the longest bare name or the sign itself, with the index moved past it |
| `Template.ParseIsNormal` | packages/worker/src/config-value.ts:28-38 | Every value parses into parts with no empty and no adjacent literals |
| `Template.TemplateRoundTrip` | packages/worker/src/config-value.ts:41-78 | Parsing an escaped print merges the parts, gives them back if and only if they are in normal form, and reprinting any parsed value parses to the same parts |
| `Template.ReferenceParses` | packages/worker/src/config-value.ts:57-73 | A valid name after a dollar sign, in braces or bare before a text that goes on with no name character, parses into that variable followed by the parse of the rest |
| `Template.LoneDollarIsLiteral` | packages/worker/src/config-value.ts:59-62 | A dollar sign that starts no reference and no escape, as before an unterminated or ill-named brace, reads as the escaped sign does |
| `Template.ResolveTemplate` | packages/worker/src/config-value.ts:80-97 | The loop joins literals and values, and is undefined as soon as a name is not set |
| `TemplateValues.ReferenceResolves` | packages/worker/src/config-value.ts:80-97 | Escaped text, a reference in braces and a rest resolve to the text, the variable's value and what the rest resolves to, and to nothing exactly when the variable is not set or the rest has no value |
| `TemplateValues.ConcatResolves` | packages/worker/src/config-value.ts:80-97 | Two lists of parts one after the other resolve to the two values joined, and to nothing when either does |
| `Template.EnvVarNames` | packages/worker/src/config-value.ts:122-133 | The names are exactly the references of the value, each once, in the order of first use; a command has none |
| `Template.MissingEnvVarNames` | packages/worker/src/config-value.ts:136-137 | For a value that is no command, the missing list holds exactly the references that are not set, in the order of first use, and is empty if and only if the value resolves |
| `Template.QuoteResolves` | packages/worker/src/config-value.ts:140-143 | Any text, escaped, resolves to itself in every environment and is never run as a command |

## Left out

- Error messages: an error is its kind. Log lines, tracing and reply payloads are not modelled.
- `findRecords`: its newest-first paging filter ignores the order, so following it loses records.
- `import`, and the `list` of a repo. Schema decoding of entries and records; the model's values are decoded ones.
- The JSON codec is the identity. A label fact with no label deletes the label, as it does after a round trip through JSON.
- The file backend and its `.tmp` keys: crash results are stated over the atomic-put contract.
- `DoSession.DoSessionStorage.Load`: requires that keys under `log/` are ones the log key constructor writes, which holds of every store a repo grows (`RepoRuns.ReachableCanonical`); other spellings of the same number are not modelled.
- `DoSession.DoSessionStorage.ListLog`: has the same requirement, for the same reason.
- `DoSessionRepoClass.DoSessionRepo.ForkSession`: has the same requirement of its source.
- `RepoConsistency.EverySessionConsistent`: one process uses a session at a time, a deleted session is no longer used, and a fork's puts are not interleaved with other sessions' steps; they may stop at any point.
- `Keys.LogKeyRoundTrip`: is about natural numbers. The source's numbers are exact below 2^53 only and print with an exponent from 10^21.
- `structuredClone` and aliasing of returned values: model values are immutable.
- The nested map of open operations is a list in insertion order; re-inserting a used id cannot happen, as ids are unique. The order of lanes is a field of its own.
- `SessionStateClass.SessionState.WalkToRoot`: computes the whole walk. The source's is a generator, and how far a caller pulled it is not captured.
- `limit` and `cursor` are integers; fractional ones are not modelled. The cost total is a real number.
- `HostMachine.TraceDiscipline`: the agent, the compaction library and the auto-title are answers that may succeed or fail; messages, images and context building are not modelled. The machine's mailbox is modelled as explicit steps.
- `HostConfig.RestartTransparent`: the catalog does not change between the run and the restart, a looked-up model carries the provider and id it was looked up by, available models are known, and clamping yields a valid level. A write the store refuses has written nothing.
- `RelayCore.HubRelayCore.Attach`: leaves out the two-second timer that drops a worker no daemon came for.
- The relay's token and version checks (a frame says whether it is refused), and the platform's delivery: a socket delivers an event to the listeners present when it arrives, has no listeners but the relay's, and emits its close event some time after a close call.
- That the first live waiter wins, and that replacing a worker leaves the daemon up, is not claimed because the code does not do it.
- Hub operations are atomic: nothing interleaves inside one. Thread ids come resolved and new, names come trimmed; listeners and skills are left out. What the worker and the provisioner answer is a parameter.
- `HubClass.HubObject.EnsureEnv`: handing the env handle to the worker is not modelled, because its failure is ignored.
- `HubClass.HubObject.Fire`: releasing the remote machine and clearing the worker's env handle are not modelled, because their failures are ignored.
- `HubClass.HubObject.Arm`: a timer is armed or not; the time left, which arming again resets, and the controller that replaces timers elsewhere are not modelled.
- `Hub.BroadcastsKeepUp`: is about hubs that start over an empty store, because a hub over an old store has broadcast nothing yet.
- Running a `!command` value and its cache; names inherited by the environment object.
- The frontend, the wire protocol, servers, the CLI and the daemon's lifecycle.
