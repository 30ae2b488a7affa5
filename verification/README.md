# NexusLedger verification

A Dafny model of the commit ledger inside the Attow Nexus daemon, of the JSON algebra it replays
and diffs with, and of the three components that sit on it: the redactor, the loop detector and
the live bus.

| file | what it models |
|---|---|
| `Json.dfy`, `DeepMerge.dfy` | JSON values seen path by path, the order of an object's keys; the deep merge of replay |
| `Diff.dfy` | the structural diff and applying it |
| `Redaction.dfy` | the redacting tree rewrite and its findings |
| `Graph.dfy`, `SeenSearch.dfy`, `DagIndex.dfy` | reachability, ancestry with and without a seen set, the in-memory index |
| `Commits.dfy`, `Text.dfy`, `Seqs.dfy`, `Wrappers.dfy` | commits, content-addressed ids, slot keys; joined strings, lists, options |
| `Encoding.dfy` | an encoding of commits without collisions, so that the assumed hash exists |
| `StableSort.dfy`, `Replay.dfy` | the stable sort by (clock, seconds) and replay |
| `SqliteStore.dfy` | the tables, their listing order, rebuilding the index at start-up |
| `HeadMoves.dfy`, `Service.dfy` | fork, rollback, payload preparation and persisting one request |
| `Ledger.dfy`, `LedgerRuns.dfy` | the ledger as interleaved atomic steps with stops and crashes, and what holds over every run |
| `Interleaving.dfy` | what one publish, fork or rollback can rely on while others run between its steps |
| `CheckpointChains.dfy` | checkpoints into one slot, their seconds rising: they restart and replay in order |
| `LoopDetector.dfy`, `LoopCounts.dfy`, `LoopRuns.dfy` | fingerprints and sliding windows; what is counted, on the fields of commits; which runs of the ledger can repeat a fingerprint |
| `Bus.dfy`, `BusRuns.dfy` | the subscriber queues under interleaved broadcasts, and what holds over every run |
| `BusFilters.dfy` | what a subscription gets, on the fields of its filter; who is served when |

Code that updates a structure in place is a class or a method proved against a specification
function; the interleaved parts (`Ledger.dfy`, `Bus.dfy`) are state machines whose runs are
arbitrary lists of events, an event that is not enabled changing nothing.

## What is assumed

- The commit hash is an injective function of the body (`Commits.Injective`), so equal ids mean
  equal content and parents; printed JSON parses back and encoded text reads back (`Service.PrintsBack`,
  `Service.ReadsBack`). Where it matters the hash is hexadecimal and the digests of bytes and of
  fingerprint texts never collide. These are hypotheses of the lemmas that need them, and
  they can hold together (`Encoding.InjectiveHashExists`, `Service.LawfulWorldExists`).
- One SQLite statement or transaction is atomic, and so is one critical section of a lock.
- Regular expressions are a list of text functions; wall-clock times and generated ids arrive with
  the request. `serde_json` walks an object in the order of its keys, which is by code point. A float in
  JSON is a mantissa and an exponent.
- A replayed or rebuilt graph is acyclic where the recursion needs it; every reachable ledger is
  (`LedgerRuns.RunsAreSafe`).

## What was found

The model follows the code. These statements are proved where the code and its names or documents
differ, each with the exact condition under which they agree:

- `nearest_common_ancestor` scans oldest first, so its answer has no parents. Every shared ancestor is
  in its past exactly when the two commits share only one (`Dag.NearestIffOnlyOne`); it is a lowest shared
  ancestor exactly when no shared ancestor has it for a parent (`Dag.LowestIffNoSharedChild`).
- A rollback's check looks at the commit the request names, never at the slot's present head: an unforced
  request that names the old head goes back to it (`LedgerRuns.RollbackUndoneByName`). What unforced
  rollbacks naming a commit can reach lies in the present head's past exactly when that commit does
  (`LedgerRuns.UnforcedStaysInPastIff`).
- A fork replaces an existing head of its slot without a check; into the source's own run it is an
  unforced rollback without warnings. The replaced head stays in the new head's past exactly when it was in
  the source's (`LedgerRuns.ForkReplacesHead`, `LedgerRuns.ForkIntoOwnRun`).
- The rollback warnings cover the rolled-back range exactly when head and target are the same commit
  or the target is not in the head's past (`HeadMoves.ScanCoversRangeIff`). An unforced rollback never
  warns about the head's own side effects.
- After a crash the daemon starts again exactly when every stored link goes to an earlier row of the
  listing order (`LedgerRuns.CrashRecovery`). A checkpoint, whose clock is always 0, on top of a delta
  published with clock 1 breaks that (`LedgerRuns.CheckpointAfterPublishBlocksRestart`). Every crash of a run
  recovers if explicit parents are acknowledged and commits sort after their parents when they resolve them
  (`LedgerRuns.EveryCrashRecovers`). Checkpoints alone, each at a later second, restart and replay in order
  (`CheckpointChains.CheckpointsStayInOrder`).
- Replay applies parents before children exactly when the sort key never falls along a link
  (`Replay.ParentsFirstIffClocksGrow`); the listing order casts clocks to `i64`, the replay order does not.
- The index checks and writes under two locks; only content-addressed ids keep two racing appends from
  closing a cycle (`Dag.RacingAppendsCanCycle`, `Ledger.WriteKeepsIndex`).
- Explicit parents are only checked against the index, so an acknowledged commit may fail to replay
  when its parent was never stored (`LedgerRuns.UnackedParentBreaksReplay`); it replays exactly when
  everything the index lists above it is stored.
- Resolving a parent and moving the head are not one step: two publishes without explicit parents into
  one slot can both be acknowledged although the first is not in the final head's past
  (`Interleaving.LostUpdate`). The replaced head is kept exactly when it is the new commit or in the past
  of one of its parents (`Interleaving.HeadKeptIff`): from resolve to head move that is always so when no
  other request moved the slot, and a slot that was empty at the resolve loses any other commit that was
  made its head in between (`Interleaving.HeadKeptOverRun`).
- With redaction on, opaque bytes, JSON that does not parse and text that is not UTF-8 are stored as they
  came; everything else is stored redacted (`Service.StoredAsReadable`), and nothing that is stored tells
  apart two JSON payloads that differ in their secrets (`Service.SecretsAreNotStored`).
- A text payload over the inline limit replays as the empty text (`Service.TextPayloadReplays`).
- Fingerprints include the parents, so publishes into one slot that do not name parents never repeat one,
  whatever they say, until a head move leaves its replaced head behind (`LoopRuns.RepeatNeedsHeadMovedBack`);
  a chain of them is never warned about (`LoopRuns.ChainNeverWarns`).
- Head and window keys can be read back exactly when no name holds the separator. Diff paths have any
  length: two print alike exactly when their keys split at dots into the same pieces (`Diff.RenderSameIff`),
  which within one diff takes a key with a dot (`Diff.EntriesPrintApart`).
- A broadcast that finds a channel closed unregisters the name, whoever holds it now. So a subscription
  that is open and was never replaced stops getting broadcasts, and once no running broadcast holds its
  sender its stream ends (`BusRuns.UndercutSubscriptionMisses`, `BusRuns.StreamEndsIff`).
  An open channel that is its name's latest is registered exactly when no broadcast has met an earlier
  channel of that name closed since it opened; a name used once is safe (`BusRuns.RegisteredIff`).
- A full queue refuses the new ephemeral message and keeps the old ones (`BusRuns.DeliveryOrderKept`). A
  drop is counted by whoever holds the name now (`BusRuns.ReusedNameMiscounts`): the counter is the
  subscription's own drops plus those that older channels of its name had after it opened, so it is exact
  exactly when there were none (`BusRuns.DropCounter`).
- A request that is dropped while its durable broadcast waits for room leaves the target it waits on, and
  every one after it, without the message (`BusRuns.CancelAbandonsRest`).
- A side effect's or tool call's row is that of the latest commit with its id, a delta's row that of the
  first (`SqliteStore.EffectRowsFollowAppends`, `SqliteStore.DeltaRowsFollowAppends`).
- A fingerprint compares the fields of a commit exactly when no field holds a separator and no list is one
  empty name; a commit without a delta counts as one with the empty hash (`LoopCounts.FingerprintIff`).
- A run's commit count also counts re-appended ids (`SqliteStore.RunCountExactIffNoReappend`).
- A detector window of size 0 never shrinks and one of size 1 never warns. A warning is never of low severity.

## Model

| member | source | states |
|---|---|---|
| Json.Extensional | daemon/src/ledger/diff.rs:84-90 | two values that hold the same thing at every key path are equal, so comparing path by path is comparing values |
| Json.KeysAscend | daemon/src/ledger/diff.rs:98-109 | an object's keys are visited in ascending order, each once |
| DeepMerge.MergeValue | daemon/src/ledger/replay.rs:98-109 | the in-place loop leaves the merged value, whatever order the patch's keys come in |
| DeepMerge.MergeAt | daemon/src/ledger/replay.rs:98-109 | at every path the merge holds the patch's content if the patch reaches the path or puts a non-object above it, and the target's otherwise |
| DeepMerge.LastWriterWins | daemon/src/ledger/replay.rs:35-37 | after any list of deltas each path holds what the last delta that touched it put there, or the initial state's content |
| DeepMerge.MergeAgain | daemon/src/ledger/replay.rs:98-109 | merging a delta twice in a row is merging it once |
| Diff.DiffValue | daemon/src/ledger/diff.rs:84-90 | appends the entries of the two values in the order they are pushed, after the entries already there |
| Diff.DiffObject | daemon/src/ledger/diff.rs:92-116 | the same for two objects: first the removals of vanished keys, then additions and the entries of shared keys, both in key order |
| Diff.DiffRemoved | daemon/src/ledger/diff.rs:98-108 | the first loop appends exactly the removals, in key order |
| Diff.DiffKey | daemon/src/ledger/diff.rs:109-115 | one turn of the second loop appends exactly the entries below one key |
| Diff.EntriesListed | daemon/src/ledger/diff.rs:84-116 | the appended entries are exactly the differences of the two values, position by position, each once |
| Diff.EntriesInOrder | daemon/src/ledger/diff.rs:92-116 | in the diff of two objects the entries below vanished keys come before all others, and each of the two kinds by ascending key |
| Diff.DiffRoundTrip | daemon/src/ledger/diff.rs:84-116 | the entries of a diff are prefix-free and, applied in any order, turn the old value into the new one |
| Diff.EntriesPrefixFree | daemon/src/ledger/diff.rs:84-116 | an entry whose path is a prefix of another's is that entry |
| Diff.EmptyDiffIffEqual | daemon/src/ledger/diff.rs:84-90 | there are no entries exactly when the values are equal |
| Diff.MergeReachesIffNoRemovals | daemon/src/ledger/diff.rs:84-116 | merging the new value into the old one yields the new one exactly when their diff removes nothing |
| Diff.MergeNeverRemoves | daemon/src/ledger/replay.rs:98-109 | the diff from any state to that state merged with any delta has no removal |
| Diff.RenderReadsBack | daemon/src/ledger/diff.rs:99-110 | splitting a printed entry path at its dots gives its keys exactly when no key contains one |
| Diff.RenderSameIff | daemon/src/ledger/diff.rs:99-110 | two key paths print alike exactly when their keys split at dots into the same pieces |
| Diff.EntriesPrintApart | daemon/src/ledger/diff.rs:84-116 | no two entries of a diff print the same path when no key in either value contains a dot |
| Diff.EntriesCollide | daemon/src/ledger/diff.rs:84-116 | two entries of one diff that print the same path |
| Diff.RenderCollides | daemon/src/ledger/diff.rs:99 | two different key paths that print the same |
| Redaction.RedactText | daemon/src/security/redaction.rs:122-132 | every pattern is applied in turn and reported, in that order, exactly when it changes the text |
| Redaction.PatternsInOrder | daemon/src/security/redaction.rs:122-132 | each pattern works on what the patterns before it left |
| Redaction.RedactJson | daemon/src/security/redaction.rs:57-73 | leaves the redacted value and appends its findings in the order of the walk |
| Redaction.RedactField | daemon/src/security/redaction.rs:80-87 | one turn of the object loop: a secret-named key (`Redaction.MarkedIff` says which) gets the marker and one finding, any other is redacted with its findings in order |
| Redaction.SecretKeyIff | daemon/src/security/redaction.rs:134-149 | a key is secret-named exactly when some part of it reads, up to ASCII case, as one of the eight names, which are written out |
| Redaction.MarkedIff | daemon/src/security/redaction.rs:75-89 | a field is overwritten by the literal marker and reported once exactly when its key holds one of the eight names in any case; every other field is walked into |
| Redaction.RedactJsonObject | daemon/src/security/redaction.rs:75-89 | leaves the redacted object and appends its findings in key order |
| Redaction.FindingsReported | daemon/src/security/redaction.rs:57-89 | the appended findings are exactly the secret-named keys and matching texts of the value, position by position |
| Redaction.RedactedAt | daemon/src/security/redaction.rs:57-89 | at every key path a pass leaves what was there with texts redacted, except the marker at the first secret-named key and nothing below it |
| Redaction.FindingsAscend | daemon/src/security/redaction.rs:57-89 | findings come by ascending key and index at every level |
| Redaction.PathsPrint | daemon/src/security/redaction.rs:57-89 | a finding prints a dot before each key and brackets around each index, after a dollar sign |
| Redaction.RedactedIsClean | daemon/src/security/redaction.rs:57-89 | after a pass every secret-named key at every depth, arrays included, holds the marker |
| Redaction.NoFindingsNoChange | daemon/src/security/redaction.rs:57-89 | a pass with no findings left its value unchanged |
| Redaction.SecretsDoNotShow | daemon/src/security/redaction.rs:75-89 | values that differ only under secret-named keys redact to the same value |
| Redaction.FindingsDoNotShowSecrets | daemon/src/security/redaction.rs:75-89 | nor do their findings, in number, order or content |
| Redaction.CleanMerge | daemon/src/ledger/replay.rs:98-109 | merging a redacted delta into a redacted state leaves a redacted state |
| Redaction.CleanMergeAll | daemon/src/ledger/replay.rs:35-37 | redaction survives merging any number of redacted deltas |
| SeenSearch.VisitListsAncestry | daemon/src/ledger/dag.rs:121-136 | on any graph, cyclic ones included, the seen-set search lists exactly the reachable commits, once each, the queried one last |
| SeenSearch.SearchesAgree | daemon/src/ledger/dag.rs:121-136 | on every acyclic graph the seen-set search lists the same sequence as the recursion without a seen set |
| Graph.AncestrySpec | daemon/src/ledger/replay.rs:78-96 | that sequence holds exactly the reachable commits, once each, parents before children, the queried commit last |
| Graph.CollectAgree | daemon/src/ledger/replay.rs:78-96 | the sequence depends on nothing but the commit's own ancestry |
| Graph.InsertKeepsAcyclic | daemon/src/ledger/dag.rs:41-50 | giving a commit, known or not, parents that do not lead back to it makes no cycle |
| Dag.Reachable | daemon/src/ledger/dag.rs:98-118 | the worklist search stops on every graph and answers whether a parent path exists |
| Dag.CollectAncestry | daemon/src/ledger/dag.rs:121-136 | the recursion over shared seen set and output computes the seen-set search |
| Dag.DagIndex.Append | daemon/src/ledger/dag.rs:23-59 | checks in order for an empty id, a self parent, unknown parents and cycles; a refusal changes nothing, an acceptance adds the links both ways and keeps the index acyclic and closed |
| Dag.ParentsAccepted | daemon/src/ledger/dag.rs:37-44 | the parent loop passes exactly when every parent is known and none leads back to the commit |
| Dag.RefusedFor | daemon/src/ledger/dag.rs:23-45 | an append is refused for an empty id, else for naming itself a parent, else exactly when some parent does not pass the loop |
| Dag.LoopStopsAt | daemon/src/ledger/dag.rs:37-44 | the loop stops at the first parent that does not pass, and says whether it is unknown or closes a cycle |
| Dag.AppendKeepsIndex | daemon/src/ledger/dag.rs:23-59 | an accepted append keeps an acyclic closed index so, also when it replaces the parents of a known id |
| Dag.NewIdAccepted | daemon/src/ledger/dag.rs:35-45 | for a new id the cycle check never fires; only an unknown parent refuses it |
| Dag.RacingAppendsCanCycle | daemon/src/ledger/dag.rs:35-50 | two appends of known ids can both pass their check before either writes and then close a cycle, which only content-addressed ids rule out |
| Dag.DagIndex.IsAncestor | daemon/src/ledger/dag.rs:61-67 | true exactly for the commits of the ancestry |
| Dag.DagIndex.AncestryOf | daemon/src/ledger/dag.rs:69-75 | exactly the reachable commits, once each, the commit last; on an acyclic index oldest first |
| Dag.DagIndex.NearestCommonAncestor | daemon/src/ledger/dag.rs:77-82 | answers exactly when the two commits share an ancestor, with the first of the second's ancestry that the first shares |
| Dag.CommonAncestorIsRoot | daemon/src/ledger/dag.rs:77-82 | the answer is a shared ancestor without parents |
| Dag.NearestIffOnlyOne | daemon/src/ledger/dag.rs:77-82 | every shared ancestor lies in the answer's past exactly when the two commits share exactly one |
| Dag.LowestIffNoSharedChild | daemon/src/ledger/dag.rs:77-82 | no other shared ancestor descends from the answer exactly when no shared ancestor has it for a parent |
| Dag.FromCommits | daemon/src/ledger/dag.rs:15-21 | appends the listed commits in turn and stops at the first refusal |
| Commits.SameIdSameCommit | daemon/src/ledger/commit.rs:55-60 | commits with the same content-addressed id are the same commit, parents included |
| Commits.DeltaByEncoding | daemon/src/ledger/diff.rs:66-82 | what replay merges for a commit, by encoding: the JSON value, the text, or an object of exactly hash, size and artifact |
| Encoding.BodyInjective | daemon/src/ledger/commit.rs:55-60 | different commit contents, nested JSON and lists included, have different encodings |
| Encoding.InjectiveHashExists | daemon/src/ledger/commit.rs:55-60 | so a hexadecimal hash that never collides exists, and the statements that assume one are about something |
| Service.LawfulWorldExists | daemon/src/ledger/commit.rs:55-60 | all assumptions about hashing, digests, printing and encoding can hold together |
| Commits.HeadKeyReadsBack | daemon/src/ledger/head.rs:1-3 | a slot key determines its four names exactly when none holds the separator |
| Text.JoinInjective | daemon/src/ledger/head.rs:1-3 | names without the separator never share a key |
| Text.BelowIff | daemon/src/ledger/sqlite_store.rs:281 | one string sorts below another exactly when it is a proper beginning of it or smaller where they first differ |
| Text.DecimalReadsBack | daemon/src/security/redaction.rs:60-64 | a printed number reads back and has no unneeded zero |
| Commits.HeadKeyCollides | daemon/src/ledger/head.rs:2 | with the separator in a name two slots share a key |
| StableSort.SortPermutes | daemon/src/ledger/replay.rs:18-27 | the sort keeps every commit |
| StableSort.SortSorts | daemon/src/ledger/replay.rs:18-27 | the sort orders by clock, then seconds |
| StableSort.SortIsStable | daemon/src/ledger/replay.rs:18-27 | what came first and sorts no later still comes first |
| StableSort.SortIsTheStableSort | daemon/src/ledger/replay.rs:18-27 | of distinct commits there is one sorted and stable list, so any stable sort by this key gives it |
| Replay.ReplayOrderIsTheStableSort | daemon/src/ledger/replay.rs:18-27 | whatever stable sort orders the collected ancestry, replay applies it in the modelled order |
| Replay.ReplayOrderAscends | daemon/src/ledger/replay.rs:18-27 | what replay applies earlier has a lower clock, or the same clock and a second no higher, a missing wall time being second 0; on equal clock and second it was collected earlier |
| Replay.CollectCommits | daemon/src/ledger/replay.rs:78-96 | succeeds exactly when the whole ancestry is stored, with its commits in post-order; otherwise it names a missing commit of the ancestry |
| Replay.Replay | daemon/src/ledger/replay.rs:11-67 | refuses unconfirmed tool execution and incomplete ancestries, and otherwise returns the merged state, provenance, outputs and warnings of the sorted ancestry (`Replay.ReplayOrderAscends` says by what) |
| Replay.ReplayIsPermutation | daemon/src/ledger/replay.rs:17-36 | replay applies every commit of the ancestry once and nothing else |
| Replay.ParentsFirstIffClocksGrow | daemon/src/ledger/replay.rs:18-27 | replay applies parents before children exactly when the sort key never falls from parent to child |
| Replay.RisingTimesReplayInOrder | daemon/src/ledger/replay.rs:18-27 | if along every stored link the clock rises, or stays and the second rises, replay applies parents before children |
| Replay.ReplayStable | daemon/src/ledger/replay.rs:11-67 | what a commit replays to is unchanged in any store that only gained commits |
| Replay.ReplayLastWriter | daemon/src/ledger/replay.rs:35-37 | the replayed state holds at each path what the last commit in replay order that touched it wrote |
| Replay.ReplayWarnings | daemon/src/ledger/replay.rs:40-45 | replay warns about exactly the side effects of the ancestry |
| Replay.ReplayCollectsAll | daemon/src/ledger/replay.rs:32-45 | around any replayed commit the tool outputs, artifacts and warnings are those of the commits before it, then all of its own, then those after it |
| Replay.ChildReplay | daemon/src/ledger/replay.rs:17-37 | a single-parent commit that sorts below none of its ancestors replays to its parent's state merged with its own delta |
| SqliteStore.SqliteStore.Append | daemon/src/ledger/sqlite_store.rs:148-252 | one transaction: the first commit under an id stays, its parent, delta, tool call, tool result and side effect rows are added, the run and channel counters go up |
| SqliteStore.SqliteStore.SetHead | daemon/src/ledger/sqlite_store.rs:338-356 | sets one slot's head and changes no other table |
| SqliteStore.SqliteStore.PutArtifact | daemon/src/ledger/sqlite_store.rs:372-402 | stores the bytes under an id made from their digest and returns their reference |
| SqliteStore.CommitsReadBack | daemon/src/ledger/sqlite_store.rs:158-184 | after any appends the table gives back exactly the appended commits, each as appended, and the parent rows are exactly the links of the stored commits |
| SqliteStore.EffectRowsFollowAppends | daemon/src/ledger/sqlite_store.rs:234-249 | a side effect's row holds commit, kind and flags of the latest append that carries its id, and there is none without one |
| SqliteStore.CallRowsFollowAppends | daemon/src/ledger/sqlite_store.rs:218-223 | a tool call's row holds commit and name of the latest append that carries its id |
| SqliteStore.DeltaRowsFollowAppends | daemon/src/ledger/sqlite_store.rs:203-217 | a delta's row holds commit, run, agent, channel and second of the first append with its id |
| SqliteStore.ResultRowsFollowAppends | daemon/src/ledger/sqlite_store.rs:224-233 | there is a result row for exactly the tool results of the appended commits |
| SqliteStore.HeadsAreSeparate | daemon/src/ledger/sqlite_store.rs:320-356 | a head set in one slot is read back there and every other slot keeps its head, for names without the separator |
| SqliteStore.RunCountIsAppends | daemon/src/ledger/sqlite_store.rs:185-194 | a run's count is the number of appends made for it |
| SqliteStore.CountersFollowAppends | daemon/src/ledger/sqlite_store.rs:185-202 | a channel's durable count is the number of its appends and a run's time that of its latest one; appending touches no head, event or artifact |
| SqliteStore.RunCountExactIffNoReappend | daemon/src/ledger/sqlite_store.rs:185-194 | it is the number of stored commits exactly when no id was appended twice |
| SqliteStore.ListingIsListed | daemon/src/ledger/sqlite_store.rs:280-290 | the listing holds every stored commit once, by signed clock, seconds and id |
| SqliteStore.ListingAscends | daemon/src/ledger/sqlite_store.rs:280-290 | the listing puts lower signed clocks first (a clock from 2^63 on counts as negative), then lower seconds, then lower ids |
| SqliteStore.RebuildIffParentsFirst | daemon/src/ledger/dag.rs:15-21 | rebuilding from a list of distinct, non-empty ids succeeds exactly when the list puts every parent before its children, and then gives the listed links |
| SqliteStore.RestartIffRowsGrow | daemon/src/lib.rs:46-47 | start-up succeeds exactly when every stored link goes to an earlier row, and the rebuilt index has the stored links |
| SqliteStore.RisingTimesRestart | daemon/src/ledger/sqlite_store.rs:281 | if along every stored link the clock rises, or stays and the second rises, and clocks fit in an i64, the daemon can be started |
| SqliteStore.RestartCanFail | daemon/src/ledger/sqlite_store.rs:281 | a parent with clock 1 under a child with clock 0 cannot be started from |
| HeadMoves.Fork | daemon/src/ledger/fork.rs:5-34 | sets the forked slot's head to the source and logs it, or changes nothing when the source is unknown |
| HeadMoves.Rollback | daemon/src/ledger/rollback.rs:7-61 | refuses in the code's order, and otherwise moves only the named head's slot to the target, returns the worded warnings of the scanned commits and logs them with the move in both event tables |
| HeadMoves.ScanForEffects | daemon/src/ledger/rollback.rs:23-36 | the loop with its break collects the side effects of the commits listed before the target |
| HeadMoves.WarningsAreEffects | daemon/src/ledger/rollback.rs:28-35 | the warnings are exactly the side effects of the scanned stored commits |
| HeadMoves.WarningsInOrder | daemon/src/ledger/rollback.rs:23-36 | warnings come in the order of the scan |
| HeadMoves.WarningsOfOne | daemon/src/ledger/rollback.rs:28-35 | one warning for each of a commit's side effects, in their order, with the literal wording |
| HeadMoves.ScanSeesTargetsPast | daemon/src/ledger/rollback.rs:24-36 | an unforced scan visits every proper ancestor of the target and no descendant of it |
| HeadMoves.ScanCoversRangeIff | daemon/src/ledger/rollback.rs:24-36 | the scan covers the rolled-back commits exactly when head and target coincide or the target is not in the head's past |
| HeadMoves.HeadIsNeverScanned | daemon/src/ledger/rollback.rs:24-27 | an unforced rollback never looks at the head commit itself |
| Service.RedactPayload | daemon/src/security/redaction.rs:17-54 | redacts the structured copy and the bytes by encoding, with exactly their findings in order, and leaves bytes that cannot be read |
| Service.PreparePayload | daemon/src/grpc/service.rs:312-348 | redacts when enabled, reports exactly the findings, moves bytes over the inline limit to an artifact and returns its reference |
| Service.NoPayloadReplays | daemon/src/grpc/service.rs:664 | a request without a payload replays as an empty object when that fits inline |
| Service.LargePayloadIsStored | daemon/src/grpc/service.rs:336-346 | bytes over the inline limit go to one artifact under their digest, which the payload and the returned reference name; others stay in the payload |
| Service.PreparedNamesItsBytes | daemon/src/grpc/service.rs:312-348 | a stored payload gives the size of its bytes and their digest, or the client's hash when it was kept with its bytes |
| Service.StructIsRedacted | daemon/src/security/redaction.rs:91-101 | redaction keeps the keys of the structured copy, overwrites the secret-named ones and walks into the others |
| Service.ReportLists | daemon/src/grpc/service.rs:326-334 | the report lists the findings of the structured copy and then those of the bytes, each with its printed path and kind; without redaction it is empty |
| Service.JsonPayloadReplays | daemon/src/grpc/service.rs:336-346 | with redaction on or off, a JSON payload replays as its (redacted) value when it fits inline, and as its hash and size when it does not |
| Service.TextPayloadReplays | daemon/src/grpc/service.rs:336-346 | a text payload replays as its (redacted) text when it fits inline, and as the empty text when it does not |
| Service.StoredAsReadable | daemon/src/security/redaction.rs:24-48 | with redaction on the stored bytes are the redacted content when they can be read as their encoding says, and the received bytes otherwise |
| Service.SecretsAreNotStored | daemon/src/grpc/service.rs:312-348 | payloads that differ only under secret-named keys lead to the same stored payload, artifacts, report and commit id |
| Service.ArtifactsOnlyGrow | daemon/src/ledger/sqlite_store.rs:374-393 | with digests that do not collide, storing an artifact changes no other |
| Service.PreparedReplaysClean | daemon/src/grpc/service.rs:312-348 | with redaction on, whatever payload is published replays with every secret-named key marked |
| Service.AppState.ResolveParents | daemon/src/grpc/service.rs:350-368 | explicit parents as given, all of them and in their order; else the head stored under the request's run, thread, agent and channel; else none |
| Service.AppState.PersistCommit | daemon/src/grpc/service.rs:370-382 | index, commits table and head move together, or the index refuses and nothing changes |
| Service.AppState.Publish | daemon/src/grpc/service.rs:108-138 | the durable path of a publish or checkpoint from payload to head: the commit with payload, artifact references and redaction report, all tables and the index, on success and on refusal |
| Ledger.StepKeepsInv | daemon/src/grpc/service.rs:350-382 | every atomic step of every request, and a crash, keeps index, tables, heads and pending requests consistent |
| Ledger.WriteKeepsIndex | daemon/src/ledger/dag.rs:35-57 | the index write is safe although the check was made under an earlier lock |
| Ledger.RestartIff | daemon/src/lib.rs:46-47 | the daemon is up after a crash exactly when every stored link goes to an earlier row |
| LedgerRuns.RunsAreSafe | daemon/src/grpc/service.rs:350-382 | in every interleaving with stops and crashes, heads and acknowledged ids name stored commits, stored links make no cycle, and the index holds every stored commit with the same parents |
| LedgerRuns.ReplayStableOverRuns | daemon/src/ledger/sqlite_store.rs:158-184 | no later sequence of events changes what a commit replays to |
| LedgerRuns.AckedParentsReplay | daemon/src/grpc/service.rs:350-357 | when explicit parents are acknowledged ids, every stored commit has its whole ancestry stored |
| LedgerRuns.ReplaysIffIndexAncestryStored | daemon/src/ledger/replay.rs:83-88 | a stored commit replays exactly when everything the index lists above it is stored |
| LedgerRuns.CrashRecovery | daemon/src/lib.rs:45-47 | after a crash the daemon is up exactly when every stored link goes to an earlier row, with the live index cut down to the stored commits and no table changed |
| LedgerRuns.EveryCrashRecovers | daemon/src/lib.rs:45-47 | in a run where explicit parents are acknowledged and commits sort after their parents when they resolve them, the daemon is up after every crash |
| CheckpointChains.CheckpointsStayInOrder | daemon/src/ledger/replay.rs:18-27 | any number of checkpoints into one slot, with clock 0 and rising seconds: the daemon starts again after a crash, and each replays as the checkpoints up to it, in the order they were made |
| LedgerRuns.ReplayedStatesAreClean | daemon/src/grpc/service.rs:326-334 | with redaction on, no run replays to a state with an unmarked secret-named key |
| LedgerRuns.UninterruptedPublish | daemon/src/grpc/service.rs:370-382 | a request that runs alone through its steps ends where the sequential method ends |
| LedgerRuns.ForkThenContinue | daemon/src/ledger/fork.rs:14-20 | the first commit after a fork has the source's ancestry followed by itself, moves only the forked slot, and replays to the source's state merged with its delta if it sorts below none of them |
| LedgerRuns.UninterruptedRollback | daemon/src/ledger/rollback.rs:12-44 | a rollback changes nothing or exactly one head slot; unforced, the target is in the head's stored past |
| LedgerRuns.RollbackUndone | daemon/src/ledger/rollback.rs:38-44 | a forced rollback the other way undoes a rollback within one slot |
| LedgerRuns.RollbackNotUndoneUnforced | daemon/src/ledger/rollback.rs:12-14 | without force a request that names the slot's present head is refused the way back |
| LedgerRuns.RollbackUndoneByName | daemon/src/ledger/rollback.rs:12-14 | an unforced request that names the old head as head and target goes back |
| LedgerRuns.UnforcedStaysInPastIff | daemon/src/ledger/rollback.rs:12-14 | every target an unforced rollback naming a commit is let through to lies in the present head's past exactly when that commit does |
| LedgerRuns.CanRollBackIsReachable | daemon/src/ledger/rollback.rs:12-44 | two publishes lead to a state where this happens |
| LedgerRuns.ForkReplacesHead | daemon/src/ledger/fork.rs:8-20 | a fork over an existing head keeps it in the new head's past exactly when it was in the source's, and an unforced rollback naming it puts it back |
| LedgerRuns.ForkIntoOwnRun | daemon/src/ledger/fork.rs:8-20 | a fork into the source's own run is an unforced rollback that names the source twice |
| LedgerRuns.UnackedParentBreaksReplay | daemon/src/ledger/dag.rs:37-39 | a run in which an acknowledged commit does not replay and the daemon cannot restart, because its parent was only indexed |
| LedgerRuns.CheckpointAfterPublishBlocksRestart | daemon/src/grpc/service.rs:167 | a run of two acknowledged, replayable commits after which the daemon cannot restart |
| Interleaving.AncestryStaysFixed | daemon/src/ledger/rollback.rs:12-14 | in every run without a crash a known commit's ancestry never changes |
| Interleaving.InterleavedRollback | daemon/src/ledger/rollback.rs:12-44 | whatever requests run after an unforced rollback's check, the target is still in the head's past when the head moves, and exactly that slot moves |
| Interleaving.AcceptedIffParentsKnown | daemon/src/ledger/dag.rs:23-45 | in every reachable state a content-addressed commit is accepted exactly when its parents are known |
| Interleaving.InterleavedPublish | daemon/src/grpc/service.rs:370-382 | a publish whose parents are known is never refused and ends stored, acknowledged and head of its slot, whatever requests run between its steps |
| Interleaving.PublishStoresRequest | daemon/src/grpc/service.rs:350-382 | whatever requests run between its steps, a publish ends as its slot's head with every field as asked for: the parents as they were named, or the slot's head at the resolve, or none; its past is itself and the pasts of all of them |
| Interleaving.InterleavedFork | daemon/src/ledger/fork.rs:14-20 | a fork's head stays at the source among other requests that leave its slot alone |
| Interleaving.InterleavedContinuation | daemon/src/ledger/fork.rs:14-20 | a publish that resolves its parent from that slot continues the source's history whatever requests run between its steps, and replays to the source's state merged with its delta if it sorts last |
| Interleaving.HeadKeptIff | daemon/src/grpc/service.rs:350-382 | for commits with any number of parents, a head move keeps the replaced head in its past exactly when that is the new commit or in the past of one of its parents |
| Interleaving.HeadKeptOverRun | daemon/src/grpc/service.rs:350-382 | from resolve to head move: the replaced head is kept exactly when it is the new commit or was in the resolved head's past, which is so when nobody else moved the slot |
| Interleaving.LostUpdate | daemon/src/grpc/service.rs:350-382 | two publishes into one slot that resolve before either moves its head are both acknowledged, and the first is not in the final head's past |
| Interleaving.RaceIsReachable | daemon/src/grpc/service.rs:350-368 | two arrivals lead to such a race |
| LoopDetector.LoopDetector.Inspect | daemon/src/loop_detection/detector.rs:36-81 | for every history and window size the warning is that of the last entries under the key before this commit, raised exactly when the fingerprint occurs there at least twice, of medium severity up to four repetitions and high from five (`LoopCounts.CountsRepeats` says what is counted) |
| LoopDetector.SlideKeepsWindow | daemon/src/loop_detection/detector.rs:53-59 | pop and push keep each window the last entries of its key, or all of them for size 0 |
| LoopDetector.FindOther | daemon/src/loop_detection/detector.rs:46-51 | the backward search finds the latest differing entry |
| LoopDetector.CountIn | daemon/src/loop_detection/detector.rs:41-45 | counts the entries with the fingerprint |
| LoopDetector.SuggestionIsLatestOther | daemon/src/loop_detection/detector.rs:46-51 | the suggested commit is the latest differing entry, with only repetitions after it, and empty when there is none |
| LoopDetector.ThirdInARowWarns | daemon/src/loop_detection/detector.rs:61-63 | a third occurrence in a row is warned about unless the window holds a single entry |
| LoopDetector.WindowKeyReadsBack | daemon/src/loop_detection/detector.rs:37 | a window key determines its names exactly when none holds the separator |
| LoopDetector.FingerprintSameIff | daemon/src/loop_detection/fingerprints.rs:4-34 | fingerprints agree exactly when their joined parts split alike at the separator |
| LoopDetector.SameFingerprintSameParents | daemon/src/loop_detection/fingerprints.rs:21-34 | commits with the same fingerprint have the same parents |
| LoopCounts.FingerprintIff | daemon/src/loop_detection/fingerprints.rs:4-34 | for fields without separators, fingerprints are equal exactly when objective, summary, content hash, tool names in order, error codes in order and parents are |
| LoopCounts.ErrorsInOrder | daemon/src/loop_detection/fingerprints.rs:11-16 | the error codes are those of the tool results that have one, in order |
| LoopCounts.CountsRepeats | daemon/src/loop_detection/detector.rs:36-59 | for every history and window size the detector counts exactly the earlier commits of the same run, agent and channel, fewer than the window size back, that agree in these fields |
| LoopRuns.RepeatNeedsHeadMovedBack | daemon/src/grpc/service.rs:384-394 | a request that resolves its parents from a slot repeats the fingerprint of an earlier head of it only after a head move that left its replaced head behind |
| LoopRuns.ChainNeverRepeats | daemon/src/loop_detection/fingerprints.rs:4-34 | publishes into one slot, each after the one before and none naming parents, have pairwise different fingerprints |
| LoopRuns.ChainNeverWarns | daemon/src/loop_detection/detector.rs:36-63 | so the detector counts no repetition in such a chain, for every window size |
| Bus.PatternMeaning | daemon/src/bus/mod.rs:371-379 | a pattern is a name, or a prefix followed by a star |
| Bus.StepKeepsInv | daemon/src/bus/mod.rs:125-192 | every step of every broadcast, receiver and subscriber, and every cancelled request, keeps queues bounded, lines and counters right, and messages accounted for |
| BusRuns.StepKeepsNames | daemon/src/bus/mod.rs:125-183 | every step keeps registrations with the latest channel of their name |
| BusRuns.RegisteredIff | daemon/src/bus/mod.rs:178-183 | in every run an open channel that is its name's latest is registered exactly when no broadcast met an earlier channel of that name closed since it opened |
| BusRuns.UnregisteredGetsNothing | daemon/src/bus/mod.rs:160-167 | a channel that lost its registration never gets it back and no later broadcast is meant for it |
| BusRuns.StreamEndsIff | daemon/src/bus/mod.rs:160-183 | the stream of an open channel that is its name's latest has ended exactly when it is undercut and no running broadcast holds its sender |
| BusRuns.EndedForever | daemon/src/bus/mod.rs:160-183 | once ended, nothing is ever sent into it again |
| BusRuns.UndercutSubscriptionMisses | daemon/src/bus/mod.rs:178-183 | a run in which an open, never replaced subscription is unregistered, misses a broadcast and has its stream ended |
| BusRuns.Conservation | daemon/src/bus/mod.rs:151-185 | in every run each channel was matched with the first of what passed its filter, all of it while it is open, latest and not undercut; each message of it is received, queued, dropped, on its way, abandoned, or lost to its closing |
| BusRuns.Backpressure | daemon/src/bus/mod.rs:131-177 | every queue keeps to its clamped capacity and nothing dropped is durable |
| BusRuns.DropCounter | daemon/src/bus/mod.rs:343-351 | the counter is the subscription's own drops plus those of older channels of its name since it opened, so it is exact exactly when there were none |
| BusRuns.DurableArrives | daemon/src/bus/mod.rs:172-174 | a durable matching broadcast is received, queued, on its way, or abandoned by a request dropped while it waited |
| BusRuns.AtMostOnce | daemon/src/bus/mod.rs:160-171 | no channel gets a broadcast twice, or both delivered and dropped |
| BusRuns.DeliveryOrderKept | daemon/src/bus/mod.rs:169-177 | what a receiver took and what waits for it only grows at the back; a full queue keeps its old messages |
| BusRuns.WaitersAreServed | daemon/src/bus/mod.rs:172-174 | a waiting broadcast is durable, stands in its channel's line, and can be delivered once there is room |
| BusRuns.CancelAbandonsRest | daemon/src/bus/mod.rs:169-175 | a request dropped while it waits abandons the target it waits on and every one after it |
| BusRuns.CancelledStaysPut | daemon/src/bus/mod.rs:169-175 | no later step sends any of what it abandoned |
| BusRuns.WithoutMovesUp | daemon/src/bus/mod.rs:172-174 | whoever stood behind a request that leaves the line moves up one place |
| BusFilters.Subscribed | daemon/src/bus/mod.rs:125-149 | in every run a subscription keeps its name, filter and start, and the capacity asked for if that is from 1 to 8192, else the nearer end |
| BusFilters.OnlyWantedIsSent | daemon/src/bus/mod.rs:361-379 | in every run a subscription is only matched with, sent, or charged a drop of, broadcasts that started after it, durable ones if it wants no others, on a topic equal to one of its patterns or beginning as a starred one does |
| BusFilters.EveryWantedIsMeant | daemon/src/bus/mod.rs:160-167 | every such broadcast since it subscribed is meant for it, while it is open, its name's latest and not undercut |
| BusFilters.MeantIff | daemon/src/bus/mod.rs:160-167 | a broadcast is meant for exactly the registered channels whose filter asks for it |
| BusFilters.AttemptOutcome | daemon/src/bus/mod.rs:169-177 | an attempt is queued when there is room for it and everyone in line; without room a durable broadcast joins the line at its end and an ephemeral one is dropped |
| BusFilters.DeliveredIff | daemon/src/bus/mod.rs:172-174 | a waiting broadcast is delivered exactly when there is room for it and everyone before it in line |
| BusFilters.RoomIsKept | daemon/src/bus/mod.rs:169-177 | no step takes away the room that a waiting broadcast has |
| BusRuns.ReusedNameMiscounts | daemon/src/bus/mod.rs:343-351 | a run in which a drop on a replaced channel is counted by the new subscription of that name |

## Left out

- Publishing a delta that is not persisted (it only reaches the bus) and filling in missing ids, times and metadata.
- HTTP, gRPC, SSE, authentication, grants and metrics: wiring and I/O around the operations modelled.
- SQL text, the file system, zstd, blake3 and protobuf: maps, an injective hash, and artifacts kept as what they decompress to.
- Regular expressions and byte-level JSON: text functions and a parse result carried with the bytes.
- Service.AppState.Publish: the broadcast and loop inspection that follow, which are modelled on their own, and the metrics.
- Service.RedactedStruct: a protobuf value without a kind, which redaction leaves alone, is a JSON null here.
- The wording of replay warnings: the side effects they are about are returned instead.
- LoopDetector.Printed: the escapes of `{:?}`; commit ids hold nothing that is escaped.
- The agents and loop_warnings tables and tag search: never read back by the ledger.
- `diff_commits` beyond the state diff (summary, tags and list lengths), and `diff_inner`'s choice between two ids: one comparison each.
- `export_edges` and the exactness of the children map: never read; the index only proves that every parent link is listed there.
- Channel snapshots, publishers, recent deltas and presence of the bus: single-field updates.
- Progress on the bus: runs are finite lists of events, so nothing says that a sender whose turn has come is ever scheduled.
- Concurrent readers inside one `nearest_common_ancestor`, `ancestry` or rollback request: each reads the index once here.
- Stack depth of the recursive searches and integer widths other than the clock's cast to `i64`.
