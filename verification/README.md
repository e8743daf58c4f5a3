# Sentia Linux: a Dafny model

This project models the parts of Sentia Linux whose correctness is hardest to see from one function, and proves what
they promise. `dafny verify dfyconfig.toml` checks all modules.

| module | what it models |
|---|---|
| `Approval`, `ApprovalTrace`, `AptPlan`, `Transactions` | A privileged change from Prepare to execution: the plan store, the two revalidations around authorization, the APT worker's re-resolution, and the canonical plans whose digests tie them together |
| `Rebuild` | Rebuilding the retrieval index: file and byte budget, upsert, skip-unchanged, delete-stale, over a table all sources share |
| `Utf8`, `JsonLines`, `HttpBody`, `HttpFraming`, `Sse`, `ToolCalls` | Decoding streams that arrive in arbitrary pieces |
| `LlamaStream` | The same end to end: from the bytes of a connection to the events and tool calls of an answer |
| `Routing`, `Privacy`, `Redaction`, `Breaker` | Which provider a chat may go to, with what, and after which consent |
| `Chat`, `Streaming`, `AgentRound`, `AgentLoop` | One chat request, from candidates, rounds and tool calls to the frames the client reads |
| `Dispatch`, `DispatchRuns` | The last two joined: one router on which previews and chats interleave step by step, and over every such run what each provider is sent and what each client gets |
| `Admission` | The admission queue in front of local inference, at the granularity of its lock, semaphore and two-part drop |
| `Sha256`, `Sha256Standard`, `Sha256Example` | The worker's digest, what FIPS 180-4 says of its functions, constants and order, and the digest of "abc" |
| `Alerts` | Threshold alerts with hysteresis |

## How to read it

- Everything the program learns from outside (clock, polkit, host state, libapt, providers, transports, random
  identifiers) is a parameter or is carried by the step that learns it, and may answer differently each time.
- Digests are arbitrary functions. No theorem assumes that they are collision-free: where equality of plans follows from
  equality of digests, the conclusion is "equal, or here is the collision". `Approval` assumes that a stored plan gets an
  identifier never used before, since the broker draws 256 random bits. `Privacy` does not: a token identifier may repeat.
- State machines are functions from a state and a step to a state; theorems are about every finite list of steps.
- Code that updates fields or loops is a class or a method whose `ensures` ties it to a function or predicate, and the
  laws are proved about that.
- Where a natural property does not hold, there is a lemma with an input that breaks it and an if-and-only-if for when it
  holds. The pairs are: `Approval.CanBeLate` and `AlwaysInTimeIff`; `Approval.RefreshCanDiffer` and
  `RefreshApprovedIff`; `AptPlan.UnknownOriginPasses` and `OriginsKeptIff`; `AptPlan.MultiArchTies` and
  `EnumerationOrderForgottenIff`; `Transactions.TiesKeepOrder` and `CanonicalizedForgetsOrderIff`;
  `Rebuild.HashFlips` and `RebuildIdempotentIff`; `Redaction.SecondSpaceTakesMark`,
  `SecondHeaderTakesMark` and `CredentialMarkedIff`; `Privacy.SweptEarly` and `UnsweptInOrder`;
  `Privacy.SecretSourceLeaves` and `PayloadHasNoSecretIff`;
  `HttpFraming.ObsTextRefused`, `BlankRefused`, `LongLineRefused` and `ChunkAcceptedIff`;
  `HttpFraming.ObsTrailerRefused` and `BodyRecoveredIff`; `HttpFraming.CutCanPass` and `CutRefusedIff`;
  `Admission.ActiveCounterOvershoots` and `ActiveWithinLimitIff`; `Chat.PathBreaks` and `PathIff`.
- Machine integers are written out where they matter: `Rebuild` has the saturating test and the wrapping sum of its budget,
  `Breaker` the saturating counter.

## Model

| member | source | states |
|---|---|---|
| `Approval.PlanStore.constructor` | crates/sentia-privileged/src/broker.rs:36-39 | A new store is empty and within its limits |
| `Approval.PlanStore.Prepare` | crates/sentia-privileged/src/broker.rs:42-86 | Expired plans go, the two limits are kept, a new plan is stored for 120 seconds; without entropy nothing is stored |
| `Approval.PlanStore.Consume` | crates/sentia-privileged/src/broker.rs:90-113 | The store after a consume and its answer are those of `StoreConsume`; `ConsumedIff` says when a plan is handed out and when it is gone |
| `Approval.ConsumedIff` | crates/sentia-privileged/src/broker.rs:90-113 | A plan is handed out exactly when the reference is well formed and its own caller presents its digest within its lifetime. Exactly when its own caller asks, it is taken out, before expiry and digest are judged; what is late or has another digest gets that error |
| `Approval.PrepareSweeps` | crates/sentia-privileged/src/broker.rs:42-86 | Preparing removes exactly the expired plans, leaves every other as it is, and is refused exactly when 256 are left, or 8 of the caller's name, or the time is too large |
| `Approval.PrepareKeepsLimits` | crates/sentia-privileged/src/broker.rs:42-86 | Never more than 256 plans in all or 8 for one bus name |
| `Approval.RunKeeps` | crates/sentia-privileged/src/service.rs:160-229 | The protocol invariant holds in every reachable state, whatever the outside answers at each step |
| `Approval.EveryPlanFollowsScript` | crates/sentia-privileged/src/service.rs:190-229 | The events of every plan are a beginning of one script: stored, consumed by its caller with its digest, checked, granted, checked, executed; so at most one execution, after two checks that saw the state and caller of preparation, and after an expiry test passed |
| `Approval.ExecutedIsPresented` | crates/sentia-privileged/src/broker.rs:101-112 | Over every run: the plan that is executed is the one whose digest its caller presented at Apply. Any plan with the digest presented is the plan executed, or two plans collide |
| `ApprovalTrace.PlanRetraced` | crates/sentia-privileged/src/service.rs:160-229 | Over every run: the events of every plan, one after the other, are what steps of that run did, in that order: the caller asked, the state was seen, the digest was presented, polkit granted, caller and state were seen again, and the last step carried out what it saw or resolved. Nothing is logged that no step did |
| `Approval.ActionsSeparate` | crates/sentia-privileged/src/lib.rs:83-97 | Two operations have the same polkit action exactly when they are of the same kind, so a grant for one kind is for no other |
| `Approval.WorkerNamesSeparate` | crates/sentia-privileged/src/executor.rs:427-435 | The worker is told the same operation exactly for package operations of the same kind |
| `Approval.ExecutedAt` | native/sentia-apt/src/apt_worker.cpp:692-695 | Which step executes a plan, and that its time is the recorded one: inside the lifetime for systemctl and the signal; for the worker that of the second resolution or of the reading of the source list, since it tests the clock only once and earlier |
| `Approval.AlwaysInTimeIff` | native/sentia-apt/src/apt_worker.cpp:692-695 | Over all runs every execution of an operation is inside the lifetime of its plan exactly when the broker carries it out itself: for systemctl and the signal, and for no package operation |
| `Approval.CanBeLate` | native/sentia-apt/src/apt_worker.cpp:1360-1527 | For every package operation, install, remove, upgrade and refresh, a run that carries it out after its plan has expired |
| `Approval.ExecutedTransactionIsApproved` | native/sentia-apt/src/apt_worker.cpp:1360-1453 | The package transaction that is committed is the one stored at Prepare; no package in it is an essential or important removal, a held change or a change between known origins, although the guards look only at the first of two resolutions; and every changed package keeps its origins exactly when all origins were known; or a digest collision is exhibited |
| `Approval.UnknownOriginCommitted` | native/sentia-apt/src/apt_worker.cpp:900-924 | A run that upgrades a package to a version of unknown origin |
| `Approval.RefreshApprovedIff` | native/sentia-apt/src/apt_worker.cpp:1467-1527 | The source list a refresh used is the one approved exactly when it did not change after the worker digested it; or two manifests collide |
| `Approval.RefreshCanDiffer` | native/sentia-apt/src/apt_worker.cpp:1501-1513 | A run in which it did change: the list is read again under the lock |
| `Approval.OthersPlansUntouched` | crates/sentia-privileged/src/broker.rs:90-113 | In any state that satisfies the invariant, a step leaves a stored plan as it is unless the plan has expired or its own caller consumes it |
| `Approval.CanExecute` | crates/sentia-privileged/src/service.rs:160-229 | Every valid request about an observable state can be taken as far as its execution |
| `Approval.RequestCarriedOut` | crates/sentia-privileged/src/executor.rs:357-396 | The script can be completed: an unchanged, granted request to end a process is carried out |
| `Approval.TransactionCommitted` | native/sentia-apt/src/apt_worker.cpp:1360-1453 | So is any package transaction that resolves to the approved plan twice, however late the second time is |
| `AptPlan.SortChangeArray` | native/sentia-apt/src/apt_worker.cpp:473-479 | The sorted array is ordered by name and has the same entries |
| `AptPlan.CollectOne` | native/sentia-apt/src/apt_worker.cpp:851-911 | One package adds exactly its entries to each of the eight arrays |
| `AptPlan.BuildCanonicalPlan` | native/sentia-apt/src/apt_worker.cpp:836-966 | Each array is a name-sorted rearrangement of the entries of the packages it is for |
| `AptPlan.EntryDescribes` | native/sentia-apt/src/apt_worker.cpp:858-885 | Every entry of the four lists of changes has the names, architecture, installed and planned versions and flags of a package that is marked for that change |
| `AptPlan.PackageListed` | native/sentia-apt/src/apt_worker.cpp:874-885 | Every package marked for a change is described in the list for it: removals first, then downgrades, then upgrades of what is installed, and the rest as installations |
| `AptPlan.SourceDescribes` | native/sentia-apt/src/apt_worker.cpp:898-911 | A source change goes from the origins of the installed version to those of the planned one, and they differ |
| `AptPlan.DependencyDescribes` | native/sentia-apt/src/apt_worker.cpp:891-896 | A dependency entry has the planned version and all its dependencies, or the first 512 |
| `AptPlan.GuardsEmptyIff` | native/sentia-apt/src/apt_worker.cpp:851-924 | The guarded arrays are empty exactly when no package is guarded |
| `AptPlan.OriginsKeptIff` | native/sentia-apt/src/apt_worker.cpp:900-924 | Every changed package keeps known origins exactly when the list of source changes is empty and source detection is complete |
| `AptPlan.UnknownOriginPasses` | native/sentia-apt/src/apt_worker.cpp:903-904 | A package with a new version of unknown origin, which passes all three guards |
| `AptPlan.ChangesPartition` | native/sentia-apt/src/apt_worker.cpp:874-885 | Every changed package is in exactly one of install, remove, upgrade and downgrade |
| `AptPlan.EnumerationOrderForgotten` | native/sentia-apt/src/apt_worker.cpp:914-921 | Two enumerations of the same packages give the same plan, however the sort treats ties, when no array has different entries under one name |
| `AptPlan.TiesLeaveAChoice` | native/sentia-apt/src/apt_worker.cpp:473-479 | Where one has, two different plans are possible for one cache |
| `AptPlan.EnumerationOrderForgottenIff` | native/sentia-apt/src/apt_worker.cpp:914-921 | So the plan is independent of the enumeration and the sort exactly then |
| `AptPlan.MultiArchTies` | native/sentia-apt/src/apt_worker.cpp:851-911 | One package installed for two architectures is such a case |
| `Transactions.CanonicalizedReordersOnce` | crates/sentia-protocol/src/transactions.rs:87-98 | Canonicalization permutes each list and is idempotent |
| `Transactions.CanonicalizedIsOrdered` | crates/sentia-protocol/src/transactions.rs:87-98 | Packages come by name and then by new version, an absent one first; services by name and then by action; targets and unknown effects by name |
| `Transactions.CanonicalizedForgetsOrder` | crates/sentia-protocol/src/transactions.rs:87-98 | Reorderings with distinct keys have the same canonical form |
| `Transactions.TiesKeepOrder` | crates/sentia-protocol/src/transactions.rs:87-98 | Where two different entries share a key, some reordering has another canonical form |
| `Transactions.CanonicalizedForgetsOrderIff` | crates/sentia-protocol/src/transactions.rs:87-98 | The exact condition for the canonical form to be independent of order |
| `Sorting.SortSorts` | crates/sentia-protocol/src/transactions.rs:87-98 | The stable sort gives a sorted rearrangement |
| `Sorting.SortForgetsOrderIff` | crates/sentia-protocol/src/transactions.rs:87-98 | A stable sort forgets the input order exactly when different elements never tie |
| `Rebuild.Budget.TryConsume` | crates/sentia-retrieval/src/indexer.rs:51-63 | A file is charged exactly when it fits both limits, by the saturating test and the wrapping sum of the source; the budget stays within its limits, usize::MAX included |
| `Rebuild.AcceptedChargeFitsIff` | crates/sentia-retrieval/src/indexer.rs:51-63 | An accepted charge is accounted for in full, and really fits, exactly when the sum does not pass usize::MAX |
| `Rebuild.CollectDocuments` | crates/sentia-retrieval/src/indexer.rs:525-626 | The documents kept and the budget left are those of the collection function; the oversize counter counts exactly the candidates longer than a file may be; and every candidate is kept or in one of the two counters |
| `Rebuild.KeptIff` | crates/sentia-retrieval/src/indexer.rs:598-606 | A candidate is left out exactly when it is too long, or the files kept before it fill the limit, or the bytes kept before it and its own pass the limit |
| `Rebuild.AllCollected` | crates/sentia-retrieval/src/indexer.rs:598-625 | Candidates that are short enough and fit the budget together are all collected, in order |
| `Rebuild.CollectionConserves` | crates/sentia-retrieval/src/indexer.rs:525-626 | The budget used is the number and the bytes of what was kept, the bytes modulo 2^64; they are within the limit exactly when they are at most usize::MAX, and always under a smaller limit |
| `Rebuild.Index.UpsertDocuments` | crates/sentia-retrieval/src/indexer.rs:666-692 | The table and the three counters after one pass over the documents |
| `Rebuild.CountsSay` | crates/sentia-retrieval/src/indexer.rs:666-692 | Skipped are exactly the documents the source has with the same hash, updated those it has with another, inserted those it has not |
| `Rebuild.Index.DeleteStale` | crates/sentia-retrieval/src/indexer.rs:694-705 | Removes exactly the rows of the source that it no longer collects, and counts them |
| `Rebuild.Index.ApplySource` | crates/sentia-retrieval/src/indexer.rs:628-708 | Table and report after one source |
| `Rebuild.AppliedAt` | crates/sentia-retrieval/src/indexer.rs:628-708 | What one source does to the row of any path |
| `Rebuild.LastDocumentWinsIff` | crates/sentia-retrieval/src/indexer.rs:666-692 | With repeated paths in one source the last document's hash wins unless it equals the old one and another document of the path differs |
| `Rebuild.OwnsWhatItCollected` | crates/sentia-retrieval/src/indexer.rs:628-708 | Afterwards the source owns exactly the paths it collected |
| `Rebuild.CountsConservedIff` | crates/sentia-retrieval/src/indexer.rs:666-705 | Rows owned after are rows owned before plus inserted minus removed, exactly when no new path is repeated |
| `Rebuild.RebuildAt` | crates/sentia-retrieval/src/indexer.rs:85-101 | Every collected path belongs to the last source that collected it, with the row of its last document that differs from what it held, or the row it held; another row survives only if its owner is not configured. Any table, any documents, repeated paths included; names are distinct, as the configuration check demands (config.rs:91) |
| `Rebuild.CollectedHash` | crates/sentia-retrieval/src/indexer.rs:85-101 | That is the hash of its documents for the path, when they agree |
| `Rebuild.RebuildIdempotentIff` | crates/sentia-retrieval/src/indexer.rs:85-101 | A second rebuild that finds the same files, with whatever new indexing time, changes no path, owner or hash exactly when no path is collected by one source alone with different contents; the hash of such a path changes every time |
| `Rebuild.ColumnsStay` | crates/sentia-retrieval/src/indexer.rs:666-692 | The other columns, the indexing time among them, stay as they were for a path at most one source collects; a path several collect has the row of the last source's newest document |
| `Rebuild.HashFlips` | crates/sentia-retrieval/src/indexer.rs:666-692 | Two documents of one path in one source: its hash goes back and forth with every rebuild |
| `Rebuild.RebuildStaysWithinBudget` | crates/sentia-retrieval/src/indexer.rs:34-64 | All sources together collect no more files than the budget, which accounts for each, and no more bytes exactly when their sum is at most usize::MAX |
| `Rebuild.RebuildIndex` | crates/sentia-retrieval/src/indexer.rs:77-134 | The loop over the sources computes that table and those reports |
| `Admission.InferenceQueue.constructor` | crates/sentia-local-broker/src/queue.rs:46-53 | A new queue has no reservations and all its permits |
| `Admission.InferenceQueue.Reserve` | crates/sentia-local-broker/src/queue.rs:55-75 | Refused exactly when as many reservations are alive, or as many of this user, as the limit allows, and then nothing changes; otherwise one more is alive, and is told how many are queued; the counters stay the populations they count |
| `Admission.InferenceQueue.TakePermit` | crates/sentia-local-broker/src/queue.rs:79-94 | The semaphore hands over a permit exactly when fewer than max_active are held |
| `Admission.InferenceQueue.Activate` | crates/sentia-local-broker/src/queue.rs:79-94 | One reservation that holds a permit goes from queued to active, the lowered counter really being lowered |
| `Admission.InferenceQueue.ReturnPermit` | crates/sentia-local-broker/src/queue.rs:98-119 | The first half of a drop: the permit goes back while the reservation is still counted |
| `Admission.InferenceQueue.Release` | crates/sentia-local-broker/src/queue.rs:98-119 | The second half: exactly one reservation is uncounted, and its user is on record exactly as long as another of theirs is alive |
| `Admission.RunKeeps` | crates/sentia-local-broker/src/queue.rs:55-119 | Under every interleaving each counter is the population of the phases it counts, reservations in transit included |
| `Admission.QueueLimits` | crates/sentia-local-broker/src/queue.rs:55-119 | Held permits never exceed max_active; queued plus active is the number of live reservations, within the global limit |
| `Admission.UserLimits` | crates/sentia-local-broker/src/queue.rs:55-119 | The recorded users are exactly those with a live reservation, each with its number and within its limit |
| `Admission.UserCountsAddUp` | crates/sentia-local-broker/src/queue.rs:55-119 | The per-user counts sum to queued plus active |
| `Admission.NeverSaturates` | crates/sentia-local-broker/src/queue.rs:98-119 | No saturating subtraction ever saturates |
| `Admission.ActiveWithinLimitIff` | crates/sentia-local-broker/src/queue.rs:98-106 | When exactly the active counter is within max_active |
| `Admission.ActiveCounterOvershoots` | crates/sentia-local-broker/src/queue.rs:102-106 | A run in which it is not: the permit is returned before the counter is lowered |
| `Utf8.SplitBounded` | crates/sentia-router/src/server.rs:824-839 | Terminates with well-formed pieces within the limit that join to the input, all but the last nearly full |
| `Utf8.ScanStallsIff` | crates/sentia-router/src/server.rs:830-837 | The inner scan makes no progress exactly when a character is longer than the limit |
| `Utf8.TruncateUtf8` | crates/sentia-router/src/server.rs:841-851 | The longest well-formed beginning within the limit, fewer than four bytes short of it |
| `Utf8.CutUnique` | crates/sentia-router/src/server.rs:841-851 | Text and limit determine the cut |
| `Utf8.WellFormedIff` | crates/sentia-router/src/server.rs:824-851 | What the cuts keep well-formed is text: a byte string is well-formed exactly when it is the UTF-8 encoding of a sequence of Unicode scalar values |
| `JsonLines.ReadFrame` | crates/sentia-router/src/server.rs:879-921 | The result depends on the stream and the limit only, not on how the buffer is filled; success consumes through the newline of the frame, and a refusal leaves the stream inside the refused line, or at its end |
| `JsonLines.ReadBackIff` | crates/sentia-router/src/server.rs:879-921 | A frame written with a newline is read back exactly when it is not empty, has no newline, does not end in CR and fits |
| `JsonLines.FramesRecovered` | crates/sentia-router/src/server.rs:879-921 | Every sequence of such frames is recovered |
| `HttpBody.BodyReader.Next` | crates/sentia-local-broker/src/llama.rs:483-563 | In each mode, which piece is handed over, which bytes are consumed, and every error; once done, nothing more |
| `HttpBody.SkipTrailers` | crates/sentia-local-broker/src/llama.rs:511-519 | Skips to the blank line or the end of the stream |
| `HttpBody.ReadBodyBounded` | crates/sentia-local-broker/src/llama.rs:566-589 | Succeeds exactly when the stream has a body within the maximum, and returns it, whatever pieces it came in |
| `HttpBody.HandedOver` | crates/sentia-local-broker/src/llama.rs:483-563 | A piece is the front of the body and the rest is still to come |
| `HttpFraming.ChunkAcceptedIff` | crates/sentia-local-broker/src/llama.rs:488-538 | Of all chunks section 7.1 of RFC 9112 allows, with leading zeros, either case, whitespace and extensions, exactly those are read whose extension is UTF-8, with no whitespace before it and at most 128 bytes in the line; and which error the others get |
| `HttpFraming.ObsTextRefused` | crates/sentia-local-broker/src/llama.rs:503-510 | A byte from 0x80 in an extension |
| `HttpFraming.BlankRefused` | crates/sentia-local-broker/src/llama.rs:503-510 | A space before an extension |
| `HttpFraming.LongLineRefused` | crates/sentia-local-broker/src/llama.rs:503-510 | A line of 129 bytes or more |
| `HttpFraming.TrailersSkippedIff` | crates/sentia-local-broker/src/llama.rs:511-519 | Trailers are skipped exactly when they are all UTF-8 |
| `HttpFraming.LastAcceptedIff` | crates/sentia-local-broker/src/llama.rs:503-519 | The last size line and the trailers end a body exactly when the line is readable and the trailers are UTF-8 |
| `HttpFraming.BodyRecoveredIff` | crates/sentia-local-broker/src/llama.rs:488-538 | Of all chunked encodings of all payloads exactly those with readable size lines and UTF-8 trailers are accepted; they decode to the payload, and the reader stops where the body does |
| `HttpFraming.ObsTrailerRefused` | crates/sentia-local-broker/src/llama.rs:511-519 | One byte from 0x80 in a trailer refuses a complete body |
| `HttpFraming.CutRefusedIff` | crates/sentia-local-broker/src/llama.rs:488-538 | A stream cut inside a chunk is refused exactly when the cut does not leave only leading zeros of a size; otherwise the part before passes for the body |
| `HttpFraming.CutCanPass` | crates/sentia-local-broker/src/llama.rs:511-519 | Such a cut |
| `Sse.EventBuffer.Take` | crates/sentia-local-broker/src/llama.rs:783-796 | Takes the event before the first separator, with the separator, or nothing |
| `Sse.CutIsFirst` | crates/sentia-local-broker/src/llama.rs:784-791 | The cut is at the first blank line of either style |
| `Sse.CutStays` | crates/sentia-local-broker/src/llama.rs:783-796 | More bytes never move a cut already found |
| `Sse.DrainSplit` | crates/sentia-local-broker/src/llama.rs:227-262 | Draining in two steps is draining at once, wherever the bytes are divided |
| `Sse.FramedIsRecovered` | crates/sentia-local-broker/src/llama.rs:783-796 | Events framed with either separator are recovered, with the unterminated rest |
| `Sse.DrainedIsFramed` | crates/sentia-local-broker/src/llama.rs:783-796 | Every stream is the framing of what is read from it |
| `Sse.SeparatesLfIff` | crates/sentia-local-broker/src/llama.rs:784-791 | Exactly which events can be sent before two line feeds |
| `Sse.SeparatesCrlfIff` | crates/sentia-local-broker/src/llama.rs:784-791 | Exactly which before two CRLFs |
| `Sse.TakeAll` | crates/sentia-local-broker/src/llama.rs:243-261 | The inner loop processes all complete events up to the one that ends the stream |
| `LlamaStream.TakeChunk` | crates/sentia-local-broker/src/llama.rs:233-261 | One piece of the body: when the limit trips, and which events are then complete |
| `LlamaStream.PiecesJoin` | crates/sentia-local-broker/src/llama.rs:483-563 | The pieces a reader hands over in its mode, be they chunks, blocks or what the transport has ready, join to the body |
| `LlamaStream.ReadSse` | crates/sentia-local-broker/src/llama.rs:211-273 | From the connection, in any transfer mode: the pieces are those of the stream in its mode; reading ends at the limit exactly when a piece overfills the buffer first, ends well exactly when otherwise the body is whole or an event ends the stream, and else fails with the error of the body; and the events are those of the bytes, wherever they were divided |
| `LlamaStream.SmallBodyEnds` | crates/sentia-local-broker/src/llama.rs:235-242 | A whole body of at most the limit is read to its end, however it comes in |
| `LlamaStream.ReadEncoded` | crates/sentia-local-broker/src/llama.rs:211-273 | Every readable chunked encoding of a payload ends well exactly when its chunks fit the buffer, at the limit otherwise, and gives the events of the payload |
| `LlamaStream.ReadToolCalls` | crates/sentia-local-broker/src/llama.rs:211-287 | With the same ends, the tool calls are those assembled from the events of the bytes |
| `Sse.LimitDependsOnSplit` | crates/sentia-local-broker/src/llama.rs:235-242 | The limit is on bytes held, so whether it trips does depend on the division |
| `ToolCalls.Table.Absorb` | crates/sentia-local-broker/src/llama.rs:657-673 | After any deltas, each call's fields are its fragments joined in order |
| `ToolCalls.InterleavingForgotten` | crates/sentia-local-broker/src/llama.rs:657-673 | Two streams with the same fragments per call give the same table |
| `ToolCalls.WholeCall` | crates/sentia-local-broker/src/llama.rs:660-671 | A fragment that carries a whole call gives that call, each field in its place |
| `ToolCalls.Finish` | crates/sentia-local-broker/src/llama.rs:677-702 | All calls in index order, or the error of the first one that is not acceptable |
| `ToolCalls.OneOrder` | crates/sentia-local-broker/src/llama.rs:677-702 | There is only one index order |
| `ToolCalls.CallsRecovered` | crates/sentia-local-broker/src/llama.rs:657-702 | Calls cut into fragments and interleaved in any way, under any indices, come back in the order of the indices |
| `Redaction.RedactSecrets` | crates/sentia-router/src/privacy.rs:250-287 | The text and labels the word-by-word definition gives |
| `Redaction.SplitJoins` | crates/sentia-router/src/privacy.rs:261-263 | Splitting into words loses nothing |
| `Redaction.JoinSplits` | crates/sentia-router/src/privacy.rs:261-263 | A list of words, each with its whitespace, is what splitting its text gives back |
| `Redaction.KeepsLayout` | crates/sentia-router/src/privacy.rs:261-284 | The same whitespace in the same places; every word kept or replaced by the mark |
| `Redaction.LeavesNoSecret` | crates/sentia-router/src/privacy.rs:261-318 | No word comes out that would be labelled, but a bare header name |
| `Redaction.TextIdempotent` | crates/sentia-router/src/privacy.rs:250-287 | Redacting twice is redacting once |
| `Redaction.AddsNoKey` | crates/sentia-router/src/privacy.rs:251-257 | Redaction does not create the private-key pattern |
| `Redaction.RedactedAt` | crates/sentia-router/src/privacy.rs:261-284 | What becomes of any word of any text, from the word and whether a mark is pending there |
| `Redaction.MarkedIff` | crates/sentia-router/src/privacy.rs:261-284 | In any text a word is replaced exactly when a mark is pending at it and it is not bearer, or none is, it is no header, and it looks like a secret; every other word stays |
| `Redaction.PendingIff` | crates/sentia-router/src/privacy.rs:264-276 | A mark is pending at a word exactly when the word before it is a header at which none was, or is bearer |
| `Redaction.LabelIff` | crates/sentia-router/src/privacy.rs:289-318 | A word is a credential assignment exactly when it starts with one of the eleven names in any letter case; and what every other label, or none, says of a word |
| `Redaction.CredentialMarkedIff` | crates/sentia-router/src/privacy.rs:264-276 | In any text the next word after a header is marked exactly when one whitespace character separates them and no mark was pending at the header, or the header is bearer |
| `Redaction.SecondSpaceTakesMark` | crates/sentia-router/src/privacy.rs:264-276 | Two spaces after a header: the credential stays |
| `Redaction.SecondHeaderTakesMark` | crates/sentia-router/src/privacy.rs:264-276 | A header after a header: its credential stays |
| `Privacy.Sanitize` | crates/sentia-router/src/privacy.rs:89-141 | Succeeds exactly when everything may leave, with every text redacted, every source made safe and every label found; otherwise the error of the first check that fails, in the order of the question and the items |
| `Privacy.PayloadKeeps` | crates/sentia-router/src/privacy.rs:89-141 | Nothing is dropped: every item leaves in its place, under its category, redacted and with its safe source |
| `Privacy.NoDirectoryLeaves` | crates/sentia-router/src/privacy.rs:215-226 | No slash and no directory of an absolute source leaves: only what follows the last slash, or a fixed word; any other source leaves as it is, cut at 256 characters |
| `Privacy.RedactedHasNoSecret` | crates/sentia-router/src/privacy.rs:250-318 | The words of any redacted text, read again, are not secrets |
| `Privacy.PayloadHasNoSecretIff` | crates/sentia-router/src/privacy.rs:89-141 | No word of a whole payload looks like a secret exactly when none does of its sources as they are shortened, since only sources leave unredacted |
| `Privacy.SecretSourceLeaves` | crates/sentia-router/src/privacy.rs:215-226 | A source that looks like a secret and leaves as it is |
| `Privacy.ConsentStore.Preview` | crates/sentia-router/src/privacy.rs:143-177 | Issues a five-minute token for provider and digest, and sweeps tokens expired by then, whatever the clock said before |
| `Privacy.ConsentStore.Consume` | crates/sentia-router/src/privacy.rs:179-205 | Succeeds exactly when the consent still standing for the token is for this payload and provider and unexpired; uses it up either way, whatever the clock said before |
| `Privacy.UnsweptInOrder` | crates/sentia-router/src/privacy.rs:143-205 | While no later preview carried a time after the attempt, that is the last thing that happened to the token being its matching, unexpired preview |
| `Privacy.SweptEarly` | crates/sentia-router/src/privacy.rs:144-150 | A history with times out of order in which it is not |
| `Privacy.UsesBounded` | crates/sentia-router/src/privacy.rs:179-205 | A token is used no more often than it was issued |
| `Privacy.Serve` | crates/sentia-router/src/privacy.rs:143-205 | Over any sequence of previews and attempts at any times, on the real store: each has its event, with its own token, payload and time, and an attempt succeeds exactly when the consent it needs is in force; no token is used more often than it was issued |
| `Routing.BuildRoute` | crates/sentia-router/src/router.rs:419-560 | The candidates, their order, the fallback reason or the error for each policy; a remote candidate carries the sanitized request; an attempt on the consent is made exactly when the policy asks, a remote is configured, the payload may leave and there is a token, and succeeds exactly when consent to that payload is in force |
| `Routing.RouteOrder` | crates/sentia-router/src/router.rs:419-560 | Who is on a route and in which order: the local provider if there is one, a remote one exactly when it may be tried, and first unless the local one is preferred; and exactly when there is an error instead |
| `Routing.FallbackSays` | crates/sentia-router/src/router.rs:437-535 | Exactly when the client is told that a remote provider is unsupported, or denied for privacy |
| `Routing.AskedConsent` | crates/sentia-router/src/router.rs:507-535 | A remote candidate under the policy that asks had consent to exactly its payload |
| `Routing.StaysLocal` | crates/sentia-router/src/router.rs:437-535 | No remote candidate on a route for a local-only request, nor for sensitive data except with consent just consumed, nor for anything that may not leave; `DispatchRuns.SendsPermitted` has what is sent |
| `Routing.OneOfEach` | crates/sentia-router/src/router.rs:419-560 | At most one local and one remote candidate |
| `Routing.RemoteSeesOnlySanitized` | crates/sentia-router/src/router.rs:753-794 | Requests with the same sanitized payload give a remote provider the same messages |
| `Routing.MessagesPresent` | crates/sentia-router/src/router.rs:753-794 | The messages to the local provider hold the whole question and every item of the context, in order and each with its source; those to a remote one hold its payload in the same way |
| `Routing.NothingLost` | crates/sentia-router/src/router.rs:753-794 | Question and items can be read back from the messages |
| `Breaker.CircuitBreakers.constructor` | crates/sentia-router/src/provider.rs:499-505 | New breakers have no history |
| `Breaker.CircuitBreakers.Allow` | crates/sentia-router/src/provider.rs:507-520 | Refuses exactly when the record of the history is blocked, and the question joins the history, where one that finds the cooldown over clears the record; `BlockedIff` says what blocked means |
| `Breaker.BlockedIff` | crates/sentia-router/src/provider.rs:507-536 | By positions in any history: a provider is refused exactly when as many failures as the threshold follow its last reset, a success or a question that found the cooldown over, and the latest is less than the cooldown ago |
| `Breaker.SecondChance` | crates/sentia-router/src/provider.rs:512-517 | After a question that finds the cooldown over, a single failure does not keep the provider out, unless one is enough |
| `Breaker.CircuitBreakers.Success` | crates/sentia-router/src/provider.rs:522-524 | Clears the record |
| `Breaker.CircuitBreakers.Failure` | crates/sentia-router/src/provider.rs:526-536 | Adds to the record, with the saturating counter of the source |
| `Breaker.OnlyItsOwn` | crates/sentia-router/src/provider.rs:507-536 | Only a provider's own calls matter to it |
| `Breaker.NotBlockedEarly` | crates/sentia-router/src/provider.rs:526-536 | Never refused with fewer failures since its last success than the threshold |
| `Breaker.RunCounts` | crates/sentia-router/src/provider.rs:507-536 | Failures add up over any run of questions, failures and other providers that does not clear the record |
| `Breaker.BlockedAfterRun` | crates/sentia-router/src/provider.rs:507-536 | As many failures as the threshold in such a run keep a provider out for exactly the cooldown after the last |
| `Breaker.AttemptsNeverClear` | crates/sentia-router/src/router.rs:246-262 | Asking before every attempt, as chat does, does not clear a record below the threshold |
| `Streaming.StreamState.constructor` | crates/sentia-router/src/server.rs:480-497 | The state a stream starts in |
| `Streaming.StreamState.Handle` | crates/sentia-router/src/server.rs:499-658 | What each event does to every field and which frames it sends |
| `Streaming.StreamState.SendDeltas` | crates/sentia-router/src/server.rs:567-581 | A delta goes out in well-formed pieces within the frame bound, in order |
| `Streaming.StreamState.Finish` | crates/sentia-router/src/server.rs:683-728 | The result for each final status, or the validation error of a failure without an error |
| `Streaming.HandleAgrees` | crates/sentia-protocol/src/router.rs:206-273 | Handling fails exactly for an illegal transition or an end that is no end; otherwise state and frames stay in step |
| `Streaming.StreamAgrees` | crates/sentia-router/src/server.rs:499-681 | After any events the state is their summary, event frames are numbered 1, 2, 3 and so on, and every delta carries the bytes output so far |
| `Streaming.StreamShows` | crates/sentia-router/src/server.rs:499-658 | The client is told of every transition, of every provider that starts or makes progress by its name, and of every known tool, in order, each time with the status the request then has |
| `Streaming.StreamEnds` | crates/sentia-router/src/server.rs:630-656 | Exactly one terminal event and one result, last and nowhere else, that report the summary |
| `Streaming.Serve` | crates/sentia-router/src/server.rs:372-381 | The pump breaks off on an error frame exactly when the events are not safe |
| `Chat.Run` | crates/sentia-router/src/router.rs:190-417 | The loop emits the events the turns define |
| `Chat.ChatSettles` | crates/sentia-router/src/router.rs:190-417 | For all candidates, failures and cancellations there is one Done, last; the events are safe; and they come to what the first candidate that does not pass makes of the request |
| `Chat.AnnouncesTried` | crates/sentia-router/src/router.rs:240-417 | The client is told of exactly the candidates that were really asked, in order, each with the reason for it |
| `Chat.CodesTell` | crates/sentia-router/src/router.rs:820-829 | Which failure has which code |
| `Chat.Deliver` | crates/sentia-router/src/server.rs:372-381 | The stream of any chat never breaks off, is numbered, carries all deltas, and ends in one terminal event and one result that report how the request settled |
| `Chat.ServeChat` | crates/sentia-router/src/router.rs:190-417 | The same from the route: the candidate loop and the pump together |
| `Chat.ResultOf` | crates/sentia-router/src/server.rs:683-728 | Completed, cancelled or failed, each exactly when the candidates say so; a completed text is the UTF-8-safe cut of the successful answer alone |
| `Chat.PathIff` | crates/sentia-router/src/router.rs:280-311 | The reported transitions form a path from Received exactly when the request did not fall back from a remote that never ran |
| `Chat.PathBreaks` | crates/sentia-router/src/router.rs:245-311 | A request whose transitions jump |
| `AgentRound.RunKeeps` | crates/sentia-router/src/router.rs:582-646 | Under every interleaving of sends, receives, completion and cancellation, text sent is text forwarded and then text still in the channel |
| `AgentRound.ForwardsText` | crates/sentia-router/src/router.rs:582-646 | A finished round has forwarded exactly the texts the provider sent, in order; an unfinished one a beginning of them |
| `AgentRound.RoundText` | crates/sentia-router/src/router.rs:582-646 | The same in bytes |
| `AgentRound.LateProgressDropped` | crates/sentia-router/src/router.rs:634-646 | Progress still in the channel at completion is dropped |
| `AgentLoop.ValidateAndInvoke` | crates/sentia-router/src/tools.rs:245-295 | When the service is asked, when the call succeeds, exactly when each error is given, and that the identifier is marked seen first |
| `AgentLoop.InvokedOnce` | crates/sentia-router/src/tools.rs:252-270 | No identifier reaches the service twice, and only read-only tools do |
| `AgentLoop.RemoteInvokesNothing` | crates/sentia-router/src/router.rs:574-578 | A remote provider's calls never reach the service |
| `AgentLoop.AnswerCalls` | crates/sentia-router/src/router.rs:657-718 | One tool message per call, in order, under its identifier and name, with the service's answer exactly when there is one; proposals are answered without being run; the client is shown results and proposals, in order |
| `AgentLoop.RunAgentLoop` | crates/sentia-router/src/router.rs:580-726 | Over rounds that play out in any interleaving: at most max_agent_rounds provider calls, each given the prompt and all earlier rounds fully answered; the calls that reached the service; every event sent; and why the loop ended |
| `AgentLoop.ForwardedIsSent` | crates/sentia-router/src/router.rs:580-726 | Over all rounds, the client has a beginning of the text the provider sent, and all of it when the last round finished |
| `Dispatch.TranscriptWithoutTools` | crates/sentia-router/src/router.rs:657-718 | What joins the prompt of a provider without tools, over any rounds, is its own requests and refusals |
| `Dispatch.Router.constructor` | crates/sentia-router/src/router.rs:70-84 | A new router has no consents, no breaker records, no calls, and every chat waiting |
| `Dispatch.Router.Preview` | crates/sentia-router/src/router.rs:150-188 | A consent is recorded exactly for a configured provider and a payload that may leave, for the digest of the sanitized payload; nothing else changes |
| `Dispatch.Router.Status` | crates/sentia-router/src/router.rs:116-122 | Asking for a provider's status asks its breaker, with the answer and the effect of any question |
| `Dispatch.Router.Route` | crates/sentia-router/src/router.rs:190-240 | A chat gets the route its own request, settings and the consents then in force allow; its attempt on its token is recorded, and no other chat is touched |
| `Dispatch.ReasonsKept` | crates/sentia-router/src/router.rs:190-240 | The error and the reason of a route reach the client as they are |
| `Dispatch.Router.Ask` | crates/sentia-router/src/router.rs:240-258 | The next candidate is tried exactly when the chat is not cancelled and the breaker record, as all chats have made it, does not block it; the question is recorded |
| `Dispatch.Router.Serve` | crates/sentia-router/src/router.rs:259-396 | Health, agent loop, and what the breaker is told; every provider call is logged; the events are those of the turn; and the chat ends or goes on to the next candidate |
| `Dispatch.Router.Answer` | crates/sentia-router/src/router.rs:325-345 | An unhealthy remote is not called; otherwise the agent loop runs with this provider, its prompt and its tools, and its leg is what that loop did |
| `Dispatch.ServeAll` | crates/sentia-router/src/router.rs:150-417 | For any interleaving of previews, status questions and steps of chats, the router goes from state to state as the steps say |
| `DispatchRuns.NextKeeps` | crates/sentia-router/src/router.rs:150-560 | Every step of any chat keeps the invariant of all chats |
| `DispatchRuns.SendsPermitted` | crates/sentia-router/src/router.rs:240-560 | Over every run, at every moment, every provider call is for the client's own request and a candidate of its route. No remote provider is sent anything for a local-only request, nor under a policy that asks unless the chat itself used up a consent then in force for exactly that payload, nor otherwise sensitive data or what may not leave; in every round it is sent the sanitized request and its own words; any provider's first messages hold the whole question and context it is to have; and its breaker had been asked and did not block it |
| `DispatchRuns.SentWasShown` | crates/sentia-router/src/privacy.rs:143-205 | Over every run: what a remote provider is sent under the policy that asks is what a preview showed the user for that provider under the token of the request, at most five minutes before, with nothing having happened to the token since; or two payloads have one digest |
| `DispatchRuns.OutcomeTold` | crates/sentia-router/src/router.rs:259-396 | A breaker is told of every turn its provider took: a success exactly if the turn answered, and otherwise a failure when the turn ended |
| `DispatchRuns.TurnTools` | crates/sentia-router/src/router.rs:574-578 | The tool calls of the local provider that reach the service are those the loop allows; none of a remote one does |
| `DispatchRuns.LogComplete` | crates/sentia-router/src/router.rs:320-345 | The log of a chat is every message list its agent loops gave a provider, turn by turn and round by round |
| `DispatchRuns.HistoryOrigin` | crates/sentia-router/src/router.rs:150-188 | Every entry of the consent history is what one preview or one chat's attempt recorded on the history before it, in step order |
| `DispatchRuns.ConsentsUsedOnce` | crates/sentia-router/src/privacy.rs:179-205 | No consent is used more often than it was given, and no two chats use the same |
| `DispatchRuns.ClosedIsChat` | crates/sentia-router/src/router.rs:240-417 | A chat that is over has sent the events of its turns: every candidate, or up to the first that did not pass the request on |
| `DispatchRuns.TurnTold` | crates/sentia-router/src/router.rs:580-646 | What a turn streamed is a beginning of the text its provider sent, and all of it when it answered |
| `DispatchRuns.Deliver` | crates/sentia-router/src/server.rs:372-381 | Its stream ends in one terminal event and one result that report how the request settled, and a completed text is the UTF-8-safe cut of what the deciding provider sent |
| `DispatchRuns.ChatsEnd` | crates/sentia-router/src/router.rs:240-417 | A chat takes at most five steps of its own, whatever others do in between, and is over after them |
| `Sha256.PadMessage` | native/sentia-apt/src/sha256.cpp:35-48 | The padding of section 5.1.1 of FIPS 180-4, in whole blocks |
| `Sha256.PaddingInverts` | native/sentia-apt/src/sha256.cpp:35-48 | The message can be read back from its padding, below 2^61 bytes |
| `Sha256.PaddingInjective` | native/sentia-apt/src/sha256.cpp:35-48 | Different messages have different paddings |
| `Sha256.FillSchedule` | native/sentia-apt/src/sha256.cpp:55-71 | The reused array holds the message schedule of the current block |
| `Sha256.RunRounds` | native/sentia-apt/src/sha256.cpp:73-100 | The eight variables after 64 rounds, over the functions and constants that `Sha256Standard` is about |
| `Sha256.ProcessBlocks` | native/sentia-apt/src/sha256.cpp:50-113 | The fold over blocks of section 6.2.2 of FIPS 180-4 |
| `Sha256Standard.HashedInOrder` | native/sentia-apt/src/sha256.cpp:50-113 | Blocks are taken from the first to the last, each starting from what the one before left |
| `Sha256Standard.ChooseAtOnes` | native/sentia-apt/src/sha256.cpp:85 | Ch is its second argument wherever the first has ones |
| `Sha256Standard.ChooseAtZeros` | native/sentia-apt/src/sha256.cpp:85 | Ch is its third argument wherever the first has zeros |
| `Sha256Standard.MajorityPlaces` | native/sentia-apt/src/sha256.cpp:89 | Maj is, at any places, what two of its arguments agree on |
| `Sha256Standard.Rotations` | native/sentia-apt/src/sha256.cpp:12-14 | The shifts and the or are a rotation, for each of the ten amounts in use |
| `Sha256Standard.XorOdd` | native/sentia-apt/src/sha256.cpp:64-69 | Three words combined are one where an odd number of them are |
| `Sha256Standard.BigSigma0Places` | native/sentia-apt/src/sha256.cpp:87-88 | At any places, the odd ones of rotations by 2, 13 and 22 |
| `Sha256Standard.BigSigma1Places` | native/sentia-apt/src/sha256.cpp:83-84 | The same of rotations by 6, 11 and 25 |
| `Sha256Standard.SmallSigma0Places` | native/sentia-apt/src/sha256.cpp:64-66 | The same of rotations by 7 and 18 and a shift by 3 |
| `Sha256Standard.SmallSigma1Places` | native/sentia-apt/src/sha256.cpp:67-69 | The same of rotations by 17 and 19 and a shift by 10 |
| `Sha256Standard.ConstantsFromPrimes` | native/sentia-apt/src/sha256.cpp:16-29 | The 64 constants are the first 32 bits of the fractions of the cube roots of the 64 numbers listed |
| `Sha256Standard.FirstPrimes` | native/sentia-apt/src/sha256.cpp:16-29 | Those numbers are the first 64 primes, each the next prime after the one before |
| `Sha256Standard.InitialFromPrimes` | native/sentia-apt/src/sha256.cpp:31-33 | The initial state is the first 32 bits of the fractions of the square roots of the first eight primes |
| `Sha256Example.AbcDigest` | native/sentia-apt/src/sha256.cpp:35-113 | The digest of "abc" is the one FIPS 180-4 gives |
| `Sha256.Sha256Hex` | native/sentia-apt/src/sha256.cpp:117-127 | The eight words of the hash of the padded message in hexadecimal, in order |
| `Sha256.DigestIsHex` | native/sentia-apt/src/sha256.cpp:121-126 | Eight lower-case digits a word |
| `Sha256.DigestGivesWords` | native/sentia-apt/src/sha256.cpp:121-126 | Equal digests mean equal hash values |
| `Alerts.AlertEngine.constructor` | crates/sentia-health/src/alert.rs:35-41 | A new engine has no conditions and an empty log |
| `Alerts.AlertEngine.EvalNumeric` | crates/sentia-health/src/alert.rs:213-307 | Every condition is where its samples lead, its records are those its samples produce, and the log is the last of all records |
| `Alerts.AlertEngine.PushRecord` | crates/sentia-health/src/alert.rs:309-318 | The log stays the last max_log_entries records |
| `Alerts.FlipsIff` | crates/sentia-health/src/alert.rs:241-301 | An alert changes exactly with the sample that completes a run of the required length since the last change |
| `Alerts.ReportedIff` | crates/sentia-health/src/alert.rs:241-301 | A sample is reported exactly when it raises or resolves the alert, or the alert stays up and it is not low and differs by the delta or more from the value last reported; the record has its value and time, and the time the alert was raised |
| `Alerts.ReportsAlternate` | crates/sentia-health/src/alert.rs:249-297 | Two resolving records of one condition are never adjacent, and the last record says how the condition is |
| `Alerts.ReportIsClose` | crates/sentia-health/src/alert.rs:264-279 | While an alert is up, every sample above the clear level is within the delta of the value last reported |

## Left out

- Approval: D-Bus, polkit, pidfd, systemctl and the worker process are the answers carried by steps; the JSON text of requests and responses and the worker's lock file are not modelled.
- AptPlan: libapt's resolver and installer are arbitrary; a plan is any plan of some dependency cache.
- Rebuild: walking the file system, parsing dpkg status and manual pages, and full-text search are not modelled; a source is its list of candidates. The table is a map keyed by path. The sum that passes usize::MAX wraps, as in a release build; a debug build stops there.
- Admission.InferenceQueue.Activate: models acquire from the queued phase only, as its one caller uses it (crates/sentia-local-broker/src/server.rs:303); fairness of the semaphore is not modelled.
- HttpBody: the status line and headers are not modelled; lengths of buffers are unbounded numbers, so the saturating sum in the size check cannot saturate.
- LlamaStream.ReadSse: says nothing of the events when the body breaks off or the limit trips, since the request then fails; nor how much of the connection is left when an event ends the stream early.
- Sse: the fields inside an event are not parsed; which events end the stream, by a done marker or an error, is a parameter.
- ToolCalls: whether arguments are JSON, and which fragments an event carries, are parameters.
- Privacy: the keyed digest that makes token identifiers and the JSON that is digested are parameters.
- Routing.RemoteSeesOnlySanitized: the wording of the system messages is not modelled.
- Chat: waiting, time limits and the provider adapters are what a candidate's turn is told; the texts of error messages are not modelled.
- Dispatch: an agent loop is one step, so the provider calls of two chats are logged loop by loop; what the tool service answers may differ from loop to loop.
- Streaming: frame and event identifiers, timestamps, media types and the wording of provider statuses are not modelled.
- AgentLoop: schema and path checks of tool arguments are one parameter.
- Alerts: message texts and levels are left out, numbers are reals, and the ten conditions of `evaluate` are calls of one member.
- Connection bookkeeping in the router's server, settings storage, health collection, command-line clients, packaging and the user interface would only add easy members.
