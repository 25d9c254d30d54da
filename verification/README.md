# A verified model of the gateway's scheduling, protocol and durability cores

The repository is a local gateway in front of language-model providers. This project models the parts
of it that hold state or parse bytes, and proves what they promise over every input and every run.

- **Routing** (`Policy`, `Index`, `Preferences`, `Selection`, `Choosing`, `Chooser`): validated
  configuration, admission of a target, the compiled candidate index, account pools and the chooser.
  The optimised scan is shown to be a declarative argmin that never starves a dispatchable request.
- **Scheduler** (`Counters`, `Scheduler`, `Conservation`, `Steps`, `Wakeups`, `Timers`, `Dispatching`,
  `Holds`, `Runs`, `Guarantees`, `Health`, `Penalties`, `Fairness`, `PoolFairness`, `PoolWeights`, `Scenarios`): a state machine with one step per hold of the
  shared mutex. Pointers to counters are explicit cell references, so that two configuration
  generations alias a counter exactly when they hold the same reference. `WaitQueue` is the linked
  queue itself, `HotSwap` the hot swap, grant and release as code over mutable state, and `Acquiring`
  puts chooser, capacity and queue together into whole holds of the mutex; all are proved equal to
  the functions the state machine uses.
- **Retries** (`Attempts`): the attempt loop against an arbitrary scheduler and arbitrary upstreams.
- **JSON** (`Json`, `Scanner`, `Spans`, `Requests`, `Lexing`, `Quoting`, `Rewriting`, `Images`): a syntax tree that keeps
  spelling and blanks (RFC 8259), the byte scanner, inspection, the model splice and image detection.
- **Streams** (`Sse`, `Completion`, `Streaming`, `StreamSuccess`): event framing, the completion
  observer and the relay loop.
- **Durable and shared state** (`Journal`, `Vault`, `Generations`, `ByteBudget`, `Ingress`): the
  configuration journal, single-flight credential refresh, runtime generations, the byte budget and
  the body reader.

Some promises do not hold as one might read them, and the project states where the line is:
the candidate index misses targets of a source named `auto` when there is no such group
(`Index.IndexCompleteIff`); a body rewritten with certain control characters in the model name is not
JSON (`Rewriting.AsciiRewriteIsJsonIff`); the journal's 64-bit revision wraps into a journal that
cannot be read again (`Journal.ReadableIff`); deleting a credential changes its value but keeps its
version (`Vault.VersionRisesIff`); a later throttle with a shorter delay ends an earlier one early
(`Penalties.ThrottleHolds`, `Scenarios.ThrottleCutShort`); a cooldown that runs out signals nobody, so
a waiter may sleep on until the next signal or its retry timer (`Runs.RunNeverLosesWakeup`,
`Scenarios.SleeperForgotten`). Publishing a configuration after
shutdown is excluded as a step, and `Generations.PublishSafeIff` shows why it has to be.

Check everything with `dafny verify dfyconfig.toml`.

## Model

| member | source | states |
|---|---|---|
| `Index.IndexNames` | internal/routing/router.go:173-177 | the name index lists, per explicit or plain model name, exactly the targets so named, in table order |
| `Index.IndexGroups` | internal/routing/router.go:178-189 | a group's candidates follow its declared source order, appended behind targets that share its name |
| `Index.Compile` | internal/routing/router.go:123-191 | the compiled table has one target per source model and, for every key, the declared candidate list |
| `Index.CandidateMembers` | internal/routing/router.go:173-189 | a target is a candidate of a key exactly when it is named so or its source belongs to that group |
| `Index.IndexComplete` | internal/routing/router.go:173-189 | every admitted target is indexed under the query's key, unless a source named `auto` is shadowed |
| `Index.ShadowedMisses` | internal/routing/router.go:352-357 | in a shadowed table some target admits a query that the index cannot find |
| `Index.IndexCompleteIff` | internal/routing/router.go:173-189 | the index is complete for all queries exactly when no source named `auto` offers a tier name without an `auto` group |
| `Index.AutoConfigShadowed` | internal/routing/router.go:352-357 | a validated configuration with such a source |
| `Index.ShadowedInput` | internal/routing/router.go:123-191 | compiled, it admits a query for its only target under a key without candidates |
| `Policy.AdmittedIff` | internal/routing/router.go:216-321 | a target is admitted exactly when it meets every condition of query, group, billing, price and tier, each written in the configuration's own fields |
| `Policy.ReasonIsTrue` | internal/routing/router.go:216-321 | whatever the order of the checks, a refusal names a condition that the target really fails |
| `Preferences.CompareIsLex` | internal/routing/preferences.go:10-24 | the early-return comparison is the lexicographic order on preference vectors, both directions |
| `Preferences.ScanKeepsFirstMinimal` | internal/routing/router.go:404-413 | the replacing scan keeps the first minimal entry, and nothing only when there is none |
| `Preferences.EarlyExit` | internal/routing/router.go:408-412 | stopping at an entry that no later one beats gives the full scan's result |
| `Choosing.ChoiceIsArgmin` | internal/routing/router.go:362-415 | the choice is the one candidate that is first in rotated order and minimal under preference vector then score among available, pool-admitted ones |
| `Choosing.ChosenIsAdmitted` | internal/routing/router.go:345-416 | a chosen target is indexed, admitted, has room, and the router is live with global room |
| `Choosing.PickIsMinimal` | internal/routing/pools.go:44-47 | a provider's pick is not beaten by any available account of it |
| `Choosing.PickIsReal` | internal/routing/pools.go:18-48 | every pick is an available account of its provider |
| `Choosing.ChooseIffIndexed` | internal/routing/router.go:345-416 | something is chosen exactly when the router is live, has global room, and some indexed target is available |
| `Choosing.ChooseIffDispatchable` | internal/routing/router.go:345-416 | the same over the whole target table: index and pool filter never hide the last choice |
| `Choosing.ChooseEligible` | internal/routing/router.go:345-416 | the eligibility verdict is true exactly when a live router has an admitted target anywhere |
| `Choosing.SimulationConsistent` | internal/routing/router.go:677-727 | a simulation selects something exactly when it lists an eligible target, and the selection is listed |
| `Choosing.ChosenNotBeaten` | internal/routing/router.go:404-413 | no admitted candidate ranks before the chosen one |
| `Choosing.FallbackIgnoresCursor` | internal/routing/router.go:397-398 | a fallback group serves the earliest declared available source whatever the cursor |
| `Choosing.StrategyMeans` | internal/routing/router.go:393-413 | where the preferences leave a tie, or there are none, the chosen target has the least latency, virtual finish, load or their mix, by its group's strategy |
| `Choosing.BetterIff` | internal/routing/preferences.go:26-54 | a preference orders two targets by what it says: official or reverse kind, subscription billing, both prices known and the larger one smaller, a measured and smaller latency |
| `Choosing.PreferencesRule` | internal/routing/preferences.go:10-54 | the group's preferences rule in their order: whatever could have been chosen and ties with the choice on the earlier ones is no better on the next |
| `Choosing.PoolRules` | internal/routing/pools.go:17-48 | where pools apply, a chosen target with an account uses the best available account of its provider by the configured pool strategy, round robin by default, ties by last dispatch |
| `Choosing.PoolsStandAside` | internal/routing/router.go:358-361 | in fallback, select and weighted groups, and for targets without an account, everything available can be chosen |
| `Choosing.RotationMeans` | internal/routing/router.go:362-372 | equals are tried from the cursor on, once round |
| `Chooser.PoolPreferences` | internal/routing/pools.go:11-54 | the loop returns the best account per provider, first among equals |
| `Chooser.Consider` | internal/routing/router.go:381-413 | one candidate replaces the best exactly when it is admitted and ranks before it; the early stop happens only at a zero score without preferences |
| `Chooser.ScanCandidates` | internal/routing/router.go:362-415 | the rotated loop with early exits equals the full-scan specification |
| `Chooser.ChooseTarget` | internal/routing/router.go:345-416 | the whole chooser equals the full-scan specification, retired routers included |
| `Counters.CountById` | internal/routing/router.go:82-93 | a counter looked up by id equals the number of holders under that id |
| `Counters.RelinkKeeps` | internal/routing/reconfigure.go:9-56 | relinking ids while units are held loses no held unit and never shares a counter between ids |
| `Conservation.GrantKeeps` | internal/routing/router.go:434-449 | taking a lease keeps every counter, pointer, id table and bound |
| `Conservation.ReleaseKeeps` | internal/routing/router.go:518-563 | releasing a lease through its own pointers keeps them too, and no counter underflows |
| `Conservation.RelinkConserves` | internal/routing/reconfigure.go:9-56 | a hot swap conserves every counter in use |
| `Conservation.RefreshConserves` | internal/routing/reconfigure.go:19-41 | applying the new switches and limits leaves every count alone |
| `Steps.SwapKeeps` | internal/routing/reconfigure.go:5-68 | the whole swap keeps the invariant |
| `Steps.JudgedGrantable` | internal/routing/router.go:431-434 | only the current router grants, below the global limit, and only an admitted target |
| `Steps.NextKeeps` | internal/routing/router.go:417-579 | every step of every goroutine keeps the invariant |
| `Holds.RulingMeans` | internal/routing/router.go:427-453 | a request is granted exactly when it is live, dispatchable anywhere in the table, and nobody live ahead of it is; it gives up exactly when cancelled, retired or admitted nowhere |
| `Holds.ArrivalMeans` | internal/routing/router.go:417-471 | a newcomer joins the tail, asleep for 250 ms, exactly when it must wait and there is room; otherwise its queue is untouched; a lease is recorded exactly when granted |
| `Holds.ResumeMeans` | internal/routing/router.go:422-471 | a request that looks again leaves the queue, and only it, when granted or giving up; otherwise it keeps its place for another 250 ms |
| `Holds.FreshMeans` | internal/routing/router.go:123-170 | a counter just made is idle, open and rested, with the configured limit |
| `Holds.LatencyMeans` | internal/routing/router.go:545-553 | a success takes the first measurement as latency and moves a later one by a fifth of the way; nothing else moves it |
| `Runs.InitOk` | internal/routing/router.go:123-191 | a freshly compiled router is consistent and has no waiter to wake |
| `Runs.RunKeeps` | internal/routing/router.go:417-579 | all states of all runs are consistent |
| `Runs.CapacityConserved` | internal/routing/reconfigure.go:5-59 | in every state of every run the global, source, quota-domain and account counters equal the outstanding leases under that id in any generation; the global one is within its limit |
| `Wakeups.SignalRestores` | internal/routing/router.go:195-207 | after a signal the first waiter that must be woken is alert |
| `Wakeups.NextCalm` | internal/routing/router.go:195-207 | no step loses a wakeup, except a tick that ends a cooldown the current router looks at |
| `Wakeups.SignalStepCalm` | internal/routing/router.go:424-429 | every step that signals the current router restores the property, whatever was lost before |
| `Wakeups.NextRetired` | internal/routing/reconfigure.go:58-67 | everyone on a retired router stays told to leave, through every step |
| `Runs.RunTellsRetired` | internal/routing/reconfigure.go:58-67 | so in every state of every run |
| `Runs.RunNeverLosesWakeup` | internal/routing/router.go:195-207 | in every state of every run the first cancelled, dispatchable or no longer eligible waiter is alert, and everyone on a retired router; the one exception is the stretch between a cooldown that ran out and the next signal |
| `Wakeups.ExpiryTellsNobody` | internal/routing/router.go:390-392 | the exception is real: when the clock ends a cooldown, a sleeping waiter that can be served from then on, with nobody to wake before it, is not told |
| `Scenarios.SleeperForgotten` | internal/routing/router.go:467-480 | a run in which that happens |
| `Scenarios.Compiles` | internal/routing/router.go:123-191 | the configuration of both runs is valid and compiles |
| `Timers.NextTimed` | internal/routing/router.go:467-480 | every step keeps every sleeping waiter's timer within one retry period |
| `Timers.NextSleeps` | internal/routing/router.go:467-480 | nothing but its own wakeup ends a waiter's sleep or moves its timer |
| `Guarantees.RunTimersBound` | internal/routing/router.go:467-480 | so in every state of every run |
| `Guarantees.RunWakesInTime` | internal/routing/router.go:467-480 | a request asleep at one moment has been woken by any moment more than 250 ms later, also when a cooldown ran out unsignalled |
| `Dispatching.LogIsService` | internal/routing/router.go:433-450 | a lease is granted exactly by a step that serves a request, one at a time |
| `Dispatching.ServiceIsFifo` | internal/routing/router.go:485-495 | nobody ahead of a served request was live and dispatchable |
| `Dispatching.RetiredNeverServes` | internal/routing/router.go:346-348 | a retired router serves nobody |
| `Dispatching.ServiceWithinLimits` | internal/routing/router.go:386-392 | a grant leaves source, quota, account and global counters within the configured limits in force |
| `Dispatching.AdoptInForce` | internal/routing/reconfigure.go:19-41 | a swap puts the new quota and account limits in force |
| `Guarantees.RunGrantsWithinLimits` | internal/routing/router.go:386-392 | in every run no grant pushes a counter past the limit in force |
| `Guarantees.RunGrantsFromCurrent` | internal/routing/router.go:346-348 | in every run only the current, unretired router grants |
| `Guarantees.RunIsFifo` | internal/routing/router.go:485-495 | in every run a lease goes to the earliest live request that can run |
| `Guarantees.ReleaseOnce` | internal/routing/router.go:518-520 | a second release of one lease changes nothing |
| `Fairness.WeightedFairness` | internal/routing/router.go:393-412 | in a run through one weighted group with all members dispatchable, n_a/w_a - n_b/w_b <= 1/w_a for all members |
| `PoolFairness.RoundRobinFairness` | internal/routing/pools.go:17-47 | dispatch counts of two always-available accounts of a round-robin provider differ by at most one |
| `PoolWeights.WeightedPoolFairness` | internal/routing/router.go:442-447 | in a run pooled by weight, two always-available accounts of the provider keep n_a/w_a - n_b/w_b <= 1/w_a for the configured weights |
| `Fairness.CursorCountsLeases` | internal/routing/router.go:448-448 | within a generation the rotation moves on by one with every lease and never otherwise |
| `WaitQueue.Queue.Enqueue` | internal/routing/router.go:455-466 | linking at the tail appends to the represented sequence |
| `WaitQueue.Queue.RemoveWaiter` | internal/routing/router.go:496-513 | unlinking deletes exactly the target, keeps the order, and ignores a node that is not queued |
| `WaitQueue.Queue.IsTurn` | internal/routing/router.go:485-495 | the pointer walk decides whether nobody ahead could be served |
| `WaitQueue.Queue.Signal` | internal/routing/router.go:195-207 | the token goes to that waiter and to nobody else |
| `WaitQueue.Queue.WakeEveryone` | internal/routing/reconfigure.go:60-67 | every waiter of a retired router gets a token |
| `HotSwap.Forget` | internal/routing/reconfigure.go:42-56 | the deletion loop keeps exactly the ids that are wanted or in use |
| `HotSwap.Capacity.Adopt` | internal/routing/reconfigure.go:5-56 | the loop over sources with its three lookups produces counters, id tables and pointers of the declarative swap |
| `HotSwap.Capacity.Take` | internal/routing/router.go:434-449 | the updates of a grant, one by one, give the granted state and its lease |
| `HotSwap.Capacity.GiveBack` | internal/routing/router.go:518-563 | the updates of a release, by status, give the released state |
| `Health.NeutralRelease` | internal/routing/router.go:523-532 | administrative releases and client cancellations only give capacity back |
| `Health.HealthSurvives` | internal/routing/reconfigure.go:13-23 | a source that both configurations name keeps its counter and its health over a swap; only switching it on lifts a block |
| `Health.SwitchMeans` | internal/routing/router.go:564-579 | switching reaches exactly the state the source points at, and switching on lifts a block |
| `Penalties.PenaltyStep` | internal/routing/router.go:536-560 | exactly how each step moves blocks and cooldowns: which steps set them, to what, and which lift a block |
| `Penalties.RejectedStaysOut` | internal/routing/router.go:536-538 | in every run a source rejected with 401 or 403 is admitted by no router, probes excepted, until it is switched on or a configuration enables it again |
| `Penalties.ThrottleHolds` | internal/routing/router.go:539-544 | in every run, once a quota domain was throttled, its latest throttle decides exactly: the domain is cooling before that deadline and not after it, and while cooling no source of any router on it has room |
| `Scenarios.ThrottleCutShort` | internal/routing/router.go:543-543 | a run in which a later, shorter throttle ends an earlier one ninety-eight seconds early |
| `Penalties.FailureHolds` | internal/routing/router.go:554-560 | in every run a source has no room for five seconds after a transport failure or a 5xx, whatever else happens |
| `Acquiring.RouterObject.Snapshot` | internal/routing/router.go:60-80 | reading the counters through the router's pointers gives the view the chooser is proved on |
| `Acquiring.RouterObject.Rule` | internal/routing/router.go:431-453 | choosing and walking the queue decide as the state machine's ruling does |
| `Acquiring.RouterObject.Arrive` | internal/routing/router.go:417-466 | the first hold of Acquire over capacity and linked queue is the arrival step, and its answer follows the ruling: the lease that was added, unavailable, queue full, or waiting |
| `Acquiring.RouterObject.Resume` | internal/routing/router.go:417-480 | a later hold, with its unlinking and signal, is the resume step, with its answer |
| `Acquiring.RouterObject.Release` | internal/routing/router.go:518-563 | the hold of Release with its signal is the release step |
| `Acquiring.RouterObject.SetEnabled` | internal/routing/router.go:564-579 | the hold of SetEnabled is the switch step, and reports whether the source exists |
| `Acquiring.RouterObject.Adopt` | internal/routing/reconfigure.go:5-68 | the hold of Adopt, over both routers, is the hot-swap step |
| `Attempts.GrantIsAdmissible` | internal/routing/router.go:431-449 | every grant of the scheduler satisfies what the coordinator assumes of it |
| `Attempts.AcquireResponse` | internal/api/attempts.go:52-90 | the loop takes and frees leases exactly as its trace of attempts says, never two at once, and holds one on return exactly when it hands over an attempt |
| `Attempts.AttemptsDistinct` | internal/api/attempts.go:52-90 | no source id is tried twice or against the exclusion list, and the number of attempts is bounded |
| `Attempts.AllowsIff` | internal/api/attempts.go:15-36 | the attempt limit is what the policy allows: one, or for a stateless query of a group that is no fixed selection its `max_attempts`, or up to eight sources of a fallback group |
| `Attempts.AttemptsHappen` | internal/api/attempts.go:52-90 | for every environment trace and answer are the run it dictates: each attempt with its query, lease and reply, given up exactly when provably not accepted and one more is allowed, the next query billed and excluding it, and how the run ends |
| `Attempts.RetrySafety` | internal/api/attempts.go:52-90 | that run never makes more attempts than the policy allows and never uses a source twice |
| `Attempts.LedgerMeans` | internal/api/attempts.go:60-90 | takes and releases alternate, each release with the status and cooldown of its reply, and only the attempt handed out stays taken |
| `Attempts.AdmissionIsAffordable` | internal/routing/router.go:293-301 | an admitted attempt of a budgeted group fits what is left of the budget |
| `Attempts.AttemptsWithinBudget` | internal/api/attempts.go:75-83 | the prices of all attempts that got a response, input and output tokens at the model's rates and the last one included, stay within the group's budget together |
| `Scanner.ParityIsEscape` | internal/protocol/request.go:231-237 | an odd run of backslashes means an escaped position |
| `Scanner.Space` | internal/protocol/request.go:217-222 | the loop skips exactly the blanks |
| `Scanner.StringEnd` | internal/protocol/request.go:223-241 | the quote-jumping loop with backward parity equals the forward automaton on every input, closed or not |
| `Scanner.ValueEnd` | internal/protocol/request.go:242-270 | the depth loop equals the depth specification on every input |
| `Spans.StringSpan` | internal/protocol/request.go:223-241 | on a well-formed string the scan ends right behind its closing quote |
| `Spans.DepthValue` | internal/protocol/request.go:242-270 | inside a container the depth scan steps over exactly one value |
| `Spans.ValueSpan` | internal/protocol/request.go:242-270 | at top level it ends at the value, or behind the blanks that follow a number or literal |
| `Requests.NextField` | internal/protocol/request.go:35-45 | one round delimits exactly one member: raw key, raw value and span |
| `Requests.Inspect` | internal/protocol/request.go:23-93 | on every well-formed text inspection stays in bounds and visits exactly the top-level members in order; otherwise it refuses |
| `Requests.FlagsMean` | internal/protocol/request.go:64-86 | each flag is set exactly when some member spells one of its keys and has a value that counts, and the output ceiling is the largest declared under the five keys for it |
| `Requests.RoleIff` | internal/protocol/request.go:46-86 | the switch gives each role exactly the members whose raw key is one of its words in quotes, or has escapes that decode to one |
| `Requests.FieldsAreMembers` | internal/protocol/request.go:35-45 | the fields are all members of the tree in order, with raw key and raw value |
| `Requests.RejectedIff` | internal/protocol/request.go:47-63 | each error is given exactly when an accepted prefix is followed by a member with that fault: a second model, a model that is no string, a second stream flag, one that is no boolean |
| `Requests.InspectedMeans` | internal/protocol/request.go:15-93 | what inspection reports of a document: every flag, the ceiling, the only stream flag and the only model with its span, and what they are without any |
| `Requests.InspectionFailsIff` | internal/protocol/request.go:23-93 | a document is refused exactly when it is no object or has such a member |
| `Requests.ModelNamedOnce` | internal/protocol/request.go:47-55 | model name and span are those of the only model member, or the defaults without one |
| `Requests.StreamNamedOnce` | internal/protocol/request.go:56-63 | the stream flag is that of the only stream member, or off |
| `Rewriting.SpansExact` | internal/protocol/request.go:39-45 | every reported span holds the member's raw value byte for byte |
| `Rewriting.Rewrite` | internal/protocol/request.go:274-283 | the output is the body with the model span replaced by the quoted name, or the body itself when nothing is to change |
| `Rewriting.SpliceRenames` | internal/protocol/request.go:274-283 | splicing the span is renaming that member in the document |
| `Rewriting.ModelReported` | internal/protocol/request.go:47-55 | the reported span is that of the first model member and absent exactly when there is none |
| `Rewriting.RewriteRoundTrip` | internal/protocol/request.go:274-283 | for every spelling of a name as a JSON string the rewritten body is well formed and inspects to the new name with every other field unchanged |
| `Rewriting.PlainRoundTrip` | internal/protocol/request.go:274-283 | in particular for every name that needs no escaping, in any script |
| `Rewriting.AsciiRoundTrip` | internal/protocol/request.go:280-280 | and for every ASCII name whose escapes JSON shares |
| `Rewriting.AsciiReadsBack` | internal/protocol/request.go:280-280 | a decoder that is right about ASCII strings reads back every such name from the quoting routine's own escapes |
| `Lexing.LexDocument` | internal/protocol/request.go:223-241 | every string token that the scanner finds in a well-formed document is a JSON string |
| `Rewriting.RewrittenIsJsonIff` | internal/protocol/request.go:274-283 | the rewritten body is JSON exactly when the spliced text is a JSON string |
| `Rewriting.AsciiRewriteIsJsonIff` | internal/protocol/request.go:280-280 | for ASCII names, exactly when the name has no control character that JSON spells differently |
| `Quoting.QuotedNameIsJsonIff` | internal/protocol/request.go:280-280 | the quoted body of an ASCII name is one of a JSON string exactly for those names |
| `Rewriting.BellBreaksBody` | internal/protocol/request.go:280-280 | a body and a name for which the rewritten body is not JSON |
| `Images.HasImage` | internal/protocol/request.go:161-190 | the loop over quotes equals its specification |
| `Images.MarkerIsDecode` | internal/protocol/request.go:194-216 | comparing literals and decoding only escaped spellings recognises the same markers as decoding every string |
| `Images.TreePassesGate` | internal/protocol/request.go:162-164 | the substring test never rejects a value that has an image |
| `Images.ImageFoundIff` | internal/protocol/request.go:161-190 | on every well-formed value the scan reports an image exactly when the syntax tree has one |
| `Images.VisionExact` | internal/protocol/request.go:72-73 | a request needs vision exactly when one of its conversation members holds an image |
| `Sse.FrameIsShortest` | internal/protocol/sse.go:21-47 | a frame is the shortest prefix that ends in an empty LF or CRLF line |
| `Sse.Reader.ReadSlice` | internal/protocol/sse.go:25-26 | one buffered read: a line, a full buffer without line feed, or the rest |
| `Sse.Reader.Next` | internal/protocol/sse.go:21-47 | the result depends on the bytes and the limit only, for every buffer size from two |
| `Sse.FramesAreStream` | internal/protocol/sse.go:21-47 | all frames are complete and within the limit, and concatenate to the stream at a clean end |
| `Sse.FramesRoundTrip` | internal/protocol/sse.go:21-47 | every list of frames within the limit is read back unchanged |
| `Sse.StreamEnds` | internal/protocol/sse.go:21-47 | reading ends cleanly exactly when nothing is left of an unbroken stream, and as too long exactly when the rest passes the limit without an empty line |
| `Sse.SseData` | internal/protocol/sse.go:51-76 | view or owned buffer, the data is the line-feed join of the data values and never longer than the frame |
| `Sse.DataRoundTrip` | internal/protocol/sse.go:51-76 | whatever lines a server writes, with or without space and carriage return, their data values come back joined by line feeds |
| `Completion.FoldDone` | internal/protocol/execution.go:249-254 | the loop over choices decides whether there is one and all are done |
| `Completion.Observer.Note` | internal/protocol/execution.go:240-255 | recording a choice updates the table and completion, or faults on a bad index |
| `Completion.Observer.MergeUsage` | internal/protocol/execution.go:222-239 | merging one usage value |
| `Completion.Observer.Observe` | internal/protocol/execution.go:40-158 | one frame updates the observer as specified |
| `Completion.UsageMeans` | internal/protocol/execution.go:222-239 | each token count is its latest declaration and an undeclared total is the sum of the parts |
| `Completion.EventNameMeans` | internal/protocol/execution.go:41-46 | the last event line names the event |
| `Streaming.StreamResponse` | internal/api/stream.go:13-78 | the relay loop over the reader equals the run specification, result and frames handed over |
| `StreamSuccess.SeeRuns` | internal/protocol/execution.go:40-158 | a frame ends the stream exactly when it is the protocol's marker; otherwise the table summarises all choices seen |
| `StreamSuccess.SeeFaultIff` | internal/protocol/execution.go:40-158 | the observer faults on exactly the frames that report a failure or break the protocol |
| `StreamSuccess.SuccessIff` | internal/api/stream.go:13-78 | success exactly when the frames up to the first marker fit, none reports a failure, all reach the client, and the marker came or the stream ended cleanly with all choices finished |
| `StreamSuccess.SuccessIsReal` | internal/protocol/execution.go:20-22 | success implies that all frames read were written in order within the cap, none reported a failure, and the end is real |
| `StreamSuccess.FailureIsNamed` | internal/api/stream.go:25-77 | every other result names what happened: cap passed, a frame that shows the fault, a clean end with unfinished choices, a cut stream, a failed write |
| `StreamSuccess.UsageIsRead` | internal/api/stream.go:18-20 | unless the cap was passed, the usage reported is the merge of all that the frames read declare, in order |
| `StreamSuccess.SeeOutput` | internal/protocol/execution.go:110-156 | output has been seen exactly when a frame carried some, as each protocol marks it |
| `Journal.ReadJournal` | internal/config/service.go:74-101 | the reader's loop accepts exactly the readable journals |
| `Journal.OpenService` | internal/config/service.go:42-60 | opening refuses an invalid seed or an unreadable journal; otherwise it takes the journal's versions, or the seed as revision one |
| `Journal.Service.Trim` | internal/config/service.go:190-203 | the loop computes the trimmed list |
| `Journal.Service.Apply` | internal/config/service.go:161-211 | one transaction, all failures included, equals its specification |
| `Journal.Service.Rollback` | internal/config/service.go:151-160 | a rollback applies the retained configuration or changes nothing |
| `Journal.TrimmedIsLongest` | internal/config/service.go:190-203 | trimming keeps the longest suffix that fits and fails only when none does |
| `Journal.AcceptedIff` | internal/config/service.go:127-211 | exactly when a change or a rollback succeeds: what it proposes, revision, validity, sizes, preparation, a suffix of at most fifty that fits, and the write |
| `Journal.TransactionMeans` | internal/config/service.go:151-211 | failures leave memory and disk unchanged; a success installs exactly the configuration given, or that of the retained version named, under the successor revision as the newest of the longest history that fits |
| `Journal.RefusalIsTrue` | internal/config/service.go:127-211 | a refusal names what is really wrong, and a rollback to a revision that is not retained is always refused as that |
| `Journal.EventsKeep` | internal/config/service.go:170-209 | a usable prepared runtime sees exactly one of commit and discard, by the outcome |
| `Journal.ReadableIff` | internal/config/service.go:74-101 | a restart recovers what was written exactly when the 64-bit revision did not wrap |
| `Journal.WrapIsUnreadable` | internal/config/service.go:143-143 | the revision at which it wraps |
| `Journal.RestartRecovers` | internal/config/service.go:42-60 | memory and the readable disk agree after a success |
| `Journal.JournalIsLinear` | internal/config/service.go:146-211 | in every run accepted revisions count up by one, memory, disk and runtimes stay consistent, and the retained list is a suffix of the history |
| `Journal.NoRevisionTwice` | internal/config/service.go:127-132 | in every run no expected revision succeeds twice: of two accepted operations the later expects more |
| `Vault.Store.Put` | internal/credentials/store.go:164-206 | the steps of storing a credential are the transition of the state machine |
| `Vault.PutStores` | internal/credentials/store.go:164-206 | a put succeeds exactly when well formed, not revoked, not exhausted and saved; the id then holds exactly what was given under the next version, and nothing else changes |
| `Vault.DeleteRevokes` | internal/credentials/store.go:223-239 | a delete succeeds exactly for a live id that is saved, wipes it and touches no other |
| `Vault.ReadAnswersLatest` | internal/credentials/store.go:123-160 | over every run a read answers the value of the latest accepted put or committed refresh of that id, unless it was deleted since |
| `Vault.ReadAnswersSaved` | internal/credentials/store.go:123-160 | and before any, the value found on start |
| `Vault.Store.Delete` | internal/credentials/store.go:223-239 | deleting leaves a tombstone of the same version |
| `Vault.Store.BeginRefresh` | internal/credentials/oauth.go:67-101 | the first hold joins a flight, refuses, or takes the flight |
| `Vault.Store.FinishRefresh` | internal/credentials/oauth.go:102-134 | the second hold lands the flight and commits only over the version it read |
| `Vault.StepKeeps` | internal/credentials/store.go:123-239 | every step keeps versions, flights and what running calls have read, and records only evolve |
| `Vault.RefusalHolds` | internal/credentials/oauth.go:111-118 | in every run none starts for a minute after a refused refresh, even when forced, unless a new credential was stored meanwhile |
| `Vault.ReplacementEndsBackoff` | internal/credentials/store.go:204-204 | storing one does end it, whatever the backoff was |
| `Vault.BackoffIsForgotten` | internal/credentials/store.go:204-204 | a credential for which a refresh starts within the minute |
| `Vault.OpenedStartsRun` | internal/credentials/store.go:55-76 | whatever was saved, the empty vault included, every sequence of steps from a freshly opened vault is a run |
| `Vault.SingleFlight` | internal/credentials/oauth.go:81-101 | at most one refresh runs per id |
| `Vault.RefreshReplacesWhatItRead` | internal/credentials/oauth.go:102-134 | a refresh is committed exactly when granted, current, saved and not exhausted; it replaces exactly the record it read, and otherwise no record changes |
| `Vault.RefreshStartsIff` | internal/credentials/oauth.go:67-99 | a refresh starts exactly for a renewable grant that is forced or about to expire, with none running and no backoff |
| `Vault.RefreshAnswers` | internal/credentials/oauth.go:67-99 | what every other answer says: no grant, not due, joined to the running one, cooling down, or not renewable |
| `Vault.ExternalIsCurrent` | internal/credentials/store.go:131-140 | an external value is handed out exactly while its record is the stored one, and is asked for only of a live external record |
| `Vault.RunDescends` | internal/credentials/store.go:164-239 | over any stretch of any run versions never fall, a changed live record has a higher one, and a tombstone stays |
| `Vault.RevokedForever` | internal/credentials/store.go:123-160 | a revoked id is never resolved, replaced or refreshed again |
| `Vault.RefreshNeverOverwrites` | internal/credentials/oauth.go:67-134 | a refresh whose record changed since it began is stale and changes nothing |
| `Vault.VersionRisesIff` | internal/credentials/store.go:223-239 | a step that changes a record raises its version exactly when it is no deletion |
| `Vault.DeletionKeepsVersion` | internal/credentials/store.go:233-233 | a deletion that does not |
| `ByteBudget.StepKeeps` | internal/api/server.go:180-240 | every atomic step of generating requests and source checks keeps the counter equal to the sum of holdings, within the budget |
| `ByteBudget.LedgerBalances` | internal/api/source_checks.go:64-71 | so in every interleaving of both |
| `ByteBudget.AllReturned` | internal/api/server.go:217-217 | a request that has left, by return or abort, holds nothing; when all have, the counter is zero |
| `ByteBudget.ShrinkGivesBack` | internal/api/server.go:235-239 | what is kept after reading is always less than what was reserved |
| `ByteBudget.ShrinkReturnsTheRest` | internal/api/server.go:235-239 | after reading, the request holds buffer and copy only, and the rest is back in the budget |
| `ByteBudget.AdmittedIffItFits` | internal/api/server.go:180-190 | a reservation is admitted exactly when it fits what is free; not overtaken it takes exactly its amount, refused it changes no count |
| `ByteBudget.OvertakenLoadsAgain` | internal/api/server.go:180-190 | a swap that finds the counter changed takes nothing and starts again from the load |
| `ByteBudget.RelayReturnsTheBody` | internal/api/server.go:316-321 | a relay that needs its body no more gives all of it back |
| `Ingress.ReadChunked` | internal/api/server.go:429-460 | the doubling buffer holds a prefix of the stream, at most one byte over the size and at most twice what arrived |
| `Ingress.ReadDeclared` | internal/api/server.go:461-464 | the fixed buffer holds a prefix of the stream |
| `Ingress.ReadIngressBody` | internal/api/server.go:429-464 | either way the body is the whole stream unless refused, and retaining it stays below the reservation |
| `Generations.StepKeeps` | internal/api/control.go:71-137 | every step keeps reference counts and the lifecycle of every generation |
| `Generations.StepMeans` | internal/api/control.go:71-137 | what each step does to holders, to the current generation and to retirement; the rest follows from the invariant |
| `Generations.GenerationsAreSafe` | internal/api/control.go:71-137 | in every run a server is closed at most once, never while held, at once when retired without holders, and the current one stays open until shutdown |
| `Generations.HeldIsOpen` | internal/api/control.go:99-117 | a request runs on a server that was not closed |
| `Generations.PublishSafeIff` | internal/api/control.go:83-96 | publishing keeps the lifecycle exactly while the plane is open |
| `Generations.PublishAfterShutdown` | internal/api/control.go:83-96 | after shutdown it would close the old server twice and leak the new one |
| `Generations.ControlPlane.Pin` | internal/api/control.go:99-108 | pinning counts the current generation, or nothing once closed |
| `Generations.ControlPlane.Unpin` | internal/api/control.go:109-117 | the caller is told to close exactly when it dropped the last reference of a retired generation |
| `Generations.ControlPlane.Install` | internal/api/control.go:83-96 | publishing retires the old generation and installs a fresh one |
| `Generations.ControlPlane.Close` | internal/api/control.go:118-137 | shutdown retires the current generation once |

## Left out

- Browser, device, OCR and provider adapters, HTTP handlers, admin pages and command lines: external behaviour or plumbing.
- Configuration validation: only what the router relies on (unique ids, known accounts, positive limits, groups that name existing sources) is stated, as the precondition `Policy.Valid`.
- Floating point: scores, prices and latencies are reals; an unknown preference value is an explicit infinity.
- The router's cursor and dispatch sequence as 64-bit words: they are unbounded naturals.
- The affinity digest of sticky pools: a query carries the score of each account.
- The clock inside one hold of the mutex: one instant per step, although the source reads it more than once.
- Guarantees.RunWakesInTime: the timer itself is assumed: the clock does not pass a pending deadline while its goroutine still sleeps.
- Switching a source on a router that is no longer current: not a step; the control plane only does it on the current one.
- Accounts that no source uses: they hold no counters in the model.
- Status, health, token statistics, time to first output and the execution-event ring.
- HotSwap.Capacity.Adopt: counters are cells of a sequence and pointers are positions in it; the new limit of an account is taken from the configuration, not from the fresh counter that carries the same value.
- Attempts.AcquireResponse: queue timeouts, headers and payloads are part of the arbitrary environment.
- Requests.Inspect: `json.Valid` is a parameter that is true only for texts of the grammar, and decoding of one delimited value is an arbitrary function of its bytes.
- Requests.FlagsMean: tools and stateful compare raw spans, so a `null` with blanks behind it counts as present, as in the source.
- Rewriting.Rewrite: the quoting routine is an arbitrary function; its table is spelled out for ASCII only, since what it does to other characters depends on which of them count as printable.
- Images.VisionExact: the decoder must be right about ASCII strings without `\u` escapes and make no marker of other strings without them; about the rest it may say anything.
- Completion.Observer.Observe: trimming and JSON decoding are functions of the bytes, an event arrives decoded, choice indices are wrapped integers, and token sums are unbounded.
- Streaming.StreamResponse: write deadlines, the output metric and the first-output mark; a write and its flush succeed or fail together.
- Journal.Service.Apply: creation times are dropped, a configuration is its JSON text, encoding never fails, and writing the file succeeds as a whole or changes nothing.
- Journal.Service.Rollback: the summary text does not name the target revision.
- Journal.OpenService: opening, reading and decoding the file; a journal arrives as its list of versions.
- Vault.Store.Put: checks of reference, kind, size and login material are one flag; creation, update and last-use times and import provenance are dropped; saving succeeds as a whole or changes nothing.
- Vault.Store.BeginRefresh: waiting for a joined flight returns that flight's error and is not a step of its own.
- ByteBudget.StepKeeps: the ingress slot channel, and amounts as 64-bit words.
- Ingress.ReadDeclared: the read deadline is a number of reads after which the connection fails.
- Generations.StepKeeps: what closing a server does, and the change lock around shutdown.
