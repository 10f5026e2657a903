# PhoneBorg: a verified model

PhoneBorg turns a set of old phones into one inference cluster. A controller
decides which model every phone serves, a gateway routes chat requests to the
phones, an agent on each phone downloads and switches models, and a provisioner
sets up phones plugged in over USB. This project models the logic of those
parts in Dafny and proves what it is for.

How it is organised (one module a file):

- `Ordering`, `Text`, `Wrappers`, `Backoff` – orders, sorting, filtering,
  strings, Option, doubling waits.
- `MemPlan` – the memory search that the planner and the agent share.
- `PlannerModel`, `Planner` – the placement planner as the source's loops,
  against the function `PlanOf`. `PlannerFacts`, `PlannerSound`,
  `PlannerTells`, `PlannerStable`, `PlannerOrder` prove its laws, and
  `PlannerFlap` says exactly when plans flap. `Validation` is the check of a
  spec, `Placement` the feedback loop, the benchmark overrides and what nodes
  are told to serve.
- `Picker`, `Usage`, `Failover`, `Streams` – the gateway: session affinity, usage
  counters, the failover loop, the stream scanners.
- `ModelCache`, `NodeManager` – the agent: eviction and model switching.
- `JobNames`, `Workspace`, `Scheduler` – Super Borg jobs: document names, one
  job's workspace, the runner and its users.
- `Provisioning`, `CommandProtocol` – the provisioner's polls, the controller's
  command flags, and the protocol between them.
- `NodeRegistry`, `Pools`, `AgentSync` – node names, consistency of stored
  pools and of managed files.

Conventions. Objects that the source changes in place are classes whose methods
change fields and state the whole new state; loops carry invariants. Code that
computes a value is a function, with a method where the source computes it by
loops. The outside world is a parameter that every theorem quantifies over:
clocks (`now`), downloads and disks (`World`, `Disk`), backends and answers of
nodes (`Env`, `Outcome`), lost reports (`Fate`), the JSON reader (`parse`), the
file hash (`hash`). Numbers are exact: unbounded integers and reals.
`dafny verify dfyconfig.toml` checks the whole project.

Places where the code does less than its text suggests are stated as theorems,
with the exact condition:

- Plans can flap when the default model has a quota of its own: exactly the
  exposed ones do, and a spec can make one unless that quota is 100%
  (`PlannerFlap.FlapsExactlyWhenExposed`, `NeverFlapsExactly`).
- A phone can lose the model it serves when its id is asked for with another
  hash: the download replaces the served file before it has loaded, and the
  fallback starts what is in the file (`NodeManager.ServingSurvives`,
  `SameIdDownloadLoses`, `NeverDark`). If the settings do not fit either, the
  phone counts the new file as applied and serves the old one
  (`KeptMayBeOld`).
- Renaming a phone checks no pools, and can bring two stored pools into conflict
  (`Pools.RenamingKeeps`, `Serve`). A phone may also register under an id that
  another one has as alias (`NodeRegistry.RegisteringCanShadow`).
- A command accepted while its serial's acknowledgement is still unconfirmed
  (the response to it was lost) is cleared without being carried out
  (`CommandProtocol.NoRequestRunsTwice`, `RequestsCanBeLate`).
- A result that was numbered because of a clash and has a name of 40 letters
  cannot be looked up under its own name (`JobNames.NumberedIsFound`).
- After an accepted finish, the first finish for a later user message is accepted
  without the comparison with the goal, unless a document was saved since
  (`Workspace.SecondFinishIsUnchecked`).
- A delegated task starts before a document it needs, when its context first names
  nothing and a task of the plan has no document
  (`Workspace.UnnamedHidesLacked`).
- A request is refused as too long although a node of unknown context, which is
  never excluded for its context, is open (`Failover.UnknownContextIsRefused`).
- After a shutdown a second job can be marked running
  (`Scheduler.TwoRunningExactly`, `NextAfterShutdown`).
- The planner's estimate believes resident bytes beyond the file's size, which the
  search does not, and leaves out the tenth of the rest that the search adds
  (`PlannerSound.EstimateAgrees`).
- A phone whose served model file was deleted by somebody else stays dark
  (`NodeManager.LostFileStrands`), and pools that normPool would refuse conflict
  only in one direction (`Pools.ConflictIsSymmetric`).

## Model

| member | source | states |
|---|---|---|
| Ordering.SortIgnoresOrder | controller/models/planner.go:241 | Sorting by an order that tells the elements apart gives the same sequence for every permutation of the input. |
| Ordering.SortSorts | controller/models/planner.go:302-304 | Sorting gives a sorted permutation, so which stable algorithm is used cannot matter. |
| Ordering.CompareIsAlphabetic | controller/models/planner.go:395-407 | Ids are compared letter by letter, a prefix first. |
| MemPlan.Plan | internal/memplan/memplan.go:96-134 | The halving loop terminates and returns the first fitting entry of the ladder, or its last entry; SearchHalves says in words which that is. |
| MemPlan.Try | internal/memplan/memplan.go:105-113 | One rung tries every KV candidate in order and stops at the first fit. |
| MemPlan.FirstFitIsFirst | internal/memplan/memplan.go:105-133 | The result is a ladder entry, every earlier entry exceeds the budget, and a failure is the last entry. |
| MemPlan.LadderDescends | internal/memplan/memplan.go:115-132 | Along the ladder contexts and slots only shrink, never below min(requested, 4096) and 1, and it ends at the smallest configuration. |
| MemPlan.LastNeedsLeast | internal/memplan/memplan.go:60-78 | The smallest configuration is the last entry and needs no more memory than any other entry. |
| MemPlan.SearchIsExact | internal/memplan/memplan.go:96-134 | The search fits if and only if the smallest configuration fits; a fit is the first fitting entry; on failure Need is the least of all entries tried. |
| MemPlan.SearchHalves | internal/memplan/memplan.go:96-134 | The answer has the requested context divided by some power of two, not below 4096; every larger context of that series exceeds the budget at the requested slots with every KV type; one slot is the answer only if all of them do, and q8_0 only if f16 does not fit there. |
| MemPlan.BudgetMonotone | internal/memplan/memplan.go:96-134 | A larger budget never turns a fit into a misfit and never lowers the context or the slots. |
| MemPlan.WhatMemoryCosts | internal/memplan/memplan.go:47-68 | A slot more costs its whole context; a q8_0 cell costs 17/32 of an f16 one, rounded down. |
| PlannerModel.PercentOfInPool | controller/models/planner.go:385-390 | A percentage in (0, 100] of a non-empty pool is in 1..pool, all of it at 100%, and within half a node of the exact share. |
| PlannerModel.PreferIsTotal | controller/models/planner.go:395-407 | preferFor is a total preorder. |
| PlannerModel.PreferSeparates | controller/models/planner.go:395-407 | On nodes with unique ids preferFor never ties two nodes. |
| Planner.MakePlan | controller/models/planner.go:239-382 | The loops of Plan compute PlanOf, rows and warnings, about which the laws below are. |
| Planner.PinPolicyLoop | controller/models/planner.go:275-291 | Pins are applied node by node with their warnings. |
| Planner.QuotaStep | controller/models/planner.go:306-341 | One replicas or percent policy: pool, want, free nodes, assignment and warning. |
| Planner.FinalStep | controller/models/planner.go:350-372 | Default model, else keep, for one node. |
| Planner.NoFitReason | controller/models/planner.go:441-460 | Why no node was eligible: class, then memory, then speed. |
| PlannerFacts.PinsFacts | controller/models/planner.go:269-292 | A node is pinned exactly when a policy with a ready model names it while it is connected, and it gets that policy's row. |
| PlannerFacts.ChosenFacts | controller/models/planner.go:327-337 | A turn takes free eligible nodes, each at least as preferred as every free eligible node it leaves. |
| PlannerFacts.QuotaFacts | controller/models/planner.go:306-341 | A turn adds exactly the rows of the nodes it takes and changes no other. |
| PlannerSound.OneRowPerNode | controller/models/planner.go:346-373 | Every input node gets exactly one row, in id order. |
| PlannerSound.EveryRowEarned | controller/models/planner.go:269-376 | Every row is what its reason promises: pinned by a policy; or undrained, in the class filter, fitting and fast enough for its policy; or default; or kept. |
| PlannerSound.EligibleExactly | controller/models/planner.go:306-320 | A node may be given a model by quota if and only if it is undrained, of a class asked for, fitting, and not known to be slower than the policy's threshold, or else the spec's. |
| PlannerSound.FitsExactly | controller/models/planner.go:425-439 | On a reported budget a model fits if and only if the smallest configuration of the agent's own search does; otherwise if and only if the estimate and 2 GiB for Android fit in the RAM. |
| PlannerSound.EstimateAgrees | controller/models/planner.go:106-130 | The planner's estimate is what the agent's search needs for the planned context, up to a tenth of the weights that need not stay resident, and apart from resident bytes beyond the file's size, which only the search ignores. |
| PlannerSound.RowsAreComplete | controller/models/planner.go:250-376 | Every row of a known model, whatever its reason, says one slot of the trained context up to 16384, any KV type, the estimate and whether it fits; a row of an unknown model is one that was kept. |
| PlannerSound.PinsWin | controller/models/planner.go:269-292 | A connected node pinned to a ready model gets a pin row whatever else the spec says. |
| PlannerSound.QuotaMet | controller/models/planner.go:294-343 | A policy holds exactly min(wanted, eligible nodes still free at its turn) nodes, and they are the ones its model prefers. |
| PlannerTells.ShortfallsAreTold | controller/models/planner.go:321-341 | A replicas or percent policy of a ready model is complained about in the warnings if and only if no node was eligible or its model holds fewer nodes than it wants. |
| PlannerTells.EveryPolicyIsTold | controller/models/planner.go:259-343 | Every policy of a known mode, pin or quota, of a ready model or not, gets all it asks for (each pin connected, its own, fitting and fast enough; each quota filled from a non-empty pool) if and only if no warning names it. |
| PlannerTells.DefaultIsTold | controller/models/planner.go:350-382 | A node that is not drained and has neither pin nor quota gets the default model if and only if no warning about the default names it. |
| PlannerTells.NeverOvertaken | controller/models/planner.go:294-373 | When a policy falls short, every node it could use is pinned or held by it or an earlier turn: pins beat quotas beat default. The order among quotas is StrongerPoliciesFirst. |
| PlannerTells.StrongerPoliciesFirst | controller/models/planner.go:294-343 | Over policies and rows: when a policy falls short, every node it could use has a pin or replicas row (for a percent policy also a percent row), and one with a row of its own mode serves a model whose estimated RAM is larger, or equal with a smaller id. |
| PlannerTells.HeldArePreferable | controller/models/planner.go:395-407 | Each node a policy holds is preferable to every eligible node left to the default, its own model or nothing: it serves the model, else had it assigned, else is faster, else has more RAM, else comes first by id. |
| PlannerStable.PairStable | controller/models/planner.go:395-407 | A node that was chosen keeps being preferred over one that was not, whether or not it has switched yet. |
| PlannerStable.PlanDoesNotFlap | controller/models/planner.go:239-407 | With one quota a model and a plan that is not exposed: if each node's assigned model is fed back and any subset of assigned nodes has switched, the identical plan is made, rows and warnings. Exactly then, by PlannerFlap.FlapsExactlyWhenExposed. |
| PlannerStable.PlanIsFixedPoint | controller/models/planner.go:392-407 | Over every run of such snapshots the first plan is made at every replan, and stays unexposed. Exactly then, by PlannerFlap.RunsAreStableExactly. |
| PlannerFlap.FlapsExactlyWhenExposed | controller/models/planner.go:294-407 | Acting on a plan can change it if and only if the plan is exposed: the default model has a quota, and a node that has it as default, could take it by quota and still has to switch faces a quota node that has to switch too or loses the tie of speed, RAM and id. |
| PlannerFlap.RunsAreStableExactly | controller/models/planner.go:392-407 | The first plan is made at every replan of every run if and only if it is not exposed. |
| PlannerFlap.NeverFlapsExactly | controller/models/planner.go:294-407 | A spec of well-formed policies, one a model, flaps on no fleet at all if and only if its default model has no quota or one of 100%. |
| PlannerOrder.InputOrderIsIrrelevant | controller/models/planner.go:239-249 | Any permutation of the nodes and of the ready models gives the same plan. |
| PlannerOrder.PolicyOrderIsIrrelevant | controller/models/planner.go:269-343 | Permuting the policies gives the same rows and, up to order, the same warnings. |
| Validation.Validate | controller/models/planner.go:171-232 | No error is returned if and only if the spec is accepted: one policy a model, well-formed policies, no node pinned twice, no class over 100%. |
| Validation.AcceptedPinsOnce | controller/models/planner.go:196-205 | In an accepted spec no node is pinned by two policies nor twice by one. |
| Validation.AcceptedSpecsPlanWell | controller/models/planner.go:171-382 | For every accepted spec the rows ignore the policies' order, and a plan that is not exposed is made at every replan of every run. |
| Validation.AcceptedSpecsFlapExactly | controller/models/planner.go:171-382 | An accepted spec flaps on no fleet if and only if its default model has no quota or one of 100%. |
| Placement.WithOverrides | controller/placement.go:137-157 | The loops put one pin per override in front and strip the overridden nodes from the operator's pins. |
| Placement.OverridesWin | controller/placement.go:137-157 | Every connected overridden node with a ready override model is planned exactly that model, drained or pinned elsewhere or not. |
| Placement.OverridesLeaveOtherPins | controller/placement.go:137-157 | Every other node's pin is the same as without overrides. |
| Placement.Server.PlanInputs | controller/placement.go:226-267 | The online nodes outside Big Brains are given to the planner, in order, with the model the last plan assigned to them. |
| Placement.PlannedHaveRows | controller/placement.go:226-267 | A registered node has a row in the plan if and only if it is online and lends its RAM to no Big Brain. |
| Placement.Server.Replan | controller/placement.go:271-299 | The new plan is the planner's on the fed-back inputs, under the overrides and marked as benchmark rows while there are any. |
| Placement.Server.SetBenchmarkOverride | controller/placement.go:161-173 | Sets or clears one override and plans again: under the remaining overrides, or, when the last one is cleared, as the operator's spec says. |
| Placement.ReplanIsStable | controller/placement.go:226-299 | Replanning a fleet in which only assigned nodes switch makes the plan made before, with or without benchmark overrides, unless that plan is exposed. |
| Placement.ReplanAll | controller/placement.go:226-299 | The server does not flap: replanning at every heartbeat of a fleet that acts on the first plan makes that plan each time, unless it is exposed. |
| Placement.NodesAreTold | controller/placement.go:191-337 | After any replan a planned node is told something if and only if its row's reason is one of the five that assign and its model is in the catalog: then the row's model, context, slots and KV type with the catalog's hash, sizes and shape. A node without a row is told nothing. |
| Placement.OverrideIsTold | controller/placement.go:137-337 | An overridden node whose override is ready and in the catalog is told the override's model, drained or pinned elsewhere or not. |
| Placement.StartBenchmark | controller/placement.go:161-337 | After SetBenchmarkOverride, an online node outside Big Brains is told the benchmark's model. |
| Placement.Server.DesiredFor | controller/placement.go:318-337 | What a node is told after the last plan; one that lends its RAM is told RPC mode, whatever its row says. |
| Placement.AgentCanServeThePlan | controller/placement.go:320-337 | A node that reports a budget and has a quota or default row is told that row's model, and its agent can size it on every budget at least that large, with no smaller context. |
| Picker.LeastBy | controller/gateway/picker.go:95-106 | Scanning from start, returns the first candidate with the lexicographically smallest score, then the highest speed. |
| Picker.BestIsLeast | controller/gateway/picker.go:95-106 | What the scan minimises: the first score, among equals the second, and among equals of both it takes the highest speed. |
| Picker.EqualsTakeTurns | controller/gateway/picker.go:93-106 | Candidates that tie rotate: the scan returns the one it starts from. |
| Picker.LeastInflight.Pick | controller/gateway/picker.go:63-66 | The least busy of the coolest candidates, then the fastest. |
| Picker.Affinity.Prune | controller/gateway/picker.go:206-221 | Keeps no expired key and at most MaxKeys, and every dropped live key is at least as old as every kept one. |
| Picker.PrunedIsUnique | controller/gateway/picker.go:206-221 | When no two sessions were last used at the same time, these rules leave one outcome. |
| Picker.Affinity.Route | controller/gateway/picker.go:164-199 | A session keeps its node if and only if that node is offered, not overheated while a cooler one is, and fewer than Spill requests above the least busy; otherwise the best candidate by in-flight, large sessions of other keys and speed. |
| Picker.Affinity.Pick | controller/gateway/picker.go:157-203 | Over any history: picks a candidate, never a hot one while a cooler exists; a hit only refreshes the pin, otherwise the key is pinned to the pick; at most MaxKeys+1 keys. All of it is the predicate Picks over the sessions, limits and loads of that moment. |
| Picker.SessionSticks | controller/gateway/picker.go:176-193 | The next request of the most recently used session is a hit if and only if its pin is alive and its node may keep it. |
| Picker.NextPick | controller/gateway/picker.go:155-203 | The next request of a session, with no other one since, hits if and only if the session has not expired and its node is offered, not hot beside a cool one and within the spill limit; it then goes to that node, and among equally cool nodes only then. |
| Picker.Affinity.Pins | controller/gateway/picker.go:238-247 | The number of live sessions pinned to each node. |
| Picker.Affinity.Unpin | controller/gateway/picker.go:251-262 | Forgets exactly the sessions pinned to that node and returns how many. |
| Usage.Totals.Record | controller/usage.go:78-89 | An event counts for its key unless it is a failed attempt, and for its node; the counters stay the tally of everything recorded. |
| Usage.TallyCounts | controller/usage.go:60-89 | Requests and errors of a key or node are the numbers of its events and failures; it was last used by its last event. |
| Usage.TallySums | controller/usage.go:60-75 | Prompt, cached and completion tokens are those of the counted events, each added up. |
| Usage.AverageIsBetween | controller/usage.go:52-73 | The average generation speed lies between the slowest and the fastest reported speed. |
| Usage.RequestsAreConserved | controller/usage.go:75-89 | However the records of concurrent requests interleave, a named key's request count is the number of requests made with it. |
| Usage.AttemptsAreConserved | controller/usage.go:75-89 | However the records of concurrent requests interleave, a node's requests and errors are its attempts and failed attempts, added up over the requests. |
| Failover.FindCandidates | controller/gateway/proxy.go:774-796 | The untried backends whose context fits and that are below their limit, cooling ones only if every such one cools, in order. |
| Failover.Gateway.Forward | controller/gateway/proxy.go:563-712 | In-flight counts are restored, and an outcome is recorded exactly when it ends the request. |
| Failover.Gateway.AttemptOnce | controller/gateway/proxy.go:512-530 | Each attempt is recorded once for its node; the node cools down exactly after a retryable failure that is not a context refusal or after an aborted stream. |
| Failover.Gateway.TryNodes | controller/gateway/proxy.go:501-531 | Each attempt goes where the sessions of its moment send it among the candidates of its moment (the first candidate for a node target), the sessions are remembered, and each is recorded with their exact event; at most MaxAttempts (1 for node targets), all but an answering last one retried; exhausted only when no attempt or candidate is left. |
| Failover.Gateway.Serve | controller/gateway/proxy.go:440-538 | Every request is accounted exactly once, routed and retried as TryNodes says, refused exactly for the stated reasons and codes, and leaves the in-flight counts as they were. |
| Failover.ServeTwice | controller/gateway/proxy.go:500-531 | Two served requests of one session: the second one's first attempt hits if and only if the session is alive and the node of the first one's last attempt is offered and may keep it, and then goes to it. |
| Failover.FailuresAreRetried | controller/gateway/proxy.go:501-537 | Every attempt but the last failed; the last one failed if and only if the reply is 502, which needs all attempts or all candidates to be used up; anything else is the answer. |
| Failover.AccountedOnce | controller/gateway/proxy.go:517-537 | A served request has one outcome for its key however many nodes failed on it. |
| Failover.AttemptsCount | controller/gateway/proxy.go:517-537 | A node's recorded events are its attempts; a refusal counts for no node. |
| Failover.NoNodeTwice | controller/gateway/proxy.go:500-512 | No node is attempted twice for one request. |
| Failover.AttemptsAreAllowed | controller/gateway/proxy.go:445-531 | Each attempt goes to a ready node the target allows, one that can call tools if the call has some and any such node can, with a context large enough or unknown, below its limit, not attempted yet, and marked down only if every such node is. |
| Failover.BrokenNodesCoolDown | controller/gateway/proxy.go:516-523 | A request marks down exactly the nodes that were not reached, did not answer a waiting client, answered with a server error or broke off, each for the pause from the end of its attempt; a too small context marks none. |
| Failover.ServeAll | controller/gateway/proxy.go:440-538 | Over any sequence of requests each named key's count grows by its requests and each node's by its attempts. |
| Failover.MaxContext | controller/gateway/proxy.go:315-323 | The largest known context, or 0. |
| Failover.ContextCheck | controller/gateway/proxy.go:479-487 | With some context known, the check passes if and only if some known context is large enough. |
| Failover.UnknownContextIsRefused | controller/gateway/proxy.go:479-487 | A request is refused as too long although a node would be offered, if and only if some context is known, an open node's is not, and every known one is below the estimate. |
| Streams.CountFindsAll | controller/gateway/proxy.go:892-903 | A left-to-right count of the marker finds every occurrence, because the marker does not overlap itself. |
| Streams.HeadAndBody | controller/gateway/proxy.go:892-903 | Counting the seam and the new piece separately misses no occurrence and counts none twice. |
| Streams.CountStream | controller/gateway/proxy.go:885-903 | For every way of cutting a stream, sseCounter ends with the number of occurrences in the whole of it. |
| Streams.TailOfStream | controller/gateway/proxy.go:869-881 | For every way of cutting a stream, tailBuffer holds its last min(max, length) bytes. |
| Streams.LinesAreFaithful | controller/gateway/superborg.go:426-445 | Lines and remainder joined by newlines give the stream back, and contain no newline. |
| Streams.CollectStream | controller/gateway/superborg.go:426-499 | For every way of cutting a stream, sseCollector handles the lines of the whole of it and keeps its unfinished last line; its text is that of the stream's events, and its calls are assembled from all their deltas. |
| Streams.CallsAreAssembled | controller/gateway/superborg.go:483-498 | However the deltas of different calls interleave: the calls are listed in order of first appearance, and each has its last non-empty id, and its names and arguments concatenated in order. |
| Streams.FirstSeenIs | controller/gateway/superborg.go:483-492 | That order in words: every index that appears once, and of two the one whose first delta comes first. |
| Streams.JoinedId | controller/gateway/superborg.go:493-495 | A call's id is that of its last delta with an id. |
| ModelCache.EvictLRU | node-agent/download.go:199-245 | Removes evictable models, oldest first, no more than needed; on failure nothing removable is left. |
| ModelCache.KeptFilesStay | node-agent/download.go:199-245 | Neither the served model's file nor the destination nor a file elsewhere is ever removed. |
| NodeManager.Manager.Start | node-agent/manager.go:443-448 | A server is only started while no other one runs, so at most one inference server is alive. |
| NodeManager.Manager.SetDesired | node-agent/manager.go:155-170 | Only the latest request is kept; nil is ignored outside RPC mode and releases it inside. |
| NodeManager.FailuresBackOff | node-agent/manager.go:379-392 | k failures of one desired state in a row hold it back for min(30 s doubled k-1 times, 10 min) after the last; a tenth more budget ends that early. |
| NodeManager.RepeatsAreSpaced | node-agent/manager.go:236-252 | However often the controller repeats a failing desired state: after k failures the next repetition is an attempt if and only if that time has passed since the last failure or the budget has grown by more than a tenth. |
| NodeManager.LoadsTheLargest | node-agent/manager.go:292-335 | A model is loaded with the largest context of the requested one, its half, its quarter, … that fits in the budget, with fewer slots only if none fits with all; it is refused as too big if and only if the smallest configuration does not fit. |
| NodeManager.Manager.Load | node-agent/manager.go:434-488 | Stops the old server and starts the new one; if that is not healthy the previous configuration is back, if its file exists, on the content the file has now. |
| NodeManager.Manager.Switch | node-agent/manager.go:236-335 | What each outcome of a reconcile requires and does: file fetched or cached, eviction only for room, sizing, the runtime, the error and the backoff. |
| NodeManager.Manager.Reconcile | node-agent/manager.go:225-335 | Any request is one step of the protocol that the run theorems speak of. |
| NodeManager.ServingSurvives | node-agent/manager.go:241-335 | After any failed reconcile the phone runs the configuration it ran, if its file was on disk; the file has its content if and only if no download overwrote it, and the server unless the failure was to load such a download. |
| NodeManager.SameIdDownloadLoses | node-agent/manager.go:267-289 | The family of inputs that loses a served model: its own id asked for with another hash, a download that works and a file that does not load. |
| NodeManager.KeptMayBeOld | node-agent/manager.go:303-316 | A running model kept because the settings do not fit counts as applied; its server runs the wanted content if and only if no download just replaced the file. |
| NodeManager.LostFileStrands | node-agent/manager.go:241-244 | After a failed load, asking for the previously served model again is skipped; it runs if and only if its file is on disk. |
| NodeManager.NeverDark | node-agent/manager.go:225-594 | Through any requests, failed downloads, evictions, failed loads and RPC pools, a phone that serves a model stays up on content that loaded well, if and only if no request overwrote the served file by a download that was not loaded well. |
| NodeManager.LosesInSomeWorld | node-agent/manager.go:241-335 | What can be checked beforehand: some world loses the served model if and only if its own id is asked for with another, well-formed hash. |
| NodeManager.Run | node-agent/manager.go:117-148 | The manager's own life, from the static model through any requests, is such a run. |
| NodeManager.Manager.EnterRPC | node-agent/manager.go:521-565 | Replaces the server by the RPC server and remembers, once, what served before; without the binary only the error changes. |
| NodeManager.Manager.LeaveRPC | node-agent/manager.go:569-594 | Restarts what served before RPC mode with its bookkeeping, or nothing. |
| NodeManager.BracketRestores | node-agent/manager.go:521-594 | After any sequence of RPC pools, leaving gives back configuration, model, resident bytes and last applied state, or nothing if nothing ran. |
| JobNames.DocNameTwice | controller/gateway/jobs.go:1097-1104 | Normalising a normalised name changes nothing, so a stored document is found under its name. |
| JobNames.CaseIsIgnored | controller/gateway/jobs.go:1097-1104 | A document is found in any capitalisation of its name. |
| JobNames.FirstFree | controller/gateway/jobs.go:734-738 | The numbering loop ends, at the first name of base, base_2, base_3, … that no earlier task has. |
| JobNames.DigitsAreDecimal | controller/gateway/jobs.go:734-738 | The number in a numbered name reads back as that number. |
| JobNames.NumberedIsFound | controller/gateway/jobs.go:734-738 | A numbered name is found again if and only if it has at most 40 letters; with a 40-letter base the base document is found instead. |
| Workspace.Job.PutDoc | controller/gateway/jobs.go:823-837 | Replaces or appends the document, completes exactly the tasks that produce it and asks for the goal check again. |
| Workspace.Job.Log | controller/gateway/jobs.go:840-850 | The log holds the last 500 of all events ever logged, unchanged; events are numbered consecutively, and one more is this one. |
| Workspace.Job.Record | controller/gateway/jobs.go:573-584 | The last 6 of all steps ever made are kept, unchanged, with their calls and replies; steps are numbered consecutively. |
| Workspace.Job.DoPlanTasks | controller/gateway/jobs.go:614-650 | Finished tasks stay; each new one is added unless it has no title or its document already has a task; ids are 1..n. |
| Workspace.PlannedKeeps | controller/gateway/jobs.go:624-645 | No document gets two tasks, and every titled task with a document is covered. |
| Workspace.NewPlanKeeps | controller/gateway/jobs.go:624-645 | Ids stay 1..n, task documents unique, and every done task's document exists. |
| Workspace.Job.DoFinish | controller/gateway/jobs.go:668-685 | A finish is accepted if and only if one was refused before and no document was saved since. |
| Workspace.WasAskedMeans | controller/gateway/jobs.go:668-685 | The finish flag means: a refused finish with no saved document after it. |
| Workspace.SecondFinishIsUnchecked | controller/gateway/jobs.go:668-685 | After an accepted finish and anything but a refused one, the next finish is accepted at once if and only if no document was saved since. |
| Workspace.Job.Assign | controller/gateway/jobs.go:721-748 | Each task is matched with the first document of its context that is still to be written, in context order; it starts if that has no name or there is none, under a name no earlier task of the call has. |
| Workspace.Job.DoDelegate | controller/gateway/jobs.go:705-781 | Whatever the order of the answers, each started task's answer is in a document of its own when delegate returns, and each other task is told the first document it lacks. |
| Workspace.Job.MissingContext | controller/gateway/jobs.go:785-793 | The first context document that a task produces and that does not exist yet, in context order, or nothing if there is none. |
| Workspace.UnnamedHidesLacked | controller/gateway/jobs.go:721-793 | A task starts although a named document it needs is still to be written, if and only if the first lacked entry of its context has no letters, and a task without a document makes that one lacked. |
| Workspace.Job.RunStep | controller/gateway/jobs.go:530-570 | Every handled call is one step that does what DoTool says of its tool, unless it repeats the step before; every invariant of the workspace survives any calls with any arguments; the job ends only by an accepted finish, and waits after three answers without a call. |
| Workspace.Job.DoTool | controller/gateway/jobs.go:598-692 | One clause per tool: what plan_tasks, write_doc, read_doc, ask_user, finish and delegate reply and make of status, tasks, documents, result and marks, and that everything else stays. |
| Workspace.RepeatsAreRefused | controller/gateway/jobs.go:553-593 | A call that repeats the one before it is refused and does nothing, unless it is a finish. |
| Workspace.LastWriteStays | controller/gateway/jobs.go:530-655 | After any handled calls, the text of the last accepted write_doc of a name is what is found under it, unless a later delegate wrote that name. |
| Workspace.Job.Say | controller/gateway/jobs.go:297-317 | A message is kept, and a job that is not running is queued again. |
| Scheduler.Jobs.constructor | controller/gateway/jobs.go:164-188 | Whatever was saved, loaded jobs that were running are queued again. |
| Scheduler.Jobs.Next | controller/gateway/jobs.go:216-229 | The oldest queued job, if any. |
| Scheduler.Jobs.StepFailed | controller/gateway/jobs.go:416-449 | A wrong pool makes the job wait, five errors in a row make it fail, a missing node does not count. |
| Scheduler.Drive | controller/gateway/jobs.go:161-457 | Through any interleaving of create, say, cancel, delete, shutdown and the runner, after loading any saved jobs: while the controller lives, the only stored job marked running is the runner's. |
| Scheduler.RunOut | controller/gateway/jobs.go:385-457 | Every run ends after at most 80 step attempts with its job no longer running, whatever users do meanwhile. |
| Scheduler.TwoRunningExactly | controller/gateway/jobs.go:194-206 | Two stored jobs are ever marked running at once if and only if a run began while another stored job was marked running, which never happens while the controller lives. |
| Scheduler.NextAfterShutdown | controller/gateway/jobs.go:194-229 | After a shutdown, an idle runner with a job still marked running and another one queued marks a second one with its next two moves. |
| Provisioning.BackoffDoubles | provisioner/devices.go:27-42 | k failures in a row wait min(30 s doubled k-1 times, 600 s), and until then only a command attempts the device. |
| Provisioning.WhenAttempted | provisioner/devices.go:93-108 | An unambiguous device is attempted if and only if it is commanded, or not provisioned, past its wait and automatic provisioning is on; a provisioned one is left alone. |
| Provisioning.ProvisionedForGood | provisioner/devices.go:93-108 | After one success only commands attempt a device, whatever becomes of later attempts. |
| Provisioning.DuplicateSerials | provisioner/devices.go:54-68 | A serial is a duplicate if and only if two attached devices report it. |
| Provisioning.Watcher.HandleDevice | provisioner/provision.go:288-333 | A command for a ready device is consumed by being run or, for an ambiguous or junk serial, refused. |
| Provisioning.Watcher.Poll | provisioner/provision.go:265-344 | A poll consumes exactly the commands of ready devices and makes one forced attempt for each that may run. |
| Provisioning.Watcher.Report | provisioner/provision.go:346-375 | Acknowledgements are forgotten only when the response arrives; the answer's commands are added. |
| Provisioning.Controller.HandleReport | controller/devices.go:135-157 | Acknowledged commands are cleared and every remaining one is answered, once. |
| CommandProtocol.NoRequestRunsTwice | provisioner/provision.go:291-375 | Over every interleaving and loss: no accepted request is carried out twice, a flag is cleared only after a run or refusal of its serial, and a cleared request was itself carried out if and only if it was not accepted while its serial waited to be acknowledged. |
| CommandProtocol.LateMeansAckOutstanding | controller/devices.go:162-166 | The next request is of that kind if and only if the last acknowledgement is unconfirmed. |
| CommandProtocol.LateRequestIsDropped | controller/devices.go:135-157 | The next report that arrives drops such a request. |
| CommandProtocol.RequestsCanBeLate | controller/devices.go:135-166 | Runs with such a request, for every serial that a poll finds ready. |
| CommandProtocol.Drive | provisioner/provision.go:241-391 | The watcher and the controller go through exactly the states of the protocol. |
| Pools.NormPool | controller/pools.go:204-261 | The loops accept and normalise exactly as Norm. |
| Pools.AcceptedExactly | controller/pools.go:204-261 | A pool is accepted if and only if its name is well formed, no entry is blank, its classes and routing are known and its speed is not negative; a Big Brain moreover needs a model, two nodes that differ after trimming, no other restriction and a context of 512 to 131072, if any. |
| Pools.NormTwice | controller/pools.go:172-201 | A stored pool is accepted unchanged when the routing file is loaded. |
| Pools.PoolConflict | controller/pools.go:431-474 | Reports a conflicting pool if and only if there is one. |
| Pools.ConflictIsSymmetric | controller/pools.go:431-474 | Both pools see the same conflict, except exactly between a Big Brain pool and another kind that both claim a node and share no model. |
| Pools.UnnormalisedIsAsymmetric | controller/pools.go:439-455 | A concrete such pair, with a pool that normPool refuses. |
| Pools.Store.SetPool | controller/pools.go:658-700 | Stores a valid pool that conflicts with no stored one, and otherwise changes nothing. |
| Pools.Serve | controller/pools.go:610-726 | Every sequence of pool, alias and node requests keeps all enabled pools pairwise conflict-free at every moment, if and only if no renaming that was made opened a conflict. |
| Pools.NoPhoneIsTornApart | controller/pools.go:426-430 | No node is in two enabled Big Brain pools, and a node of two enabled pools with model lists has a model for both. |
| Pools.RenamingKeeps | controller/pools.go:610-648 | After a node gets a free alias, or loses its alias, consistent pools stay consistent if and only if no two rival pools have, one the new alias and the other the node's id, or one the old alias and the other the alias of the node of that id. |
| Pools.RenamingCanConflict | controller/pools.go:610-648 | Such renamings are accepted: any two stored Big Brain pools without a common name, one with a phone's id and the other with a name nobody has yet. |
| NodeRegistry.Registry.SetAlias | controller/registry.go:200-226 | Sets, changes or clears an alias, or refuses: unknown node, invalid alias, another node's alias or id. Aliases stay unique. |
| NodeRegistry.RenamedId | controller/registry.go:200-265 | A renaming changes what the new and the old alias resolve to, and no other name. |
| NodeRegistry.RoutesKeepTheirNames | controller/registry.go:187-226 | A new alias is neither auto nor starts with pool, and consists of at most 32 lower-case letters, digits and dashes, no dash first. |
| NodeRegistry.Registry.Lookup | controller/registry.go:253-265 | A name resolves to the one node with that alias, else to itself. |
| NodeRegistry.RegisteringCanShadow | controller/registry.go:58-72 | That no alias is another node's id survives a registration if and only if no other node has that id as alias. |
| AgentSync.Project.SyncOne | controller/cmd/pbctl/opencode.go:1016-1047 | One wanted file is added, kept, left because it was edited, or updated. |
| AgentSync.Project.Sync | controller/cmd/pbctl/opencode.go:1008-1079 | Every path is settled and reported as it should be; a failed sync has settled some paths and left the others alone. |
| AgentSync.SyncTwice | controller/cmd/pbctl/opencode.go:1004-1007 | A second sync with the same specs adds, updates and removes nothing and changes no file and no manifest entry. |
| AgentSync.SyncRespectsEdits | controller/cmd/pbctl/opencode.go:1030-1047 | No tracked file whose hash differs from the manifest is overwritten or deleted, even by a failing sync; every other wanted file ends equal to its rendering. |
| AgentSync.UnwantedAreRemoved | controller/cmd/pbctl/opencode.go:1050-1072 | After a successful sync an unwanted tracked file of the agent directory is gone from disk and manifest unless it was edited; every other unwanted path is as before. |
| AgentSync.UntrackedIsOverwritten | controller/cmd/pbctl/opencode.go:1034-1046 | A file under a wanted name that was never tracked is overwritten. |
| AgentSync.ManagedNamesDiffer | controller/cmd/pbctl/opencode.go:841-906 | The managed agents' files have distinct names if and only if the phones' aliases are distinct. |
| AgentSync.NameGivesTarget | controller/cmd/pbctl/opencode.go:908-918 | The name of a managed agent's file gives back the target the agent was written for. |
| AgentSync.SyncManaged | controller/cmd/pbctl/opencode.go:893-1079 | So what pbctl syncs, for phones with distinct aliases, settles every path as above. |

## Left out

- HTTP handlers, authentication, JSON, metrics, logging, file persistence and atomic renames: plumbing; stores are in-memory maps and the saves that matter are parameters.
- adb, process launching, GGUF files, the llama and RPC servers: their outcomes are parameters.
- 64-bit overflow of byte counts and binary rounding of speeds, percentages and `0.10 * sparse`: arithmetic is exact; the sparse allowance is the tenth rounded down.
- Strings are sequences of characters: bytes and UTF-8 coincide only for ASCII; trimming, case folding and docName are modelled for ASCII.
- The wording of warnings, errors and events: warnings are data (`Warning`), replies and events are kinds with their names.
- Planner.MakePlan: requires policies without a negative replica count, which Validate refuses; the source slices out of range on one.
- Placement.Server.PlanInputs: how a node's state, its Big Brain and the catalog's ready models come about is not modelled; they are parameters.
- Validation.Validate: requires that the catalog has no model with an empty id.
- Picker.Affinity.Pick: time is a number handed in; SetSpill and the decision counters are not modelled.
- Failover.Gateway.Serve: requests are served one after another, with the affinity picker; concurrent records are covered by Usage.RequestsAreConserved and AttemptsAreConserved, concurrent in-flight limits are not. Target.allows, disabled pools and the Super Borg branch of ServeChat are not modelled.
- Streams.CollectStream: JSON reading is the parameter `parse`; relaying text to a client, error bodies and non-stream bodies are not modelled.
- NodeManager.NeverDark: assumes non-empty model ids and that only the agent writes or deletes model files; LostFileStrands says what happens otherwise. A content is told apart by its SHA-256. Partial downloads, the hash cache, a crashed server's restart, the RPC tensor cache, the RAM estimate and the status report are not modelled.
- Workspace.Job.DoDelegate: which worker gets which task (fastestFree), the plan's language, the texts of prompts and previews, and user requests that arrive while workers answer are not modelled here.
- Scheduler.Drive: a cancelled job may still be set to waiting or done by a step that is already past its orchestrator call, as in the source; nothing is claimed about that.
- Provisioning.Watcher.Poll: healing of links, hints and the choice of when to report are not modelled; a poll without a report is one followed by no report.
- CommandProtocol.NoRequestRunsTwice: one provisioner host; HTTP delivery that is delayed or duplicated, and restarts of either side, are not modelled.
- Pools.Serve: the routing file (loading a file edited by hand may repeat an alias), pool members, statuses and the replan after a Big Brain change are not modelled; external node names are a parameter.
- AgentSync.Project.Sync: requires specs with distinct names, which ManagedNamesDiffer shows for the specs that pbctl makes; rendering of agent files is a parameter, and their descriptions and bodies, the instructions file and the provider block are not modelled.
- The registry's node states, the semantic router, the web panel, the command line and the Super Borg chat loop: user interface, network clients or code whose quality depends on model output.
