# Verified model of the RKNnoVPN daemon core

This project models the parts of the RKNnoVPN daemon in which state, order and failure interact: the stored
profile document and its imports, the runtime orchestrator, the recovery gate and the rescue strategies, the life of
the proxy core with its packet rules, the compiler from nodes to the core's outbound graph, and the resolution of
packages to UIDs. It states what each operation does and proves what the operations keep together, for every input and
every run.

Code that updates things step by step is written as methods with loops and as classes, each proved against a
specification function; what the daemon promises is then proved about those functions. What the daemon gets from outside
(processes, scripts, the network, the clock) is a parameter: every theorem holds for whatever the outside does.

- `Basics`: the types that several components share.
- `Text`, `ProfileModel`, `FreshIds`, `NodeMerge`, `ProviderOrder`, `SubscriptionRefresh`, `ProfileNormalization`,
  `ConfigProjection`, `ProfileEdits`: the profile document. `NodeMergeFacts`, `RefreshFacts`, `RefreshTheorems`, `RefreshAgain`,
  `RefreshDocument`, `NormalizationFacts` and `AppliedTrips` hold the theorems about what the operations keep.
- `MergeFields`, `RefreshFields`, `EditOutcomes`, `NormalForm`, `AppliedConfig`: what each of these operations leaves, place by
  place and field by field.
- `Orchestration`: the orchestrator's critical sections as a class. `OrchestrationRuns`: all their interleavings, the
  invariant, and the sequential run that every interleaving amounts to. `OperationEndings`: what every accepted operation
  ends with, whatever happens in between.
- `RecoveryGate`, `Rescue`, `HealthMonitor`: which recoveries may run, in what order, and what sets them off.
  `RescueOutcomes`: how each attempt ends.
- `NetstackRules`, `CoreLifecycle`, `CoreRuns`: the rule scripts as one transaction, starting, stopping and hot-swapping
  the core with rollback, and what every run of them keeps. `CoreOutcomes`: how each of them ends, told from what its
  stages met.
- `OutboundGraph`, `GraphFacts`, `GroupNaming`, `TagFacts`, `RouteFacts`, `RouteNames`, `SelectorSwitch`: the outbound graph, its
  closedness and acyclicity, when group tags and all tags are distinct, when every name leads to an outbound and to which
  one, and the selector switch that replaces a rendering. `GraphNodes`, `GroupMembers`, `SwitchOutcomes`: what the graph
  holds and when the selector is switched, told from the stored nodes.
- `PackageUids`: asking sources one after the other against asking all of them. `ResolvedUids`: what a resolution holds and
  which one is chosen.
- `Counterexamples`, `RuntimeCounterexamples`: concrete inputs at which a promise fails as it is usually put.

## What the proofs found

Where a promise does not hold as it is usually put, the model keeps the code as it is, states the exact condition, and
shows an input at which the promise fails.

- A provider key with a bar in it can claim another provider's node: the match key is a plain concatenation.
  `RefreshTheorems.RefreshLeavesOthersIff` gives the exact condition, `ProfileModel.PlainProvidersSeparate` one that is
  easy to check, `Counterexamples.BarredProviderIsTakenOver` the input.
- A refresh is idempotent exactly when what is new comes with trimmed names and groups and no bystander under a key of the
  feed stands behind the provider's nodes (`RefreshAgain.RefreshIsIdempotentIff`,
  `Counterexamples.UntrimmedNameSettlesLate`, `Counterexamples.BystanderIsTakenOverLater`).
- Reordering loses the earlier of two provider nodes that share a key (`ProviderOrder.ReorderPermutesIff`,
  `Counterexamples.SharedLinkLosesANode`).
- A subscription node without a link keeps its match key on import exactly when its ID was free
  (`RefreshDocument.LinklessKeepsKeyIff`, `Counterexamples.LinklessNodeChangesKey`).
- A document survives the trip through a configuration exactly when its schema is the current one, its mode is one of the
  five, its rules are plain, its IPv6 mode is in upper case and its check URL is trimmed
  (`ConfigProjection.DocumentRoundTripIff`, `Counterexamples.UnknownModeIsLost`).
- An upsert can leave the active node stale (`ProfileEdits.UpsertKeepsIff`, `Counterexamples.UpsertTurnsActiveStale`), and
  a runtime intent can activate a node that is not there (`Counterexamples.IntentActivatesNobody`); every other edit, subscription refreshes included, keeps the
  active node live (`ProfileEdits.EditKeepsIff`).
- A reported HEALTHY phase can stand for a runtime that is not operational (`Orchestration.HealthyPhaseIff`,
  `RuntimeCounterexamples.UnknownCodeIsShownHealthy`).
- A missing stop script counts as a clean stop although its rules stay (`CoreRuns.CleanStopLeavesNothing`,
  `RuntimeCounterexamples.MissingScriptLeavesRules`).
- Group tags are distinct exactly when no group comes whose sanitised name and that name with `-2` are both taken
  (`GroupNaming.GroupTagsDifferIff`); three groups that sanitise alike always clash (`GroupNaming.ThreeAlikeShareATag`).
- All emitted tags are distinct exactly when the node tags are, no group clashes and no group is called like another one
  with an automatic choice and `-auto` (`TagFacts.OutboundTagsDifferIff`); two node IDs that sanitise alike share a tag
  (`RuntimeCounterexamples.AlikeIdsShareATag`).
- A package can be routed to a group whose outbound is not emitted, because the group's only nodes are inactive XHTTP
  nodes (`RouteFacts.ReferencesLeadByBasesIff`, `RuntimeCounterexamples.InactiveXhttpGroupDangles`).
- Worse, it can then reach another group: routes count bases among the usable nodes, outbounds among those that render, and
  a package routed to group `a` can be served by the nodes of group `a!` (`RouteFacts.RouteReachesIff`,
  `RuntimeCounterexamples.AlikeGroupTakesOver`). No route strays when no two groups sanitise alike
  (`RouteFacts.RoutesStayHome`); where they do so in pairs at most, the names and the order of the groups decide
  (`RouteNames.RouteReachesByNames`).
- The selector switch is taken in cases where it does not give what would be rendered: the old active ID is empty or
  unknown and the first usable node is an XHTTP node, fewer than two nodes render, or the new ID has white space around it,
  which the decision trims and the renderer does not (`SelectorSwitch.SwitchSufficesIff`,
  `RuntimeCounterexamples.SwitchFromBlankFallsShort`).
- Under the daemon's own gate, a full restart never starts the core again (`Rescue.FullRestartOnlyStops`).
- With the health monitor as the only trigger, a failed strategy is never followed by the next one: the core is then
  degraded, and a degraded core gives no further signal until its checks pass, which resets the count
  (`HealthMonitor.EscalationNeedsSuccess`, `HealthMonitor.FailedRescueIsTheLast`).
- Stopping early and asking every UID source can differ when nothing is requested by name
  (`PackageUids.LazyRunIsEagerIff`, `RuntimeCounterexamples.LazyMissesTheLargerSource`).

## Model

| member | source | states |
|---|---|---|
| ProfileModel.LinkedKey | daemon/internal/profile/profile.go:718-739 | A linked subscription node is recognised by its provider and its link alone, whatever else about it changes. |
| ProfileModel.KeyMeans | daemon/internal/profile/profile.go:718-739 | Every node's key: by link for a linked subscription node, else by ID, else by protocol, server and port, and none if a server or a port is missing. |
| ProfileModel.ProviderMeans | daemon/internal/subscription/merge.go:121-123 | A provider's nodes are those of subscription kind, in whatever case, under exactly its key. |
| ProfileModel.PlainProvidersSeparate | daemon/internal/profile/profile.go:718-739 | Providers whose keys hold no bar never claim each other's linked nodes, and a linked node is never taken for a manual one. |
| FreshIds.SuffixHasFiveDigits | daemon/internal/subscription/parse.go:623-629 | The stable suffix of any seed has exactly five digits and denotes the checksum, which stays below 100000. |
| FreshIds.StableSuffix | daemon/internal/profile/profile.go:457-473 | The rolling-checksum loop computes the zero-filled suffix of the seed. |
| FreshIds.FirstFree | daemon/internal/profile/profile.go:447-455 | The numbered search ends, because candidates never repeat and the used IDs are finitely many, and it returns the first free candidate. |
| FreshIds.SearchFree | daemon/internal/profile/profile.go:441-455 | The search loop returns the suffixed base if that is free and its first free numbering otherwise. |
| FreshIds.ImportedId | daemon/internal/profile/profile.go:441-455 | An imported node gets a non-blank ID that nobody uses, and its own ID if that was free. |
| FreshIds.UniqueImportedNodeID | daemon/internal/profile/profile.go:441-455 | The allocation method returns the ID that the specification names. |
| FreshIds.ChecksumIsRemainder | daemon/internal/profile/profile.go:457-473 | The rolling checksum is the seed, read as a number in base 31, modulo 100000. |
| FreshIds.ImportedMeans | daemon/internal/profile/profile.go:441-473 | An imported node's ID is its trimmed one, or `node`, if that is free; else that with the five digits of its parts; else the first free numbering of these from two on. |
| FreshIds.UniquifyParsedNodeIDs | daemon/internal/subscription/parse.go:63-89 | The parser's pass rewrites the array in place into the uniquified list. |
| FreshIds.UniquifiedIsUnique | daemon/internal/subscription/parse.go:63-89 | After the pass no two nodes share an ID, only IDs have changed, and only those of nodes whose ID was already taken. |
| FreshIds.ParsedMeans | daemon/internal/subscription/parse.go:63-89 | The pass leaves a blank or free ID alone and puts the first free variant, made of the node's parts, in the place of a taken one. |
| NodeMerge.MergeNodes | daemon/internal/profile/profile.go:381-439 | The merge loop computes the merged document and the counts of added, updated and unchanged nodes. |
| NodeMergeFacts.MergeKeepsIdsApart | daemon/internal/profile/profile.go:381-455 | The merged list is free of shared IDs exactly when the stored list was, whatever comes in. |
| NodeMergeFacts.MergeConserves | daemon/internal/profile/profile.go:394-431 | Every distinct incoming key is counted once, and the list grows by exactly the nodes counted as added. |
| NodeMergeFacts.MergeShape | daemon/internal/profile/profile.go:394-431 | What every place of the merged list holds, whatever is stored and comes in: the last stored holder of an incoming key is updated from the first node under it, every other stored node is untouched, and the new keys are appended under fresh IDs. |
| MergeFields.MatchedPlace | daemon/internal/profile/profile.go:394-431 | A stored node that an incoming one matches keeps its ID, its creation time and, unless blank, its name and group; everything else is the incoming node's. |
| MergeFields.UntouchedPlace | daemon/internal/profile/profile.go:394-431 | Every stored node that is not the last holder of an incoming key stays as it was. |
| MergeFields.AddedPlace | daemon/internal/profile/profile.go:416-431 | Every first incoming node under a key that is not stored is appended in its turn, with everything but its ID as it came. |
| MergeFields.AddedId | daemon/internal/profile/profile.go:416-455 | An appended node keeps its trimmed ID exactly if it has one that nothing before it in the merged list uses. |
| MergeFields.CountsMean | daemon/internal/profile/profile.go:394-431 | What the counts of added, updated and unchanged nodes count: keys of the feed that are new, whose outbound changed, and whose outbound did not. |
| MergeFields.FirstLivePicked | daemon/internal/profile/profile.go:394-439 | A merge activates the node that the first live incoming node ended up in. |
| MergeFields.MergedActivates | daemon/internal/profile/profile.go:432-439 | Without a live incoming node the active node stays if it is live, and the first live node takes over otherwise. |
| ProviderOrder.OrderedNodeMatchKeys | daemon/internal/subscription/merge.go:48-60 | The distinct non-blank match keys in the order of first occurrence. |
| ProviderOrder.ReorderProviderNodes | daemon/internal/subscription/merge.go:62-103 | The reordering loops compute the specified list. |
| ProviderOrder.ReplaceProviderNodes | daemon/internal/subscription/merge.go:105-119 | The given block takes the place of the provider's nodes at the first of them. |
| ProviderOrder.ReorderIsIdempotent | daemon/internal/subscription/merge.go:62-119 | The provider's nodes form one block at the first provider position, all others keep their order, and a second reordering changes nothing. |
| ProviderOrder.BlockPermutesIff | daemon/internal/subscription/merge.go:62-103 | The ordered block holds each provider node as often as before exactly when no two share a key that the order names. |
| ProviderOrder.ReorderPermutesIff | daemon/internal/subscription/merge.go:62-119 | Reordering is a permutation of the whole list under exactly that condition; otherwise it loses a node. |
| SubscriptionRefresh.MarkGone | daemon/internal/subscription/merge.go:24-35 | Marks as stale exactly the provider's nodes whose key did not come in, and counts those that were live. |
| SubscriptionRefresh.MergeSubscriptionNodes | daemon/internal/subscription/merge.go:9-46 | The refresh computes the refreshed document and counts, and tags the caller's incoming nodes in place. |
| RefreshTheorems.RefreshLiveKeys | daemon/internal/subscription/merge.go:21-41 | After a refresh with a linked, live feed the provider's live keys are exactly the feed's, whatever was stored, repeated keys included. |
| RefreshTheorems.RefreshKeepsAbsent | daemon/internal/subscription/merge.go:24-35 | Whatever is stored and comes in, every node of the provider whose key did not come in is kept, as stale. |
| RefreshTheorems.RefreshLeavesOthersIff | daemon/internal/subscription/merge.go:9-46 | All nodes outside the provider stay as they were and in order, exactly when none of them is the one that a key of the feed is matched with. |
| RefreshTheorems.SeparatedByKeys | daemon/internal/subscription/merge.go:9-46 | With distinct stored keys that condition says that no node outside the provider has a key of the feed. |
| RefreshTheorems.RefreshStaleCount | daemon/internal/subscription/merge.go:24-36 | With a linked feed the stale count is the number of the provider's stored live nodes that did not come in again. |
| RefreshTheorems.RefreshKeepsIdsApart | daemon/internal/subscription/merge.go:9-46 | A refresh keeps the IDs of the document distinct, whatever comes in. |
| RefreshTheorems.RepairedActiveIsLive | daemon/internal/subscription/merge.go:38-44 | The repaired active node is live, or blank when no node is. |
| RefreshFields.RefreshedProvider | daemon/internal/subscription/merge.go:9-103 | After a refresh with a linked feed the provider's nodes stand in the order of the feed, each stored one as it takes the feed's node in, each new one as it came. |
| RefreshFields.RefreshedLeftBehind | daemon/internal/subscription/merge.go:24-103 | After them come exactly the provider's stored nodes that did not come in again, in their order, as stale. |
| RefreshFields.RefreshTags | daemon/internal/subscription/merge.go:9-46 | A refresh works on the incoming nodes under the subscription's trimmed key and URL, touches nothing but nodes and active ID, and changes nothing for a blank key. |
| RefreshAgain.RefreshIsIdempotentIff | daemon/internal/subscription/merge.go:9-46 | A second refresh with the same linked feed gives the same document exactly when what is new comes with trimmed names and groups, and no node outside the provider that answers to a key of the feed stands behind the provider's; then nothing is added, updated or newly stale. |
| RefreshAgain.RefreshIsIdempotent | daemon/internal/subscription/merge.go:9-46 | In particular with distinct stored keys and a feed of trimmed names and groups. |
| RefreshAgain.RefreshedHolder | daemon/internal/subscription/merge.go:24-46 | Under each key of a linked feed, the provider's last node after a refresh is the very node that the merge left there. |
| RefreshDocument.RefreshOutcome | daemon/internal/subscription/merge.go:9-46 | The whole effect of a refresh with a linked, live feed at once, for every document: live keys, absent nodes, frame, counts, size, IDs, active node, and no other field touched. |
| RefreshDocument.LinklessKeepsKeyIff | daemon/internal/profile/profile.go:416-424 | A subscription node without a link keeps its match key on import exactly when its own ID was free. |
| SortedStrings.SortKeys | daemon/internal/profile/profile.go:502-506 | Sorting a set of keys gives the strictly increasing list of exactly those keys. |
| SortedStrings.LessMeans | daemon/internal/profile/profile.go:502-506 | The order is the lexicographic one: by the first character that differs, a proper beginning first. |
| ProfileNormalization.NormalizeSubscriptions | daemon/internal/profile/profile.go:475-512 | The loops give one entry per provider key, in order, with its live and stale nodes counted. |
| ProfileNormalization.Normalize | daemon/internal/profile/profile.go:235-379 | The normalisation loops return the normal form with its warnings, or the first complaint in the order of the checks. |
| NormalForm.RefusedForTheFirst | daemon/internal/profile/profile.go:235-356 | A document is accepted exactly when nothing speaks against it, and otherwise refused for what comes first in the order of the checks, each complaint told from the given document. |
| NormalForm.NormalSettings | daemon/internal/profile/profile.go:235-276 | Every setting of an accepted document, with the daemon's default for what is blank or zero. |
| NormalForm.NormalNodes | daemon/internal/profile/profile.go:277-345 | Every node of an accepted document, field by field, in the given order. |
| NormalForm.NormalActive | daemon/internal/profile/profile.go:357-376 | The active ID is kept without a warning if it is blank or names a live node; otherwise the first live node takes over with one. |
| NormalForm.NormalEntryKept | daemon/internal/profile/profile.go:475-512 | The last entry of every provider is in the normal form, trimmed, with the provider's live and stale nodes counted anew. |
| NormalForm.NormalEntryGiven | daemon/internal/profile/profile.go:475-512 | Every entry of the normal form carries the key of a given one, and the keys increase. |
| NormalizationFacts.NormalizeIsIdempotent | daemon/internal/profile/profile.go:235-379 | Normalising a normalised document at any later time gives it back without a warning. |
| NormalizationFacts.NormalizedActiveIsLive | daemon/internal/profile/profile.go:357-376 | The active ID of a normalised document is blank or names a live node; its IDs are non-blank and distinct. |
| NormalizationFacts.NormalizedCountsAddUp | daemon/internal/profile/profile.go:475-512 | Subscriptions are strictly sorted by key, and their live and stale counts add up to the number of subscription nodes. |
| ProfileEdits.SetActiveNode | daemon/internal/profile/operations.go:11-24 | Activates a node exactly when some live node has that ID. |
| ProfileEdits.UpsertNode | daemon/internal/profile/operations.go:31-50 | Replaces the first node with the ID or appends the node, and activates it if nothing was active. |
| ProfileEdits.RemoveNode | daemon/internal/profile/operations.go:52-79 | Drops every node with the ID and moves the activation to the first live node. |
| EditOutcomes.UpsertMeans | daemon/internal/profile/operations.go:31-50 | The node takes the place of the first one with its ID or the place behind the last; nothing else changes but a blank active ID. |
| EditOutcomes.RemovalMeans | daemon/internal/profile/operations.go:52-79 | All nodes with the ID go, the others keep their order, and the first live one left takes over if the active one went. |
| EditOutcomes.IntentMeans | daemon/internal/profile/operations.go:81-92 | An intent sets what it states and leaves everything else. |
| ProfileEdits.MergedActiveIsLive | daemon/internal/profile/profile.go:394-439 | Whatever is merged into whatever list, the active node is then live or there is none. |
| ProfileEdits.UpsertKeepsIff | daemon/internal/profile/operations.go:31-50 | An upsert keeps IDs distinct, and keeps the active node live exactly unless it turns that very node stale. |
| ProfileEdits.EditKeepsIff | daemon/internal/profile/operations.go:11-92 | One edit, merge, subscription refresh or normalisation keeps a consistent document consistent exactly when it is not careless. |
| ProfileEdits.RunsKeepConsistent | daemon/internal/profile/operations.go:11-92 | Every run of edits, merges, subscription refreshes and normalisations without a careless one keeps IDs trimmed and distinct and the active node live or absent. |
| ConfigProjection.SplitRoutingRuleInputs | daemon/internal/profile/profile.go:617-630 | The loop splits the trimmed non-blank rules by whether they hold a slash. |
| ConfigProjection.MergeRoutingRuleInputs | daemon/internal/profile/profile.go:632-647 | The loops append the trimmed non-blank domain rules and then the address rules. |
| ConfigProjection.SplitOfMergeIff | daemon/internal/profile/profile.go:617-647 | Splitting a merged list gives back both lists exactly when they were plain. |
| ConfigProjection.MergeOfSplit | daemon/internal/profile/profile.go:617-647 | On any list, merging after splitting loses only blanks, only moves address rules behind domain rules, and settles at once. |
| AppliedConfig.KeptAt | daemon/internal/profile/profile.go:632-647 | Cleaning a rule list keeps every non-blank entry, trimmed and in its order, and nothing else. |
| AppliedConfig.SplitAt | daemon/internal/profile/profile.go:617-630 | Splitting puts every non-blank entry, trimmed and in its order, among the address rules if it holds a slash, among the domain rules otherwise, and nothing else anywhere. |
| AppliedConfig.AppliedRouting | daemon/internal/profile/profile.go:185-214 | For every applied document and each of the five modes the routing mode, apps mode and packages of the configuration, and which list each of its rule lists holds. |
| AppliedConfig.AppliedSelection | daemon/internal/runtime/root/desired.go:64-98 | What the daemon then wants: the document's mode, and the packages taken into the tunnel and left out of it, bypassed ones in PER_APP_BYPASS only. |
| AppliedConfig.AppliedSettings | daemon/internal/profile/profile.go:185-214 | Which document field, or which default, every other field of the configuration holds. |
| AppliedConfig.ModeIsRead | daemon/internal/profile/profile.go:539-582 | What each routing mode of a configuration reads back as, and where the two app lists come from. |
| AppliedConfig.RulesAreRead | daemon/internal/profile/profile.go:539-582 | Which rule list of the configuration each rule list of the document is read from. |
| AppliedConfig.SettingsAreRead | daemon/internal/profile/profile.go:148-172 | Which field of the configuration, or which default, every other field of the document is read from. |
| ConfigProjection.RoutingTripIff | daemon/internal/profile/profile.go:539-615 | Routing settings survive the configuration exactly for the five modes and plain rules. |
| ConfigProjection.DocumentRoundTripIff | daemon/internal/profile/profile.go:148-233 | A document applied to any configuration reads back as its normal form exactly when that is projectable. |
| AppliedTrips.AppliedTripSettles | daemon/internal/profile/profile.go:148-233 | A document that is applied to a configuration, read back and applied to any other one at any later time is accepted without a warning and reads back as before. |
| AppliedTrips.ReadBackIsNormal | daemon/internal/profile/profile.go:148-233 | What is read back from an applied document is in normal form. |
| Orchestration.HealthyPhaseIff | daemon/internal/runtimev2/orchestrator.go:1028-1074 | When exactly a successful operation's health is shown as HEALTHY. |
| Orchestration.PhaseFromHealthRests | daemon/internal/runtimev2/orchestrator.go:1028-1074 | Health never gives a transient phase unless the fallback is one. |
| Orchestration.Orchestrator.constructor | daemon/internal/runtimev2/orchestrator.go:66-83 | A new orchestrator is stopped, at generation zero, with the default backend filled in. |
| Orchestration.Orchestrator.SubmitStart | daemon/internal/runtimev2/orchestrator.go:218-287 | Start and restart: busy, refused with an error health, or accepted with the desired backend and profile applied. |
| Orchestration.Orchestrator.SubmitStop | daemon/internal/runtimev2/orchestrator.go:289-358 | Stop: busy, refused, or accepted with the applied backend and profile kept. |
| Orchestration.Orchestrator.SubmitReset | daemon/internal/runtimev2/orchestrator.go:430-486 | Reset: busy, refused, or accepted. |
| Orchestration.Orchestrator.SubmitNetworkChange | daemon/internal/runtimev2/orchestrator.go:488-545 | A network change is ignored while stopped, and otherwise changes only phase and generation. |
| Orchestration.Orchestrator.SubmitRun | daemon/internal/runtimev2/orchestrator.go:547-604 | Any other operation changes only phase and generation when it is accepted. |
| Orchestration.Orchestrator.BeginOperation | daemon/internal/runtimev2/orchestrator.go:690-710 | The next generation, with the 64-bit increment falling back to one, and a fresh operation ID. |
| Orchestration.Orchestrator.FinishOperation | daemon/internal/runtimev2/orchestrator.go:790-841 | What finishing does to health, applied state, last result and active operation. |
| Orchestration.Orchestrator.FinishPanicked | daemon/internal/runtimev2/orchestrator.go:740-779 | A panic finishes the operation as failed on the state as it then is. |
| Orchestration.Orchestrator.SetActiveOperationStep | daemon/internal/runtimev2/orchestrator.go:114-143 | A step is recorded only for the generation that is active. |
| Orchestration.Orchestrator.ApplyDesiredState | daemon/internal/runtimev2/orchestrator.go:145-167 | The desired state is replaced only at rest and only by one with a usable backend. |
| Orchestration.Orchestrator.ReadForRefresh | daemon/internal/runtimev2/orchestrator.go:606-634 | The first half of a health refresh reports a missing backend and changes nothing else. |
| Orchestration.Orchestrator.WriteRefresh | daemon/internal/runtimev2/orchestrator.go:636-648 | The second half replaces the health, and the phase only at rest and not when stopped. |
| Orchestration.Orchestrator.WriteProgress | daemon/internal/runtimev2/orchestrator.go:187-216 | Progress is merged into the health only while an operation is active. |
| OrchestrationRuns.RunsAreSequential | daemon/internal/runtimev2/orchestrator.go:145-841 | Every interleaving leaves the runtime at rest where the accepted commands, one after the other, would have; the desired state is frozen during an operation. |
| OperationEndings.AdmissionIff | daemon/internal/runtimev2/orchestrator.go:218-604 | When exactly a request is busy, ignored, refused and admitted. |
| OperationEndings.AcceptedShows | daemon/internal/runtimev2/orchestrator.go:218-710 | What an accepted request shows: phase, generation, backend, profile and start time. |
| OperationEndings.EveryEnding | daemon/internal/runtimev2/orchestrator.go:740-841 | Whatever happens between its work and its finish, a finished operation is no longer active, its result is the last one, and the runtime rests at its generation. |
| OperationEndings.StartsEnd | daemon/internal/runtimev2/orchestrator.go:218-287 | A start or restart without error shows the refreshed health, started when it was accepted, HEALTHY if that is checked and operational; one with an error is never HEALTHY and not started. |
| OperationEndings.StopsEnd | daemon/internal/runtimev2/orchestrator.go:289-358 | A stop without error rests at STOPPED, not started and with nothing ready; with an error it is FAILED exactly if the cleanup of a running runtime did not end well. |
| OperationEndings.ResetsEnd | daemon/internal/runtimev2/orchestrator.go:430-486 | A reset rests at STOPPED whatever it reports. |
| OperationEndings.NetworkChangesEnd | daemon/internal/runtimev2/orchestrator.go:488-545 | A network change with an error rests at DEGRADED, one without at what the health shows. |
| OperationEndings.OthersEnd | daemon/internal/runtimev2/orchestrator.go:547-604 | Any other operation with an error is never HEALTHY; an installed update rests at STOPPED; one that applies the desired state rests at what the health shows. |
| OperationEndings.PanicsEnd | daemon/internal/runtimev2/orchestrator.go:740-779 | A panic rests at FAILED with its message and code. |
| OperationEndings.RuntimeInTheEnd | daemon/internal/runtimev2/orchestrator.go:218-604 | Which backend and profile are applied in the end, for every operation with and without error. |
| OperationEndings.ReportsInTheEnd | daemon/internal/runtimev2/orchestrator.go:218-604 | Which reset report the result of a start, a network change and any other operation carries. |
| OperationEndings.ResetSays | daemon/internal/runtimev2/orchestrator.go:430-486 | A reset that went wrong reports the first of its errors that says something. |
| OperationEndings.RestShows | daemon/internal/runtimev2/orchestrator.go:1028-1074 | How a checked health is shown: HEALTHY exactly if operational or of an unknown code with nothing ready, and the phase of each known code. |
| OperationEndings.ResultSays | daemon/internal/runtimev2/orchestrator.go:997-1026 | A result carries its operation's kind, generation, phase and times, and of an error the message and the code, or the health's code when the error has none. |
| OperationEndings.StoredSays | daemon/internal/runtimev2/status_model.go:3-49 | The stored generation is that of the operation in flight, or else the greater of the last result's and the applied one. |
| OrchestrationRuns.HistoryIsWhatWasAccepted | daemon/internal/runtimev2/orchestrator.go:218-604 | The finished requests and the one in flight are, in order, exactly the submissions that were admitted when they came in. |
| OrchestrationRuns.GenerationsCountOperations | daemon/internal/runtimev2/orchestrator.go:690-710 | The applied generation counts the requests that were accepted along the run; the finished ones are these in order but for the one in flight, and their results carry the generations without a gap. |
| OrchestrationRuns.ShownIsApplied | daemon/internal/runtimev2/status_model.go:3-49 | No transient phase outlives its operation; canonical phase and generation and the stored desired generation equal the applied ones. |
| OrchestrationRuns.EndingClears | daemon/internal/runtimev2/orchestrator.go:740-804 | Every operation in flight can be ended, by a panic included, and then nothing is active and the next request is accepted. |
| OrchestrationRuns.LateStepsAreIgnored | daemon/internal/runtimev2/orchestrator.go:114-143 | A step update from an operation that has finished changes nothing. |
| OrchestrationRuns.OnlyOperationsMove | daemon/internal/runtimev2/orchestrator.go:606-648 | Nothing but accepting and ending an operation moves backend, profile and generation, and nothing but an operation leaves STOPPED. |
| RecoveryGate.RuntimeOperations.BeginStartOperation | daemon/cmd/daemon/runtime_v2_operations.go:8-14 | A start takes a new epoch and wants the runtime running. |
| RecoveryGate.RuntimeOperations.BeginStopOperation | daemon/cmd/daemon/runtime_v2_operations.go:27-33 | A stop takes a new epoch and no longer wants it. |
| RecoveryGate.RuntimeOperations.MarkStartFailed | daemon/cmd/daemon/runtime_v2_operations.go:35-41 | A failed start withdraws the wish only if its epoch is still current. |
| RecoveryGate.GatePassesIff | daemon/cmd/daemon/runtime_v2_operations.go:8-61 | A captured epoch passes exactly when the runtime is wanted and recoverable and the starts and stops begun since are a multiple of 2^64. |
| RecoveryGate.NewerOperationClosesGate | daemon/cmd/daemon/runtime_v2_operations.go:49-61 | Once a start or stop has begun, an older recovery cannot pass. |
| RecoveryGate.OldFailureIsHarmless | daemon/cmd/daemon/runtime_v2_operations.go:35-41 | The late failure of an old start cancels nothing newer. |
| RecoveryGate.WantedUntilItFails | daemon/cmd/daemon/runtime_v2_operations.go:8-41 | A start stays wanted exactly until its own failure is reported or the next operation begins. |
| RescueOutcomes.WantedIff | daemon/cmd/daemon/runtime_v2_operations.go:8-41 | After the last start or stop the runtime is wanted exactly if that was a start whose own failure has not been reported. |
| RescueOutcomes.RecoverableStates | daemon/cmd/daemon/runtime_v2_operations.go:49-61 | A recovery may run while the core is running, degraded or in rescue, and in no other state. |
| Rescue.RescueManager.Attempt | daemon/internal/rescue/rescue.go:97-152 | One attempt: gate, cooldown, limit, the strategy that is due, and the core's state afterwards. |
| Rescue.RescueManager.TryRestart | daemon/internal/rescue/rescue.go:229-235 | The first strategy is a hot swap. |
| Rescue.RescueManager.TryReapply | daemon/internal/rescue/rescue.go:239-268 | The second puts the rules down and up again. |
| Rescue.RescueManager.TryFull | daemon/internal/rescue/rescue.go:271-285 | The third stops everything and starts it, if the gate still allows. |
| Rescue.RescueManager.Rollback | daemon/internal/rescue/rescue.go:156-180 | The last resort is a stop. |
| Rescue.RescueManager.OnDegraded | daemon/cmd/daemon/rescue_callbacks.go:9-45 | When the degraded signal leads to an attempt and when a failed attempt leads to a rollback. |
| Rescue.RunsEscalate | daemon/internal/rescue/rescue.go:97-226 | Since the last reset, strategies were started in order of severity, each below the limit and after the cooldown in force. |
| RescueOutcomes.NotStarted | daemon/internal/rescue/rescue.go:97-120 | When exactly an attempt is called off at once, still cooling down or beyond the limit, and that it then changes nothing. |
| RescueOutcomes.FirstRestartsCore | daemon/internal/rescue/rescue.go:121-152 | The first attempt swaps the core: when it recovers, fails or is called off, and the core it leaves. |
| RescueOutcomes.SecondReappliesRules | daemon/internal/rescue/rescue.go:239-268 | The second reapplies the rules: which of them are then in place, and how it ends. |
| RescueOutcomes.FurtherOnesRestartAll | daemon/internal/rescue/rescue.go:271-285 | Every further one stops and starts everything, asking the gate before and between. |
| Rescue.FullRestartOnlyStops | daemon/internal/rescue/rescue.go:271-285 | Under the daemon's gate a full restart tears down and never starts, and no rollback follows it. |
| HealthMonitor.Monitor.Tick | daemon/internal/health/monitor.go:303-350 | One tick: what is counted, which state the core is put in and which signal is given. |
| RescueOutcomes.TickMeans | daemon/internal/health/monitor.go:303-350 | One tick in each state: what it counts, which state it leaves and which signal it gives. |
| RescueOutcomes.OverallIff | daemon/internal/health/monitor.go:235-283 | Which checks a cycle must pass; resolution counts only where it is declared hard. |
| HealthMonitor.SignalsAtThreshold | daemon/internal/health/monitor.go:303-350 | A degraded signal is given exactly at a failed tick of a running core whose failures since the last pass have reached the threshold. |
| HealthMonitor.FailedRescueIsTheLast | daemon/internal/health/monitor.go:338-350 | After a round whose rescue attempt did not report success, no number of failed rounds sets off another one or moves the core. |
| HealthMonitor.EscalationNeedsSuccess | daemon/internal/rescue/rescue.go:97-152 | With the monitor as the only trigger, a later strategy is tried only after the one before it reported success. |
| NetstackRules.Err | daemon/internal/netstack/netstack.go:300-322 | A report's error code is that of its first failed step. |
| NetstackRules.CleanupInto | daemon/internal/netstack/netstack.go:351-364 | Both stop scripts are run, interception first, and each outcome is recorded. |
| NetstackRules.Cleanup | daemon/internal/netstack/netstack.go:98-102 | No error exactly when both stops count as clean; rules can then be left only where a script was missing. |
| NetstackRules.Apply | daemon/internal/netstack/netstack.go:67-96 | All rules installed and no error, or the code of the first failed step and the started rules taken down again. |
| CoreOutcomes.ApplyInOrder | daemon/internal/netstack/netstack.go:67-96 | Which scripts an application of the rules runs and in which order, which code it reports and which rules it leaves, by what the scripts met. |
| NetstackRules.Verify | daemon/internal/netstack/netstack.go:104-119 | Verification stops at the first failing status script. |
| CoreLifecycle.CoreManager.Start | daemon/internal/core/manager.go:452-648 | A start ends running on the rendered file with its rules, or stopped with what was started taken down, by the first stage that fails. |
| CoreOutcomes.StartCommitsIff | daemon/internal/core/manager.go:452-648 | A start commits exactly when every stage it needs succeeds; otherwise nothing is tracked, and the rules are those from before unless their own stage was reached. |
| CoreOutcomes.PreparationReports | daemon/internal/core/manager.go:474-535 | Which error a start reports for rendering, checking and the sidecar. |
| CoreOutcomes.LaunchReports | daemon/internal/core/manager.go:537-609 | Which error a start reports for spawning the core and its listeners. |
| CoreOutcomes.RulesReport | daemon/internal/core/manager.go:611-637 | Which error a start reports for the rules. |
| CoreOutcomes.StartLeavesFile | daemon/internal/core/manager.go:474-511 | Which configuration file a start leaves: the old one, the new one, or none if writing broke it. |
| CoreOutcomes.StartLeaksNoCore | daemon/internal/core/manager.go:452-672 | What a start spawns is tracked or killed again. |
| CoreLifecycle.CoreManager.Stop | daemon/internal/core/manager.go:674-725 | A stop takes down the rules before the core, forgets everything whatever fails, and reports the first failure. |
| CoreOutcomes.StopReports | daemon/internal/core/manager.go:674-725 | Which failure a stop reports, and which rules it leaves. |
| CoreLifecycle.CoreManager.HotSwap | daemon/internal/core/manager.go:743-929 | A hot swap's new state, error and effects, stage by stage. |
| CoreOutcomes.SwapCommitsIff | daemon/internal/core/manager.go:743-929 | A hot swap commits exactly when the draft renders and passes its check, sidecar included, the old core is killed if there is one, and the replacement comes up. |
| CoreOutcomes.SwapCommits | daemon/internal/core/manager.go:743-929 | Then one core is killed and one spawned, and the new one runs what was rendered. |
| CoreOutcomes.BadDraftChangesNothing | daemon/internal/core/manager.go:762-787 | A draft that does not render or does not pass its check changes nothing and kills nothing. |
| CoreOutcomes.UnkilledCoreStays | daemon/internal/core/manager.go:789-797 | A core that cannot be killed stays, tracked as it was. |
| CoreOutcomes.FailedReplacement | daemon/internal/core/manager.go:789-995 | When the replacement fails, the runtime from before runs again exactly if there was one and it comes up; otherwise nothing is left but what the stop scripts leave. |
| CoreOutcomes.ReplacementReports | daemon/internal/core/manager.go:798-929 | Which error a swap reports when the replacement fails. |
| CoreOutcomes.SwapLeaksNoCore | daemon/internal/core/manager.go:743-995 | Every core from before or spawned by a swap is tracked or killed. |
| CoreLifecycle.CoreManager.RestorePreviousRuntime | daemon/internal/core/manager.go:931-995 | The previous profile is started again on the unchanged file, or what was restarted is given up. |
| CoreLifecycle.CoreManager.ResetState | daemon/internal/core/manager.go:424-443 | A reset forgets everything tracked and leaves the kernel's rules alone. |
| CoreRuns.RunsAreSound | daemon/internal/core/manager.go:424-995 | In every run: running means a tracked core on the rendering of the running profile and a sidecar exactly when required; otherwise nothing is tracked. |
| CoreRuns.NoBlackHole | daemon/internal/core/manager.go:568-725 | Rules without a tracked core remain only after a cleanup whose script did not run. |
| CoreRuns.CleanStopLeavesNothing | daemon/internal/core/manager.go:674-725 | A stop without error leaves nothing tracked, no marker and no rules, except where a stop script was missing. |
| CoreRuns.SwapEndsInOneOfFour | daemon/internal/core/manager.go:743-995 | Each of a hot swap's four ends, and exactly when it is reached. |
| CoreRuns.RulesGoFirst | daemon/internal/core/manager.go:789-814 | No rule script runs in a hot swap unless it gives up, and then before the last kill. |
| OutboundGraph.TagsOfNodes | daemon/internal/config/renderer.go:1420-1435 | Node tags carry the node prefix and nothing to trim, whatever the ID holds. |
| GroupMembers.TagMeans | daemon/internal/config/renderer.go:1420-1435 | A node's tag is made of its ID, or its name, or its place, and of its place if nothing of that can stand in a tag. |
| OutboundGraph.UsableProfileNodes | daemon/internal/config/renderer.go:763-789 | The nodes that decode, are live and have an address, a port and a protocol, tagged by position. |
| OutboundGraph.RenderableProfileNodes | daemon/internal/config/renderer.go:963-989 | The usable nodes that render, none if the active one does not, XHTTP nodes only when active. |
| OutboundGraph.BuildGroupOutboundPlans | daemon/internal/config/renderer.go:416-444 | One plan per group in the order of first nodes, its base counted as in the code. |
| OutboundGraph.BuildGroupOutbounds | daemon/internal/config/renderer.go:446-486 | One selector per group, with an automatic choice where there is one to make. |
| OutboundGraph.BuildOutbounds | daemon/internal/config/renderer.go:330-408 | The whole outbound list, or none when the configuration does not render. |
| GraphNodes.NodesOfGraph | daemon/internal/config/renderer.go:330-368 | The node outbounds stand in front, in the order of the stored list, one for exactly each node that decodes, is not stale, has an address, a port and a protocol, is no inactive XHTTP node and renders; a single one is `proxy`. |
| GraphNodes.OnlyFitNodesAreEmitted | daemon/internal/config/renderer.go:763-789 | No emitted node is stale or lacks its address, port or protocol, and each is a stored one. |
| GraphNodes.RendersIff | daemon/internal/config/renderer.go:330-347 | With a fit node there is a graph exactly when some node makes an outbound and the active ID does not name one that should and cannot. |
| GraphNodes.ResolvedAloneIff | daemon/internal/config/renderer.go:338-347 | Without a fit node the resolved node alone makes the graph, exactly if it has an address and a port and renders. |
| GraphNodes.ChoicesOfGraph | daemon/internal/config/renderer.go:369-403 | Several nodes are followed by the automatic choice between all of them and by selector `proxy`, which also offers every group. |
| GraphNodes.ActiveIsChosen | daemon/internal/config/renderer.go:389-393 | Selector `proxy` starts with the first emitted node that the trimmed active ID names. |
| GraphNodes.AutoIsChosen | daemon/internal/config/renderer.go:389-393 | And with the automatic choice if it names none. |
| GroupMembers.GroupHasSelector | daemon/internal/config/renderer.go:416-486 | Every group with an emitted node has a selector over exactly its emitted nodes in their order, behind an automatic choice if there are several. |
| OutboundGraph.BuildAppGroupRouteRules | daemon/internal/config/renderer.go:1997-2057 | In whatever order the map is walked, each group outbound gets exactly the packages routed to it. |
| GroupMembers.RulesCarry | daemon/internal/config/renderer.go:1997-2057 | A package is routed exactly if some entry names it and a group with a fit node, and it is not among the apps that always go direct. |
| GraphFacts.OutboundsAreClosed | daemon/internal/config/renderer.go:330-486 | Every outbound that another one names is emitted, and so are `proxy` and `direct`. |
| RouteFacts.ReferencesLeadByBasesIff | daemon/internal/config/renderer.go:1740-2057 | Whatever renders and whatever groups are called, every name that a route, the last resort or the resolver uses leads to an outbound exactly if each routed group's base, counted among the usable nodes, is a base among those that render. |
| RouteFacts.RouteReachesIff | daemon/internal/config/renderer.go:1997-2057 | A routed package reaches the selector of a group exactly if that group's base among the nodes that render is its own group's base among the usable ones. |
| RouteNames.RouteReachesByNames | daemon/internal/config/renderer.go:1997-2057 | Where groups sanitise alike in pairs at most, a routed package reaches exactly the groups that have a rendering node, sanitise alike, and come second among those that render just when its own comes second among the usable ones. |
| RouteNames.RouteDanglesIff | daemon/internal/config/renderer.go:1997-2057 | And its route leads nowhere exactly if there is no such group. |
| RouteNames.NamedInPairs | daemon/internal/config/renderer.go:425-438 | In such a list the first of a pair keeps its raw name and the second gets `-2`. |
| RouteFacts.PlanHoldsItsNodes | daemon/internal/config/renderer.go:416-444 | Every tag that a plan holds is that of a node in its own group. |
| RouteFacts.RoutesStayHome | daemon/internal/config/renderer.go:1997-2057 | When no two groups sanitise alike, the only group that a package reaches is its own. |
| GraphFacts.RoutesLeadSomewhere | daemon/internal/config/renderer.go:1740-2057 | In particular, if every usable node renders, every outbound is emitted that a route, the last resort or the resolver's detour names. |
| RouteFacts.ReferencesLeadIff | daemon/internal/config/renderer.go:1740-2057 | In particular, when no two groups sanitise alike, every name leads to an outbound exactly if every group that a package is routed to has a node that renders. |
| GroupNaming.BasesDifferIff | daemon/internal/config/renderer.go:416-444 | Group bases are distinct exactly when no group comes whose raw name and whose `-2` name are both taken, and then each group has one of the two. |
| GroupNaming.GroupTagsDifferIff | daemon/internal/config/renderer.go:416-486 | The group selectors that are emitted carry distinct tags under exactly that condition. |
| GroupNaming.DifferentRawsNeverClash | daemon/internal/config/renderer.go:425-438 | Groups whose names sanitise differently all keep their raw names. |
| GroupNaming.ThreeAlikeClash | daemon/internal/config/renderer.go:425-438 | Three groups whose names sanitise alike always clash, whatever groups stand between them. |
| GroupNaming.ThreeAlikeShareATag | daemon/internal/config/renderer.go:416-486 | Three nodes in the groups `a`, `a!` and `a?` give two group selectors with one tag. |
| TagFacts.OutboundTagsDifferIff | daemon/internal/config/renderer.go:330-486 | All emitted tags are distinct exactly when the node tags are, no group clashes, and no group's base is that of a group with an automatic choice and `-auto`. |
| TagFacts.NodeTagsDifferIff | daemon/internal/config/renderer.go:1420-1435 | The node tags are distinct exactly when the stored nodes that come into the graph differ in what their tags are made of: the ID, or else the name, if that sanitises to something, and otherwise the position. |
| GraphFacts.OutboundsHaveNoCycle | daemon/internal/config/renderer.go:330-486 | No walk along the references comes back to a tag, groups named `-auto` included. |
| SelectorSwitch.SwitchMeansPlain | daemon/cmd/daemon/active_node_selector.go:25-77 | A decision to switch names the node of the trimmed new ID, or the automatic choice, and means that the configurations differ in the active node only and the named node needs no sidecar. |
| SwitchOutcomes.SwitchIff | daemon/cmd/daemon/active_node_selector.go:25-77 | The selector is switched exactly when nothing stands against it, and otherwise the reason is the first one in the order of the checks, each told from the two configurations and their stored nodes. |
| SwitchOutcomes.TargetMeans | daemon/cmd/daemon/active_node_selector.go:60-77 | The target is the tag of the first fit node that the trimmed new ID names, or the automatic choice for a blank one. |
| SwitchOutcomes.EndpointsMean | daemon/internal/config/renderer.go:1908-1950 | The hosts kept out of the tunnel are those of all fit nodes, active or not, and where these name none that of the resolved node. |
| SwitchOutcomes.RenderMeans | daemon/internal/config/renderer.go:80-86 | A configuration renders exactly if its local API, when it has one, has a secret and there is a graph; which node counts as resolved. |
| SelectorSwitch.SwitchSufficesIff | daemon/cmd/daemon/active_node_selector.go:25-102 | The switch gives exactly the configuration that would be rendered, if and only if two nodes render, the same for both configurations, and the old and new effective nodes agree in needing a sidecar; untrimmed IDs included. |
| SelectorSwitch.TrimmedSwitchSufficesIff | daemon/cmd/daemon/active_node_selector.go:25-102 | With nothing to trim in the new ID: if and only if two nodes render and the old effective node needs no sidecar. |
| SelectorSwitch.SwitchFromKnownSuffices | daemon/cmd/daemon/active_node_selector.go:25-77 | From a known old active node to a trimmed new one, a decision to switch is always right while two nodes render. |
| PackageUids.ResolveFromCatalog | daemon/internal/core/scripts.go:740-785 | UIDs strictly increasing and exactly one for each user and matched package; unresolved requests in order. |
| ResolvedUids.ResolvedUidsAre | daemon/internal/core/scripts.go:740-785 | The resolved UIDs increase, and are those of the users' listed packages that are taken and no others. |
| ResolvedUids.UidMeans | daemon/internal/core/scripts.go:740-785 | A UID is the user's block of a hundred thousand and the app's place in it, which keeps the sign of the listed number. |
| ResolvedUids.UnresolvedAt | daemon/internal/core/scripts.go:740-785 | Every request that is not found stays unresolved, in its turn, and nothing else does. |
| PackageUids.ResolutionIsUnique | daemon/internal/core/scripts.go:740-785 | A catalog resolves a query in one way, whatever order it is walked in. |
| PackageUids.ResolveFromSources | daemon/internal/core/scripts.go:665-701 | The loop returns the best resolution among the sources it asked, and stops early only at a complete one. |
| PackageUids.BestIsFirstFewest | daemon/internal/core/scripts.go:680-690 | With packages requested by name the choice is the first source with the fewest unresolved ones. |
| ResolvedUids.MostUidsChosen | daemon/internal/core/scripts.go:680-690 | With nothing requested by name the choice is the first source with the most UIDs. |
| PackageUids.LazyRunIsEagerIff | daemon/internal/core/scripts.go:665-701 | Of two runs of the loop over the same sources, the one that stops early returns what the one that asks every source returns, exactly when packages are requested by name or the first listing source yields the most UIDs. |
| PackageUids.ResolveBothWays | daemon/internal/core/scripts.go:665-701 | The two runs, made one after the other, agree under exactly that condition. |
| Counterexamples.SharedLinkLosesANode | daemon/internal/subscription/merge.go:62-119 | Two nodes of one provider with one link: reordering drops one of them. |
| Counterexamples.BarredProviderIsTakenOver | daemon/internal/profile/profile.go:718-739 | The node of a provider whose key holds a bar is taken over by the refresh of a provider whose link holds one. |
| Counterexamples.UntrimmedNameSettlesLate | daemon/internal/subscription/merge.go:9-46 | A new node whose name begins with a blank loses the blank in the second refresh. |
| Counterexamples.BystanderIsTakenOverLater | daemon/internal/subscription/merge.go:9-46 | A node of another provider behind the provider's nodes, under a key of the feed, is taken over by the second refresh. |
| Counterexamples.LinklessNodeChangesKey | daemon/internal/profile/profile.go:416-424 | A node without a link whose ID is taken is imported under another key. |
| Counterexamples.UpsertTurnsActiveStale | daemon/internal/profile/operations.go:31-50 | Upserting the active node as stale leaves a stale node active. |
| Counterexamples.IntentActivatesNobody | daemon/internal/profile/operations.go:81-92 | A runtime intent that names no node of the document is taken as it is. |
| Counterexamples.UnknownModeIsLost | daemon/internal/profile/profile.go:539-615 | A document with an unknown routing mode is accepted by normalisation and changed by the trip through any configuration. |
| RuntimeCounterexamples.UnknownCodeIsShownHealthy | daemon/internal/runtimev2/orchestrator.go:1028-1074 | A checked health with an unknown code and no core is shown as HEALTHY. |
| RuntimeCounterexamples.MissingScriptLeavesRules | daemon/internal/core/manager.go:674-725 | With a stop script missing, a stop reports no error and the rules stay. |
| RuntimeCounterexamples.LazyMissesTheLargerSource | daemon/internal/core/scripts.go:665-701 | Two sources of which the second lists more: stopping early chooses the first, asking both the second. |
| RuntimeCounterexamples.InactiveXhttpGroupDangles | daemon/internal/config/renderer.go:1997-2057 | A package routed to a group with one inactive XHTTP node: the configuration renders and the group's outbound is missing. |
| RuntimeCounterexamples.AlikeGroupTakesOver | daemon/internal/config/renderer.go:1997-2057 | A package routed to group `a`, whose only node is an inactive XHTTP node, reaches the selector of group `a!`. |
| RuntimeCounterexamples.AlikeIdsShareATag | daemon/internal/config/renderer.go:1420-1435 | Two nodes with the IDs `a!` and `a?` are emitted under one tag. |
| RuntimeCounterexamples.SwitchFromBlankFallsShort | daemon/cmd/daemon/active_node_selector.go:25-102 | From a blank active ID with an XHTTP node first: the daemon decides to switch, and the result is not what would be rendered. |

## Left out

- MergeNodes: works on value sequences; that the code also writes into the caller's node slice is not captured. The refresh and the parser's pass do use arrays.
- UpsertNode: the same; the replaced entry of the caller's slice is not captured.
- Case mapping and case-insensitive comparison cover the ASCII letters; trimming covers all Unicode white space.
- JSON encoding and file formats: encoding and decoding are the identity on the modelled fields, except that the running configuration's clone loses the profile projection, as in the code.
- Fields that no modelled step looks at are gathered into one opaque field each (`extra`, `details`, `settings`, `flags`, `others`).
- ConfigProjection.ApplyToConfig: leaves out validation, the trial rendering and the local API secret, which can refuse the result but do not change these fields.
- ProfileNormalization.Normalize: returns only its complaint when it refuses; the partly normalised document that accompanies the error is not modelled.
- Validity of package names, of JSON and of subscription hosts are parameters of normalisation.
- Status observers, loggers, the stuck watchdog and runtime durations of the orchestrator.
- Overlapping health refreshes are excluded by a flag, as by the code's second lock; the backend that a refresh asks is not modelled beyond its answer.
- OrchestrationRuns.LateStepsAreIgnored: holds while fewer than 2^63-1 operations were accepted, since generations then start over.
- The routing rules that do not depend on nodes, and the protocol-specific fields of an outbound; whether a node renders is a parameter.
- OutboundGraph.BuildAppGroupRouteRules: gives the packages of each rule as a set; the sorted order of rules and packages, and a package listed twice under keys that trim to the same name, are not captured.
- Process handles, signals, exit channels, ports and log files: each stage's success or failure is a parameter; a core that survives its kill is no longer tracked, as in the code.
- CoreRuns.NoBlackHole: says nothing after a reset that forgets a running core, since the cleanup before it is done elsewhere.
- Rescue.RescueManager.Rollback: does not run the `daemon-reset` script and does not remove the reset lock, which follow the stop; what the script does to the kernel's rules is not modelled.
- HealthMonitor.Monitor.Tick: reads the core's state, probes and writes the state in one step; the code holds no lock across them, so a clear or another operation that falls in between is not captured.
- RecoveryGate and Rescue: other operations may change the core between two attempts, not during one.
- The preview of a subscription, which only replaces or appends one subscription entry after the refresh.
- Choosing among UID sources that were all probed before: the same loop as the lazy one, without the probing.
- The statuses and error texts of the asked UID sources, and the lists of system packages.
- The IPC server, updater, reset controller, diagnostics, audit and the Android panel.
