# Composite DRA driver: a verified model

The composite driver offers one Kubernetes device that stands for several devices of other
DRA drivers.  This project models its four parts and proves what they promise.

**Preparing a composite claim** (`Shadow*.dfy`, `WorkList.dfy`, `StateStore.dfy`, `Kubernetes.dfy`).  Each member
device gets a shadow claim in the API server, whose own driver is then asked to prepare it; the
result is recorded in memory and in BoltDB.  `ShadowMachine` is a small-step machine of all of
this: one action is one external call, any call may be lost or may take effect and still report
an error, goroutines advance in any order, claims are prepared and unprepared side by side, other
actors delete claims, and the process may crash and restart between any two actions.
`ShadowSafety`, `ShadowAtomicity` and `ShadowDrivers` prove inductive invariants over every run,
`ShadowFrame` what the calls on one claim leave alone;
`ShadowPlugin` is the plugin in the form of the code, a class whose methods move that machine.
`ShadowNames` proves when shadow claim names are apart, which all of this rests on.

**Pairing** (`Combinations`, `Pairing`, `MatchPairing`, `FilterPairing`, `ExplicitPairing`,
`RepeatedSources`, `SecondConstraint`, `AttributeMatching`, `PairedExactly`, and the loops in `Pairer`, `ExplicitPairer`, `Compositions`).  Which composite
devices a node has: exactly which, how often each, how many, in every map iteration order.
`Config` holds the validation that the pairer relies on.

**Publishing and looking up** (`Names`, `UniqueNames`, `DeviceStore`, `Publisher`, `Synthesizer`,
`EndToEnd`).  The scheduler sees devices in pools cut into slices, the plugin looks them up under
a string key; the two agree, down to the devices that prepareClaim hands out.

**The webhook** (`JsonPatch`, `Pods`, `Mutation`, `References`, `PodReferences`, `ClaimEntries`, `Patching`,
`Mutator`, `TemplateGc`, `TemplateReconciler`).  `JsonPatch` interprets the add and remove operations of
sections 4.1 and 4.2 of RFC 6902 on pointers decoded by section 4 of RFC 6901.  The patches that
the mutator emits are run by that interpreter on the encoded pod.  `TemplateGc` is a timed step
model of the claim templates and their garbage collection.

`dafny verify dfyconfig.toml` checks everything.

## What turned out to be false, and exactly when it holds

- A failed prepare whose compensating calls all work leaves nothing behind if no Create takes
  effect and still reports an error (`FailedPrepareLeavesNothing`).  One that does can leave its
  shadow claim (`LateCreateLeavesStray`): nothing is left if and only if every claim made that way
  is gone (`LeavesNothingExactly`).
- `docs/FLOW.md:407` calls a crash in mid-prepare recoverable because a re-prepare is idempotent.
  For the shadow claims this is so (`PrepareUntilReady`, `NoShadowLeft`).  But if the claim is
  unprepared instead, the label sweep asks no driver (`CrashLeavesDevicePrepared`): after a crash
  at any moment and a fault-free unprepare, what was prepared for the claim stays prepared if and
  only if the database could not be read or does not name it, and then it stays for ever
  (`CrashThenUnprepareExactly`, `ForgottenForEver`).
- A fault-free unprepare releases and deletes all that is recorded, and still returns an error if and
  only if a recorded shadow claim is already gone or two records name one (`UnprepareClaim`).
- matchAttribute compares values as text.  Typed values of one kind match if and only if they are
  equal; beyond that a string matches the number or the flag that it spells (`GroupedByValue`).
- Pairing yields each choice once only if no source is used twice; validation allows it
  (`AcceptedConfigWithDuplicates`).  With repeats it does so if and only if each repeated member
  takes all devices there are or some member has too few (`DuplicateFreeExactly`).
- Composite names are cut to 63 characters.  A name of plain device names determines its list if
  and only if it has fewer than 63 (`CompositeNameUniqueExactly`).
- Shadow claim names join source and device by a hyphen, which both may contain.  Two sources have
  devices with one uncut name if and only if one source extends the other by a hyphen
  (`SourcesCollideExactly`).  Two claims share a name if and only if they are of one namespace,
  their names have one hash, and they need members of one cut suffix (`NamesApartExactly`).  Two
  members of one claim may share a name: all results on faults, cleanup and healing hold with it,
  and only the CDI IDs depend on it (`OwnAnswersExactly`).
- Containers receive all their references if and only if they had a claims list before or ask
  for at most one mapped resource (`AllReferencesDelivered`): a second `add` at
  `/resources/claims` replaces the first.  Each reference is given at most once if and only if
  claim names are distinct (`GivenOnceExactly`).
- The bound of template collection is sharp: a pod stored a full grace period or more after the
  template it reuses can lose that template (`ReusedTemplateDeleted`), and so can a pod whose
  template is deleted by others and created anew during a pass (`RecreatedTemplateDeleted`).
- A template reused or shared by claims of one cut name serves a claim if and only if it has as
  many requests as the claim needs (`ResolvesExactly`, `SharedTemplateExactly`).
- Only the first constraint drives the grouping (`pkg/synthesizer/pairer.go:94`), so a second one
  may be ignored (`SecondConstraintIgnored`).  All composite devices meet it if and only if every
  group with enough devices for every member agrees on it as a whole (`PairingMeetsExactly`).

## Model

| member | source | states |
|---|---|---|
| `ShadowSafety.NoShadowLeft` | pkg/plugin/plugin.go:115-338 | leak freedom: in every reachable state, after an unprepare whose API calls worked, by record or by label, no shadow claim bears the claim's label, until the next prepare |
| `ShadowSafety.MemoryEqualsDisk` | pkg/plugin/plugin.go:261-397 | in every reachable state, on every UID without a disk fault and not between the two updates of a call, memory equals what a restart would decode from the database |
| `ShadowSafety.PersistRestoreIdentity` | pkg/plugin/plugin.go:340-397 | persist then restore is the identity on record lists |
| `ShadowSafety.RecordsAligned` | pkg/plugin/plugin.go:238-265 | once every member has a shadow claim the records match the work list one for one, in order |
| `ShadowSafety.BookkeepingKept` | pkg/plugin/plugin.go:115-397 | every step of a call keeps: records name all shadow claims of the claim, a running prepare has touched no record, memory is what the disk says |
| `ShadowSafety.OwnKeysKept` | pkg/plugin/plugin.go:163-397 | every step of a call keeps: the shadow names in the records of a claim, in memory, on disk, pending or still to sweep, are the claim's own |
| `ShadowSafety.UnprepareOverlooksNothing` | pkg/plugin/plugin.go:280-308 | at every step of a clean unprepare what it still has to delete includes all labelled shadow claims |
| `ShadowSafety.ActionKeepsInv` | pkg/plugin/plugin.go:115-397 | every action, crashes and other actors included, keeps the safety invariant |
| `ShadowSafety.ReachableInv` | pkg/plugin/plugin.go:48-397 | the safety invariant holds in every reachable state |
| `ShadowAtomicity.ActionKeepsAtomic` | pkg/plugin/plugin.go:163-236 | with names apart between claims, every action keeps: UIDs unique, shadow claims carry the allocation of a member of their name or none, answers are for such a member, every claim a call made is accounted for by a goroutine of its name, cleaned-up claims are gone |
| `ShadowAtomicity.ReachableAtomic` | pkg/plugin/plugin.go:163-236 | that invariant holds in every reachable state |
| `ShadowAtomicity.FailedPrepareKeepsRecords` | pkg/plugin/plugin.go:163-236 | whichever calls failed, a failing prepare has memory and disk records as they were when it began |
| `ShadowAtomicity.CompensationClears` | pkg/plugin/plugin.go:333-338 | when its compensating calls took effect, the shadow claim that a goroutine of a failing prepare made or adopted, also from a sibling of the same name, is neither there nor prepared |
| `ShadowAtomicity.FailedPrepareLeavesNothing` | pkg/plugin/plugin.go:163-338 | all or nothing, from the outcomes of the calls: from any reachable state, in any run in which its Creates are not late and its Delete and Unprepare calls take effect, a prepare that comes to its error return has left both records and every labelled shadow claim as they were, and of those it made or adopted none exists or is prepared |
| `ShadowAtomicity.OnlyStraysRemain` | pkg/shadow/claims.go:59-152 | anything such a call leaves behind was made by a Create that reported an error |
| `ShadowAtomicity.LeavesNothingExactly` | pkg/shadow/claims.go:129-143 | a failed prepare leaves nothing if and only if every claim made by an erring Create is gone |
| `ShadowAtomicity.LateCreateLeavesStray` | pkg/shadow/claims.go:129-132 | from any reachable quiet state of a one-member claim, a run that ends with its shadow claim left although all compensation worked |
| `ShadowAtomicity.AnswersAreScheduleIndependent` | pkg/plugin/plugin.go:208-236 | in every reachable state before the record is written, member i holds what a driver answers for a member of its shadow name, whatever the completion order; its own answer if those under one name agree |
| `ShadowDrivers.StillRemembers` | pkg/plugin/plugin.go:280-338 | a careful step forgets nothing that is still prepared at a driver |
| `ShadowDrivers.ActionRemembers` | pkg/plugin/plugin.go:115-397 | a careful action keeps: whatever is prepared at a driver is remembered by the plugin |
| `ShadowDrivers.DriversHoldNothing` | pkg/plugin/plugin.go:280-338 | in every careful run, once no call is in flight and no record is left, no driver holds anything |
| `ShadowDrivers.CrashOutsidePrepareIsCareful` | pkg/plugin/plugin.go:284-308 | a crash outside prepares forgets nothing, wherever the unprepares are, if the database never failed: the disk record goes last |
| `ShadowDrivers.ForgottenForEver` | pkg/plugin/plugin.go:280-338 | what no record and no goroutine knows stays prepared in every continuation |
| `ShadowDrivers.CrashLeavesDevicePrepared` | pkg/plugin/plugin.go:208-308 | a reachable state in which a clean unprepare has returned and its device is prepared and forgotten |
| `ShadowDrivers.ActionProvenance` | pkg/plugin/plugin.go:115-397 | every action keeps: what the plugin knows for a claim are UIDs of that claim's own shadow claims, and under a claim's names there are only its own |
| `ShadowDrivers.ReachableProvenance` | pkg/plugin/plugin.go:115-397 | that holds in every reachable state |
| `ShadowDrivers.HoldIsOwn` | pkg/plugin/plugin.go:208-308 | a hold of a claim concerns no API object but one with its label, and nothing known for another claim |
| `ShadowDrivers.LeftHoldForgotten` | pkg/plugin/plugin.go:280-308 | a hold of a claim that survives its fault-free unprepare is forgotten |
| `ShadowDrivers.CrashThenUnprepareExactly` | pkg/plugin/plugin.go:280-397 | for every reachable state, a restart and a fault-free unprepare: a hold of the claim stays prepared if and only if the database was not readable or does not name it, and it is then forgotten |
| `ShadowFrame.StepHoldsOwn` | pkg/plugin/plugin.go:208-338 | in every reachable state a step of one claim's call changes only holds that neither concern a claim without its label nor are known for another claim |
| `ShadowFrame.StepSparesOthers` | pkg/shadow/claims.go:106-204 | in every reachable state, whatever fails, a step of one claim's call leaves every API claim without its label, and every hold for others, exactly as it was |
| `WorkList.BuildWork` | pkg/plugin/plugin.go:131-161 | fails exactly if a result of this driver has no mapping; else the work list is, result by result, one item per member |
| `WorkList.WorkExactly` | pkg/plugin/plugin.go:131-161 | the work list is, result by result and member by member, the shadow claim in the claim's namespace named by hash, source and device, for that one device of the member's driver |
| `WorkList.MineExactly` | pkg/plugin/plugin.go:131-137 | the results taken are those of this driver, each once, in order |
| `WorkList.Group` | pkg/plugin/plugin.go:238-250 | exactly the ordinals that have work are grouped, with the CDI IDs of their items in order |
| `WorkList.Assemble` | pkg/plugin/plugin.go:238-259 | the devices of the ordinals that have work, in allocation order |
| `WorkList.WorkCdi` | pkg/plugin/plugin.go:131-259 | the CDI IDs collected for ordinal p are those of the members of the p-th result, concatenated in member order |
| `WorkList.DevicesExpected` | pkg/plugin/plugin.go:131-259 | assembling the work list yields what is defined from the mappings alone |
| `WorkList.OneDevicePerResult` | pkg/plugin/plugin.go:238-259 | one device per allocation result, in order, if and only if no mapping has an empty member list |
| `ShadowNames.NamesEqualExactly` | pkg/shadow/claims.go:24-32 | two shadow names are equal if and only if the hashes and the suffixes, cut to the room left, are |
| `ShadowNames.SourcesCollideExactly` | pkg/shadow/claims.go:24-32 | two sources have devices with one uncut shadow name if and only if one extends the other by a hyphen |
| `ShadowNames.SuffixInjective` | pkg/shadow/claims.go:24-32 | if no source extends another, source and device can be read off the name |
| `ShadowNames.NamesApartExactly` | pkg/shadow/claims.go:24-32 | for the work lists that prepareClaim builds: no two claims share a shadow name if and only if no two of one namespace and one hash need members of one cut suffix |
| `ShadowNames.SharedByDeviceExactly` | pkg/shadow/claims.go:24-32 | with short names and sources apart, members of one claim share a name if and only if they are one device |
| `ShadowNames.OwnAnswersExactly` | pkg/shadow/claims.go:24-32 | then members under one name get one answer if and only if each device gets one in all its places |
| `ShadowPlugin.RefusalExplained` | pkg/shadow/claims.go:129-172 | with no faults every driver answers if and only if no shadow claim stood there without an allocation |
| `ShadowPlugin.MirrorStep` | pkg/plugin/plugin.go:163-236 | each fault-free goroutine step, in any order and with shared names, keeps every slot explained by the world at the start |
| `ShadowPlugin.AdvanceStands` | pkg/plugin/plugin.go:163-236 | every goroutine step keeps: each answer collected so far is for a shadow claim that stands, carries the member's label and is prepared at its driver |
| `ShadowPlugin.AdvanceRanks` | pkg/plugin/plugin.go:163-236 | every goroutine step brings its phase nearer to its end |
| `ShadowPlugin.CompositePlugin.constructor` | pkg/plugin/plugin.go:48-73 | the plugin starts on what any earlier run left, with memory rebuilt from the database if it can be read |
| `ShadowPlugin.CompositePlugin.RunGoroutines` | pkg/plugin/plugin.go:163-236 | for every schedule the goroutines of a phase end; they change nothing but their slots and shadow claims of their own claim, and each answer stands for one |
| `ShadowPlugin.CompositePlugin.CreateShadows` | pkg/plugin/plugin.go:163-206 | goes on to the drivers if and only if every member has a shadow claim, else cleans up those that have; without faults all have |
| `ShadowPlugin.CompositePlugin.AskDrivers` | pkg/plugin/plugin.go:208-236 | commits if and only if every driver answered, else cleans up all; without faults they answer if and only if no half-made claim was met |
| `ShadowPlugin.CompositePlugin.CleanupShadows` | pkg/plugin/plugin.go:333-338 | handles every record; if its calls take effect none of their shadow claims is left; other claims are spared, whatever fails |
| `ShadowPlugin.CompositePlugin.GiveUp` | pkg/plugin/plugin.go:187-236 | the error return: records as at the start; unless calls fail uncompensated, nothing was added to the API server or the drivers, and what the goroutines had is gone |
| `ShadowPlugin.CompositePlugin.Commit` | pkg/plugin/plugin.go:238-277 | returns the devices with the collected answers, and records, member by member, driver, composition, name and UID of a shadow claim that stands and is prepared |
| `ShadowPlugin.CompositePlugin.PrepareClaim` | pkg/plugin/plugin.go:115-278 | for every schedule and every fault: other claims are spared; on failure both records are unchanged, and if no Create is late and compensating calls take effect nothing is added and nothing it made or adopted is left; on success the record names for every member a shadow claim that stands and is prepared, and the devices carry the answers by shadow name, the expected ones if members under one name agree; without faults it succeeds if and only if no half-made shadow claim is in the way, and else removes them |
| `ShadowPlugin.CompositePlugin.PrepareUntilReady` | pkg/plugin/plugin.go:115-278 | self-healing: from every reachable state, names shared within the claim or not, at most two fault-free prepares yield the devices |
| `ShadowPlugin.CompositePlugin.ReleaseOne` | pkg/plugin/plugin.go:291-300 | success means that one shadow claim is released and deleted; without faults it succeeds exactly if the claim was there |
| `ShadowPlugin.CompositePlugin.ReleaseRecords` | pkg/plugin/plugin.go:291-300 | success means that all recorded shadow claims are released and deleted; without faults it succeeds exactly if each was there when its turn came |
| `ShadowPlugin.CompositePlugin.Sweep` | pkg/shadow/claims.go:185-204 | deletes only claims with the claim's own label, whatever fails, asks no driver, and is clean without faults |
| `ShadowPlugin.CompositePlugin.UnprepareClaim` | pkg/plugin/plugin.go:280-331 | spares all other claims, whatever fails; always drops the memory record; asks drivers for what is recorded and nothing else; success means all recorded claims are released and deleted; without faults it succeeds exactly if every recorded claim was there once for each record, exactly the recorded holds and exactly the labelled claims go, and the disk record goes |
| `ShadowPlugin.CompositePlugin.Restart` | pkg/plugin/plugin.go:372-397 | memory becomes what the disk says and the world is untouched |
| `ShadowPlugin.CompositePlugin.RestartAndUnprepare` | pkg/plugin/plugin.go:280-397 | after a crash at any moment and a fault-free unprepare, what is still prepared for the claim is exactly what the database did not give back, and it is forgotten |
| `ShadowPlugin.CompositePlugin.ReconcileOrphans` | pkg/plugin/reconciler.go:34-79 | deletes only managed claims, of any node; without faults a shadow claim goes exactly if no claim stands under the name of its composite claim |
| `ShadowPlugin.ReconcileNext` | pkg/plugin/reconciler.go:48-73 | each visited claim keeps the reconciler's loop invariant |
| `StateStore.Bucket.SaveShadows` | pkg/store/state.go:57-66 | puts the record under its claim UID and nothing else |
| `StateStore.Bucket.DeleteShadows` | pkg/store/state.go:88-92 | removes that UID and nothing else |
| `StateStore.Bucket.ListAll` | pkg/store/state.go:95-109 | every readable record of the bucket, one for each; corrupt ones are skipped |
| `StateStore.Bucket.Persist` | pkg/plugin/plugin.go:340-361 | stores the encoded record list under the claim UID |
| `StateStore.Bucket.Restore` | pkg/plugin/plugin.go:372-397 | the rebuilt memory is, UID by UID, the decoded record if it can be read |
| `Combinations.ChooseExact` | pkg/synthesizer/pairer.go:283-312 | a sequence is enumerated if and only if it is strictly increasing, of length k and within bounds |
| `Combinations.ChooseSorted` | pkg/synthesizer/pairer.go:298-310 | the enumeration is strictly lexicographically increasing, hence free of repeats |
| `Combinations.SubsCount` | pkg/synthesizer/pairer.go:283-312 | there are C(n, k) of them |
| `Combinations.DeadBranch` | pkg/synthesizer/pairer.go:305 | nothing can be chosen if and only if there are fewer than k candidates |
| `Combinations.SearchStep` | pkg/synthesizer/pairer.go:305-308 | one turn of the loop adds exactly the combinations that begin with its index |
| `Combinations.SearchEnd` | pkg/synthesizer/pairer.go:305 | beyond the loop bound no combination exists |
| `Combinations.ChooseOne` | pkg/synthesizer/pairer.go:287-293 | the fast path for k = 1 equals the general search |
| `Combinations.Search.Emit` | pkg/synthesizer/pairer.go:299-304 | the emitted array is a fresh copy of the buffer |
| `Combinations.Search.Set` | pkg/synthesizer/pairer.go:306 | writing the shared buffer changes no emitted result |
| `Combinations.Search.Generate` | pkg/synthesizer/pairer.go:298-309 | appends exactly the completions of the buffer's prefix, and keeps prefix and earlier results |
| `Combinations.Search.Branch` | pkg/synthesizer/pairer.go:305-308 | appends exactly the completions that begin with the given index |
| `Combinations.ChooseCombinations` | pkg/synthesizer/pairer.go:283-312 | for all n and k the enumeration of all k-subsets of [0, n), in order, and nothing for k <= 0 |
| `Config.Validate` | pkg/config/validation.go:10-169 | accepts exactly the configurations that are well formed by a declarative definition |
| `Config.CheckSources` | pkg/config/validation.go:21-40 | accepts exactly complete, distinctly named sources of other drivers |
| `Config.CheckMembers` | pkg/config/validation.go:59-69 | accepts exactly members of known sources with positive counts |
| `Config.CheckPair` | pkg/config/validation.go:128-151 | accepts exactly pairs with one non-empty selector per member source and no negative rail or NUMA node |
| `Config.CheckPools` | pkg/config/validation.go:102-153 | accepts exactly well-formed, distinctly named node pools without constraints |
| `Config.CheckComposition` | pkg/config/validation.go:42-160 | accepts exactly the well-formed compositions |
| `Config.CheckCompositions` | pkg/config/validation.go:42-160 | accepts exactly well-formed compositions with distinct names and device classes |
| `Pairing.ChoicesExact` | pkg/synthesizer/pairer.go:249-280 | with distinct sources and positive counts a choice is made if and only if it picks, for every member, Count indices in increasing order |
| `Pairing.ChoicesNoDup` | pkg/synthesizer/pairer.go:249-280 | no choice is made twice |
| `Pairing.CombosCount` | pkg/synthesizer/pairer.go:249-280 | the combinations number the product of C(n_m, Count_m), repeated sources or not |
| `Pairing.CombosByChoice` | pkg/synthesizer/pairer.go:249-280 | working on devices equals working on indices and selecting |
| `RepeatedSources.DuplicateFreeExactly` | pkg/synthesizer/pairer.go:249-280 | no choice is repeated if and only if some member has too few devices or every repeated member takes all there are |
| `RepeatedSources.AcceptedConfigWithDuplicates` | pkg/config/validation.go:59-69 | an accepted configuration whose pairing repeats a choice |
| `MatchPairing.GroupIs` | pkg/synthesizer/pairer.go:101-114 | the group of a value holds, per source, exactly its devices with that value, in order |
| `MatchPairing.OnePerChoice` | pkg/synthesizer/pairer.go:116-135 | matching yields one composite per pair of a value and a choice in its group |
| `MatchPairing.MatchingExact` | pkg/synthesizer/pairer.go:93-141 | a value and choice occur if and only if the choice is valid in the value's group |
| `MatchPairing.MatchingNoDup` | pkg/synthesizer/pairer.go:93-141 | no value and choice occur twice |
| `MatchPairing.MatchingCounted` | pkg/synthesizer/pairer.go:93-141 | the composites number the sum over the values of the products of C(n_v,m, Count_m) |
| `MatchPairing.AnyGroupOrder` | pkg/synthesizer/pairer.go:116-135 | any two iteration orders of the groups give the same multiset of composites |
| `SecondConstraint.ComboWith` | pkg/synthesizer/pairer.go:249-280 | a group with enough devices has a combination that contains any two given devices that can be together |
| `SecondConstraint.SharedByAll` | pkg/synthesizer/pairer.go:116-135 | if all combinations of a group agree on an attribute, all its devices do |
| `SecondConstraint.SecondConstraintExactly` | pkg/synthesizer/pairer.go:93-141 | all composite devices agree on another attribute if and only if every group with enough devices does as a whole |
| `SecondConstraint.PairingMeetsExactly` | pkg/synthesizer/pairer.go:70-141 | the same for the result of a composition, on the filtered devices |
| `SecondConstraint.SecondConstraintIgnored` | pkg/synthesizer/pairer.go:94 | an accepted configuration with two constraints and a composite device that meets only the first |
| `FilterPairing.SubsFilter` | pkg/synthesizer/pairer.go:430-442 | k-subsets of the passing elements are the k-subsets all of whose elements pass, in order |
| `FilterPairing.CombosFilter` | pkg/synthesizer/pairer.go:70-89 | the same for combinations over several sources |
| `FilterPairing.SingleFilterCommutes` | pkg/synthesizer/pairer.go:146-157 | filtering then pairing equals pairing then keeping composites whose members pass |
| `FilterPairing.MatchingFilterCommutes` | pkg/synthesizer/pairer.go:70-141 | the same for attribute matching, up to order, for every two group orders |
| `AttributeMatching.GroupedByValue` | pkg/synthesizer/pairer.go:399-416 | a device is in a group exactly if it has the attribute with a value; two are in one group exactly if the typed values are equal, or one is a string that spells the other |
| `AttributeMatching.MatchedByTypedValue` | pkg/synthesizer/pairer.go:93-141 | up to order, matching yields the composites of exactly those combinations of filtered devices in which any two devices agree on the typed value of the first constraint |
| `AttributeMatching.MembersAgree` | pkg/synthesizer/pairer.go:93-141 | all member devices of every composite agree on that typed value, also where a source is used twice |
| `PairedExactly.FilteredExactly` | pkg/synthesizer/pairer.go:71-78 | a member source is left with exactly the devices that its filter admits, each once and in order: all of them without an expression or CEL, else those that match |
| `PairedExactly.AutoPairingExactly` | pkg/synthesizer/pairer.go:70-157 | a composite device is in the result exactly if it is made of Count devices per member, at increasing positions of the driver's list, all admitted by their filters and of one typed value, with source, driver, class and device of each member, its composition, and the joined name |
| `PairedExactly.KeptExactly` | pkg/synthesizer/pairer.go:178-237 | the explicit composites are those of the kept pairs in order, each on its own pair's rail and made of what that pair was allotted |
| `PairedExactly.ExplicitByLabel` | pkg/synthesizer/pairer.go:159-245 | the pool is the first one named like the node's label, or like the empty string on a node without it; the result is the sorted greedy allocation of that pool, and empty without such a pool or CEL |
| `ExplicitPairing.ExplicitPairsDisjoint` | pkg/synthesizer/pairer.go:178-237 | no source and device name are in two kept pairs |
| `ExplicitPairing.GreedyUnique` | pkg/synthesizer/pairer.go:178-237 | the greedy specification has at most one outcome |
| `ExplicitPairing.CountOfDistinct` | pkg/synthesizer/pairer.go:188-215 | with distinct sources the number taken is the member's count |
| `ExplicitPairer.MatchDevices` | pkg/synthesizer/pairer.go:196-204 | the unconsumed devices that match, in order |
| `ExplicitPairer.TryPair` | pkg/synthesizer/pairer.go:185-216 | a pair is kept with exactly the first Count candidates per source, or dropped exactly because a selector is missing or candidates are too few |
| `ExplicitPairer.Consume` | pkg/synthesizer/pairer.go:222-226 | the consumed sets grow by exactly the devices taken |
| `ExplicitPairer.PairOnce` | pkg/synthesizer/pairer.go:184-237 | one pair meets the greedy specification; a dropped one consumes nothing |
| `ExplicitPairer.PairAll` | pkg/synthesizer/pairer.go:178-237 | the whole loop meets the greedy specification |
| `ExplicitPairer.FindPool` | pkg/synthesizer/pairer.go:165-176 | the first node pool with the name that the node's label has, or with an empty name if the node lacks the label; none exactly if there is no such pool |
| `ExplicitPairer.PairWithExplicit` | pkg/synthesizer/pairer.go:159-245 | nothing without a CEL environment or a pool named like the node's label; else the greedy pairs of the first such pool, sorted by name, nothing lost |
| `Pairer.GenerateCombinations` | pkg/synthesizer/pairer.go:249-280 | the combinations, in the order of the recursive definition |
| `Pairer.BuildCompositeDevice` | pkg/synthesizer/pairer.go:314-384 | members in member order, named by their joined sanitised names |
| `Pairer.GroupDevices` | pkg/synthesizer/pairer.go:101-114 | a group for exactly the values that occur, each as defined |
| `Pairer.PairGroup` | pkg/synthesizer/pairer.go:116-135 | the composites of one group; the early exit loses none |
| `Pairer.PairGroups` | pkg/synthesizer/pairer.go:116-135 | for every iteration order each group once |
| `Pairer.PairWithMatchAttribute` | pkg/synthesizer/pairer.go:93-141 | for some order of exactly the occurring values, the matched composites, sorted by name, nothing lost |
| `Pairer.PairSingleSource` | pkg/synthesizer/pairer.go:146-157 | all combinations, sorted by name, nothing lost |
| `Pairer.SortByName` | pkg/synthesizer/pairer.go:136-138 | sorted and a permutation |
| `Text.StringLeExactly` | pkg/synthesizer/pairer.go:136-138 | one string comes before another if it begins it or has the smaller character where they first differ |
| `Compositions.ApplyFilter` | pkg/synthesizer/pairer.go:430-442 | exactly the devices that pass, in order |
| `Compositions.FilterSources` | pkg/synthesizer/pairer.go:71-78 | every member source filtered by its own filter |
| `Compositions.ComputeForComposition` | pkg/synthesizer/pairer.go:70-89 | the pairing of the mode that the composition asks for, on the filtered devices |
| `Compositions.ComputePairs` | pkg/synthesizer/pairer.go:61-68 | the pairings of all compositions, one after the other |
| `Compositions.IndexSources` | pkg/synthesizer/pairer.go:43-58 | an entry for exactly the configured names, each a source of that name |
| `Compositions.MatchAttributeExact` | pkg/synthesizer/pairer.go:70-141 | whatever the iteration order, the result is one composite for every value of the first constraint and valid choice among the filtered devices, nothing else, sorted, and as many as the sum of products |
| `Compositions.AutoPairingKeepsPassing` | pkg/synthesizer/pairer.go:70-157 | in the automatic modes the result is, up to order, the unfiltered pairing restricted to composites whose members pass |
| `Compositions.AcceptedIsUsable` | pkg/config/validation.go:42-160 | for every accepted configuration: sources known, counts positive, explicit mode has all selectors and no constraint, and pairing without constraint sees one source |
| `Compositions.DroppedForLackOfDevices` | pkg/synthesizer/pairer.go:188-215 | for an accepted composition a pair is dropped only for lack of devices: the missing-selector branch is dead |
| `Names.Sanitize` | pkg/synthesizer/pairer.go:423-428 | character by character: separators become hyphens, capitals small letters, all else stays |
| `Text.JoinExactly` | pkg/synthesizer/pairer.go:370-373 | joining two lists is joining what each joins to |
| `Names.JoinInjective` | pkg/synthesizer/pairer.go:370-373 | joined lower-case labels without double hyphens determine the list |
| `Names.CompositeNameInjective` | pkg/synthesizer/pairer.go:370-373 | composite names that are not cut are equal only for equal lists of member names |
| `Names.CompositeNameUniqueExactly` | pkg/synthesizer/pairer.go:370-373 | the name of a list of plain device names is the name of no other such list if and only if it has fewer than 63 characters |
| `Names.CompositeNameHasNoSlash` | pkg/synthesizer/pairer.go:370-373 | no composite name contains a slash, whatever the member names |
| `Names.PoolNameInjective` | pkg/synthesizer/publisher.go:51-53 | on one node a pool name determines its composition |
| `Names.StoreKeyInjective` | pkg/store/device_store.go:43-45 | for slash-free devices a key determines pool and device, whatever slashes the pool has |
| `UniqueNames.BuildInjective` | pkg/synthesizer/pairer.go:314-384 | composites with the same uncut name were built from the same devices |
| `UniqueNames.SingleNamesDistinct` | pkg/synthesizer/pairer.go:146-157 | the names of a single-source pairing are distinct |
| `UniqueNames.MatchedNamesDistinct` | pkg/synthesizer/pairer.go:93-141 | the names of an attribute pairing are distinct, across groups too |
| `UniqueNames.ExplicitNamesDistinct` | pkg/synthesizer/pairer.go:178-237 | the names of an explicit pairing are distinct |
| `UniqueNames.PairingNamesDistinct` | pkg/synthesizer/pairer.go:70-89 | in every mode no two composites of a composition share a name, if device names are plain and unique per source and no name is cut |
| `DeviceStores.DeviceStore.constructor` | pkg/store/device_store.go:37-41 | nothing is found |
| `DeviceStores.DeviceStore.Put` | pkg/store/device_store.go:47-51 | that device is found, and every other slash-free one as before |
| `DeviceStores.DeviceStore.Get` | pkg/store/device_store.go:53-57 | the mapping under that pool and device, if any |
| `DeviceStores.DeviceStore.Delete` | pkg/store/device_store.go:59-63 | that device is not found, and every other slash-free one as before |
| `DeviceStores.DeviceStore.ReplaceAll` | pkg/store/device_store.go:66-70 | the store is exactly the given mappings |
| `Publisher.GroupByComposition` | pkg/synthesizer/publisher.go:55-62 | grouping partitions the devices, each group in order |
| `Publisher.BuildSlices` | pkg/synthesizer/publisher.go:64-85 | slices concatenate to the devices, at most 128 each, all but the last full; one empty slice for no devices |
| `Publisher.SliceCount` | pkg/synthesizer/publisher.go:64-85 | any such slicing has ceil(n/128) slices |
| `Publisher.SlicingUnique` | pkg/synthesizer/publisher.go:64-85 | there is only one such slicing |
| `Publisher.BuildPools` | pkg/synthesizer/publisher.go:30-48 | one pool for exactly the compositions with devices, holding exactly their slices |
| `Publisher.PoolSpecs` | pkg/synthesizer/publisher.go:108-142 | the specs of one pool are its slicing, each with the right driver, node, pool and slice count |
| `Publisher.BuildResourceSlices` | pkg/synthesizer/publisher.go:100-146 | the same for every composition with devices, and no other pool |
| `Publisher.SameSlices` | pkg/synthesizer/publisher.go:100-146 | both builders cut every pool into the same slices, ceil(n/128) of them |
| `Synthesizers.BuildIndex` | pkg/synthesizer/synthesizer.go:96-100 | the index is the fold of the devices under their keys |
| `Synthesizers.IndexFinds` | pkg/synthesizer/synthesizer.go:96-100 | a lookup finds something if and only if some device has that pool and name, and then such a device's mapping |
| `Synthesizers.PublishedExactly` | pkg/synthesizer/publisher.go:30-62 | a pool and name are published if and only if some device has them |
| `Synthesizers.LookupAgrees` | pkg/synthesizer/synthesizer.go:84-105 | a slash-free device is found if and only if it was published, with a mapping whose composition owns the pool |
| `Synthesizers.ResolvesToItself` | pkg/synthesizer/synthesizer.go:96-100 | with distinct keys every device resolves to its own mapping |
| `Synthesizers.PairsSlashFree` | pkg/synthesizer/pairer.go:61-68 | every computed device has a slash-free name and belongs to a configured composition |
| `Synthesizers.PairsKeysDistinct` | pkg/synthesizer/pairer.go:61-68 | over all compositions no two computed devices share composition and name, so no index entry is overwritten |
| `Synthesizers.Synthesizer.constructor` | pkg/synthesizer/synthesizer.go:32-52 | nothing is published yet |
| `Synthesizers.Synthesizer.Recompute` | pkg/synthesizer/synthesizer.go:68-111 | the store is the index of the computed devices; if the publish works, store and publication agree, else the publication is unchanged |
| `EndToEnd.PublishedIsKnown` | pkg/plugin/plugin.go:131-145 | prepareClaim knows an allocated device if and only if it is published |
| `EndToEnd.OwnMembers` | pkg/plugin/plugin.go:131-161 | with distinct names it finds the members the device was made of |
| `EndToEnd.PairingHasMembers` | pkg/synthesizer/pairer.go:70-89 | in every mode no composite device is without members |
| `EndToEnd.EveryResultServed` | pkg/plugin/plugin.go:131-259 | after a recompute a claim on published devices gets one device per allocation result |
| `JsonPatch.JsonPatchEscape` | pkg/webhook/mutator.go:306-319 | the escaped string |
| `JsonPatch.UnescapeEscape` | pkg/webhook/mutator.go:306-319 | the two replacement passes of section 4 of RFC 6901 undo it, for every string |
| `JsonPatch.EscapeHasNoSlash` | pkg/webhook/mutator.go:306-319 | it never emits a slash |
| `JsonPatch.TokensOfPointer` | pkg/webhook/mutator.go:202-303 | a pointer made of slash-free parts decodes to exactly those parts, unescaped |
| `JsonPatch.InsertThenRemove` | pkg/webhook/mutator.go:243-299 | array paths follow section 4.1 of RFC 6902: a number inserts before its element, a hyphen appends, beyond the end it fails, and removing there undoes it |
| `Pods.EncodeHolds` | pkg/webhook/mutator.go:202-303 | the JSON of a pod holds annotations, containers, their requests, limits and claims, and all other fields, each where the API has it |
| `Pods.PatchApplies` | pkg/webhook/mutator.go:202-303 | each kind of patch, applied to the encoded pod, does exactly its edit and nothing else |
| `Mutation.OnlyWantedRemoved` | pkg/webhook/mutator.go:220-240 | in the resulting pod exactly the wanted resources are gone from requests and limits; all others keep their amounts |
| `Mutation.NothingLeftToMutate` | pkg/webhook/mutator.go:54-58 | the resulting pod bears the annotation and wants no mapped resource |
| `References.EveryRequestOnce` | pkg/webhook/mutator.go:269-282 | the blocks given to the containers of a claim, joined, are pair-0 … pair-(n-1), contiguous and in order |
| `References.AllReferencesDelivered` | pkg/webhook/mutator.go:266-300 | a container ends with its old references and all its blocks if and only if it had a claims list or asks for one mapped resource at most |
| `References.ReferencesConserved` | pkg/webhook/mutator.go:242-300 | over all containers each reference is given as often as the claims have it |
| `References.GivenOnceExactly` | pkg/webhook/mutator.go:242-300 | no reference is given twice if and only if claim names are distinct |
| `References.EncodeRefInjective` | pkg/webhook/mutator.go:275-282 | different references have different encodings |
| `ClaimEntries.ClaimsServe` | pkg/webhook/mutator.go:66-149 | one claim for each mapped resource that some container asks for, by resource name: its containers are those that ask, its pairs as many as they ask for together, its template named by the pod and the class, cut to 63 |
| `ClaimEntries.EntriesEntered` | pkg/webhook/mutator.go:243-264 | the mutated pod's claims are the old ones followed, claim by claim, by an entry of exactly a name, composite- and the class cut to 63, and the name of the claim's template |
| `ClaimEntries.ReferenceOf` | pkg/webhook/mutator.go:266-300 | each new reference of a container is to a claim whose resource it asks for, under the name of that claim's entry, and to one of its pairs |
| `PodReferences.AddedIs` | pkg/webhook/mutator.go:283-299 | with a claims list or one mapped resource in each container, what is appended to a container's list is all its blocks |
| `PodReferences.AdditionsConserved` | pkg/webhook/mutator.go:242-300 | over the containers of the mutated pod each reference is appended as often as the claims have it |
| `PodReferences.EachRequestInOneContainer` | pkg/webhook/mutator.go:242-300 | with distinct claim names too, pair-j of every claim is in exactly one container's new references, once |
| `PodReferences.NoOtherReferences` | pkg/webhook/mutator.go:242-300 | and no other request is in any |
| `Patching.AnnotationToken` | pkg/webhook/mutator.go:205-218 | the literal in the annotation path is the escaped annotation key |
| `Patching.RemovalKeyInjective` | pkg/webhook/mutator.go:221-227 | the removal key determines container and resource |
| `Patching.RemovalPatches` | pkg/webhook/mutator.go:220-240 | the removals apply and drop exactly the matched resources |
| `Patching.MakeRefs` | pkg/webhook/mutator.go:275-282 | the next Count references, and the running index after them |
| `Patching.GivePatches` | pkg/webhook/mutator.go:283-299 | the patches of one container apply and give it one block, replacing or appending |
| `Patching.ContainerPatches` | pkg/webhook/mutator.go:266-300 | the same for all containers of a claim |
| `Patching.OneClaimPatches` | pkg/webhook/mutator.go:242-300 | the pod claim entry, claim name and template name, and all its references |
| `Patching.BuildPatches` | pkg/webhook/mutator.go:202-303 | the whole list, run in order under RFC 6902, never fails and yields the resulting pod |
| `Mutator.FindResourceRequests` | pkg/webhook/mutator.go:167-185 | every wanted resource of every container exactly once, containers in order, for every map order |
| `Mutator.GroupByResource` | pkg/webhook/mutator.go:66-86 | per resource the total amount and the containers in order |
| `Mutator.SortedKeys` | pkg/webhook/mutator.go:88-93 | exactly the keys, sorted, none twice |
| `Mutator.BuildClaimSpec` | pkg/webhook/claim_builder.go:16-33 | requests pair-0 … pair-(n-1) of the class, one each |
| `Mutator.TemplateApi.Create` | pkg/webhook/mutator.go:98-135 | adds the template, unless it exists or the call fails |
| `Mutator.BuiltTemplate` | pkg/webhook/claim_builder.go:16-33 | the requests of a template built for a claim are named exactly as the claim's references, one for one |
| `Mutator.ResolvesExactly` | pkg/webhook/mutator.go:98-135 | whatever numbered template stands under a claim's name, its references resolve if and only if it has as many requests as the claim needs |
| `Mutator.SharedTemplateExactly` | pkg/webhook/mutator.go:98-135 | of two claims that share a new template the later one's references resolve if and only if it needs no more requests than the first |
| `Mutator.ReferenceResolves` | pkg/webhook/mutator.go:98-303 | each new reference of a container of the mutated pod bears the name of a pod claim entry; the template named there stands; and if it was made for that claim alone it has the request referred to |
| `Mutator.Provide` | pkg/webhook/mutator.go:98-135 | templates for the claims in key order up to the first failing call |
| `Mutator.Mutate` | pkg/webhook/mutator.go:54-149 | nothing for a mutated pod or one that wants nothing; an error only for a failing call; else patches that never fail and yield the resulting pod, whose claims list is the old one with an entry per claim that names a template standing in the API server |
| `TemplateGc.StepKeeps` | pkg/webhook/reconciler.go:40-97 | every step keeps: a template in its grace period, or referred to since then, is not about to be deleted |
| `TemplateGc.CollectionSafe` | pkg/webhook/reconciler.go:40-97 | in every run a template that a pod has referred to since within the grace period is there, unless others deleted it |
| `TemplateGc.ReusedTemplateDeleted` | pkg/webhook/mutator.go:98-135 | for every delay of at least the grace period a run that deletes a template in use |
| `TemplateGc.RecreatedTemplateDeleted` | pkg/webhook/reconciler.go:80-95 | a run that deletes a fresh template in use, after others deleted its namesake |
| `TemplateReconcilers.BuildReferenced` | pkg/webhook/reconciler.go:70-78 | exactly the template names that pods of the namespace refer to |
| `TemplateReconcilers.GroupByNamespace` | pkg/webhook/reconciler.go:53-58 | a partition of the templates by namespace |
| `TemplateReconcilers.VisitIsExact` | pkg/webhook/reconciler.go:80-95 | a visit deletes the template exactly if it is unreferenced, old enough and the call works |
| `TemplateReconcilers.NoGarbageLeft` | pkg/webhook/reconciler.go:40-97 | a fault-free pass deletes exactly the managed, unreferenced templates of the grace age, in every namespace |
| `TemplateReconcilers.TemplateReconciler.VisitOne` | pkg/webhook/reconciler.go:80-95 | one visit is one step of the timed model, with that effect |
| `TemplateReconcilers.TemplateReconciler.VisitNamespace` | pkg/webhook/reconciler.go:80-95 | the visits of a namespace delete exactly its doomed templates |
| `TemplateReconcilers.TemplateReconciler.ReconcileNamespace` | pkg/webhook/reconciler.go:63-96 | the same, and nothing if its pods cannot be listed |
| `TemplateReconcilers.TemplateReconciler.ReconcileAll` | pkg/webhook/reconciler.go:63-96 | all namespaces, in any order |
| `TemplateReconcilers.TemplateReconciler.ReconcileTemplates` | pkg/webhook/reconciler.go:40-103 | an undisturbed pass deletes exactly the doomed templates, for every set of failing calls, and is a run of the timed model |

## Left out

- Metrics, events, logging, HTTP and TLS, flags, charts and manifests.
- gRPC sockets and their cache: a driver call works, is lost, or works and reports an error; drivers accept exactly existing, allocated claims.
- A call that is still on its way when the process crashes and takes effect after the restart.
- `PrepareResourceClaims`, `UnprepareResourceClaims` and the mutex: calls on one claim UID do not overlap, calls on different UIDs do.
- Informers and debouncing: devices are inputs, recomputes are serial.
- CEL: `Match` is any predicate on an expression and a device; a missing environment is modelled.
- Opaque device configuration (`pkg/shadow/params.go`), NUMA nodes, attribute forwarding and published attributes: slices hold device names, mappings hold members and rail.
- SHA-256 in shadow names is any function with answers of eight characters; that no two claims share a shadow name is a hypothesis where it is needed, with its exact condition in `NamesApartExactly`.
- ShadowPlugin.CompositePlugin.PrepareClaim: a claim's device mapping is the same at each of its calls; it may also be missing.
- Compositions.MatchAttributeExact: member sources are distinct, as the code needs; `RepeatedSources` treats the others.
- AttributeMatching.MatchedByTypedValue: the same hypothesis on member sources.
- PairedExactly.AutoPairingExactly: the same hypothesis on member sources.
- Publisher.BuildSlices: slices hold names only, without attributes, which are copied.
- Pairer.BuildCompositeDevice: name, members and composition; not the forwarded attributes and the NUMA node.
- JSON encoding in the database is the identity on readable records; `GetShadows` is unused by the protocol and left out.
- Names are ASCII, so that characters are bytes; integers do not overflow.
- Pods with explicit JSON nulls, and init containers, which the webhook ignores.
- Kubernetes garbage collector, scheduler and kubelet, beyond the deletions and retries that the steps allow.
- `LogPublisher`, `DeviceStore.Len` and `DeviceStore.List`.
