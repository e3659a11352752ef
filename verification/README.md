# pk-deploy: verified model

pk-deploy moves signed deployment jobs from a control plane to workers. This project models how it does so, and
proves what the design relies on. It has three parts.

1. **Claim, execute, complete.** The control-plane `Store` (pending queue, claims, completed and evidence logs,
   component index), the worker's `Runner`, signing and verification, and the worker's metrics `Collector`. The
   store, the runner, the collector, the error list and the evidence recorder are classes whose methods are proved
   against specification functions. `Protocol` puts the same functions together into a transition system: one
   store, any number of workers, and outsiders who may enqueue, claim, complete and upsert at any moment. Each
   store method is one step because it holds one mutex; a worker cycle is cut between claim, verification, every
   executor call, recording and completion. Executor results, clock readings, lost requests and lost responses are
   free choices of each step. `Runs` holds the theorems about all runs; `SoloRuns` shows that a whole cycle of
   `Runner.RunOnce` is one of these runs, with the same effect on the store.
2. **Tags and images.** The tag parser, the tag order, the choice of the newest tag, and the image reference parser
   and printer. `Updates` ties them to the store: inventory, update request, signed set-image job, inventory again.
3. **Validation.** The loops of `Plan.Validate` and `Job.Validate`, the exact error lists they build, and the
   well-formedness these lists decide. Parts 1 and 2 use that predicate.

Conventions: strings are sequences of Unicode code points; time is an integer count of nanoseconds with 0 for Go's
zero time; nil and empty slices and maps are kept apart (`Slice`, `Dict`), because cloning and JSON treat them
differently. The HMAC, the JSON text of a payload and the JSON reading of a `components` output are uninterpreted
functions. `Wire.SameOnWire` says which envelopes one side may decode when the other encoded a given one.

## Where the code and its intentions differ

- Job ids have one-second resolution and `claimed` is keyed by id (`Updates.UpdateIdsCollideIff` says when two update
  jobs share one). A claim of a job whose id is claimed already makes the store forget the earlier one;
  `Claiming.LosesExactlyOnClaimedId` shows that nothing else does, and `Runs.NamesakeIsLost` gives the run. The
  multiset claims hold regardless.
- The tag order follows section 11 of Semantic Versioning 2.0.0 on releases whose numbers fit an int
  (`Tags.ReleasesFollowSemver`, `Tags.SaturatedReleases`). It ranks a pre-release above its release, against section
  11.3, unless the release has the larger sequence, or an equal one and alone a leading `v`
  (`Tags.PreReleaseRanksBelowIff`, `Tags.PrefixBeatsPreRelease`). Pre-releases of one version are ordered by sequence,
  prefix and text, which agrees with section 11.4 under the condition of `Tags.PreReleasesFollowSemverIff`, and with
  section 11.4.4 under that of `Tags.MoreIdentifiersRankHigherIff`. A major number of exactly 14 digits without a
  leading `v`, or any minor or patch of 14 digits, is taken for the release sequence (`Tags.ParseReleaseTag`).
- A repeated `Complete` can bring back a component that the first delivery removed: `StoreSpec.SweptComesBack` gives the
  input, a job that can be signed, and `StoreSpec.RepeatedComplete` the exact condition, for jobs whose environment is
  named. The server's handlers sign every job before they enqueue it, and what can be signed names its environment
  (`ComponentIndex.WellFormedIsNamed`), so only a program that calls `Store.Enqueue` itself with an unvalidated job can
  meet the remaining case, `StoreSpec.UnnamedInventoryIsListedLater`.
- An update of a component whose slug is longer than 99 characters is always refused at signing, because the plan
  id then exceeds the token limit (`Updates.UpdateIsQueuedIff`).
- Executors may report any status, and it is passed on unchanged; no claim is made that a final status is one of
  the known ones.

## Model

| member | source | states |
|---|---|---|
| Runs.JobsAreConserved | internal/controlplane/store.go:50-76 | in every run the multiset of enqueued jobs is that of pending jobs plus that of jobs handed out, and no job is handed out twice, whatever the ids |
| Runs.DistinctJobsHaveOnePlace | internal/controlplane/store.go:50-96 | with distinct ids every job is in exactly one of pending, claimed and retired at any time; it is claimed under its own id with its own contents, and retired exactly when a result under its id came in while it was claimed |
| Runs.NamesakeIsLost | internal/controlplane/store.go:61-76 | for any two jobs with one id that one claimer may take there is a run in which the first is neither pending, claimed nor retired |
| Runs.EarlierJobsGoFirst | internal/controlplane/store.go:61-76 | over any run, a job enqueued earlier that asks for no capability or label more is handed out before the later one |
| Runs.ExecutorCallsAreSafe | pkg/worker/runner.go:54-98 | every executor call in every run: job handed to that worker alone, MAC matched, well formed, required gates succeeded, not expired when verified, selector matched, executor registered, and every earlier step result is what that worker's own executor call for that step returned, without error and as a success |
| Runs.StepsRunAtMostOnce | pkg/worker/runner.go:84-98 | with distinct job ids no two executor calls of a run are for the same step of the same job |
| Runs.EvidenceMirrorsResults | internal/controlplane/store.go:79-96 | both logs have equal length, and for every place there is the action of the run that delivered the result: the bundle carries that result's ids, status, times and steps, and application, environment, artifacts and labels of the job claimed under that id at that moment, or blanks when none was |
| Runs.WorkerAndStoreAgree | internal/controlplane/store.go:298-317 | in every run, when a worker's result is delivered while its own job is the one claimed under the result's id, the store's evidence and the bundle the worker recorded agree in all but the error, up to nil and empty |
| Runs.HonestJobsAreExecuted | pkg/worker/runner.go:54-75 | in every run a job signed under the worker's key and verified before its expiry goes on to execution with the signed contents up to nil and empty |
| Runs.IndexIsItsHistory | internal/controlplane/store.go:241-296 | after any run the index is keyed by component id and holds under each id exactly the last listing no later inventory has swept |
| Runs.OtherComponentsStay | internal/controlplane/store.go:271-287 | in any continuation of a run a component that nothing lists again stays as it is, if it does not run on "kubernetes" or no inventory of its environment comes in |
| Runs.WorkersReportFinalResults | pkg/worker/runner.go:54-98 | in every run a worker about to record holds a final result: denied without steps, or all but the last step succeeded and the status is that of the execution |
| Runs.RunKeepsInv | internal/controlplane/store.go:50-96 | every step of every run keeps the invariants of queue, claims, workers, executor calls and logs together |
| Claiming.JobsArePartitioned | internal/controlplane/store.go:61-96 | without any assumption on ids each job is in exactly one of four places: waiting, claimed, retired or lost; a lost job shares its id with another, so distinct ids lose nothing |
| Claiming.LosesExactlyOnClaimedId | internal/controlplane/store.go:61-76 | a step loses track of a job if and only if it hands out a job whose id is claimed at that moment, and what is lost stays lost |
| Queueing.EarlierJobGoesFirst | internal/controlplane/store.go:61-76 | while a job waits, nobody is handed a later job that asks for at least as much |
| Queueing.StepKeepsQueueFacts | internal/controlplane/store.go:50-76 | every step keeps queue order, hand-out at most once, conservation and first come first served |
| Execution.StepKeepsExecutionFacts | pkg/worker/runner.go:54-143 | every step keeps what is known of workers and executor calls |
| Execution.HonestJobIsExecuted | pkg/worker/runner.go:54-75 | the same from any state with the invariants |
| Logs.LogsOnlyGrow | internal/controlplane/store.go:79-96 | along any run the completed and the evidence log are only extended |
| SoloRuns.CycleIsARun | pkg/worker/runner.go:31-82 | a whole cycle of a worker running alone, from its claim to recording or completing, is a run of the transition system, and leaves the store as `RunOnce` does |
| SoloRuns.ProcessIsARun | pkg/worker/runner.go:54-98 | its middle part, from the claimed job to the result that is recorded |
| StoreSpec.FirstMatch | internal/controlplane/store.go:61-76 | the position found matches the worker, no earlier one does, and nothing is found only when nothing matches |
| StoreSpec.DrainSplitsTheQueue | internal/controlplane/store.go:61-76 | claiming until nothing is left yields exactly the matching jobs in enqueue order and leaves the others in order |
| StoreSpec.RepeatedComplete | internal/controlplane/store.go:79-96 | with a named environment, repeating a Complete at once leaves the index unchanged if and only if no inventory in the result sweeps what the result itself listed last |
| StoreSpec.RepeatedCompleteOfOneReport | internal/controlplane/store.go:79-96 | so it does when at most one step reports components |
| StoreSpec.SweptComesBack | internal/controlplane/store.go:79-96 | a claimed two-step job and its result for which it does not: a component is gone after the first completion and back after the second |
| StoreSpec.SweepingJobIsWellFormed | pkg/job/job.go:54-71 | that job passes validation for any two tokens, so it can be signed |
| StoreSpec.UnnamedInventoryIsListedLater | internal/controlplane/store.go:271-281 | for a claimed job without environment, the inventory of one component without environment is dropped the first time and listed the second, a change unless the index held that component |
| ControlPlane.Store.Enqueue | internal/controlplane/store.go:50-58 | a clone is appended to the pending queue and nothing else changes |
| ControlPlane.Store.Claim | internal/controlplane/store.go:61-76 | the first matching pending job leaves the queue and becomes claimed under its id, or nothing changes and there is no job |
| ControlPlane.Store.Complete | internal/controlplane/store.go:79-96 | the claim is removed, both logs get one entry, the index takes in the steps in order; results of unknown jobs are accepted |
| StoreSpec.CompletedAsDelivered | internal/controlplane/store.go:79-96 | the completed log grows by exactly the result delivered, nil and empty steps apart |
| StoreSpec.CompleteWithReport | internal/controlplane/store.go:241-296 | for a result of one reporting step: an unlisted component goes if and only if the step answers an inventory whose environment is its own and it runs on "kubernetes"; every other stays as it was, and the last component listed under an id is there |
| StoreSpec.CompleteWithoutReport | internal/controlplane/store.go:241-257 | a result without a readable "components" output leaves the index alone |
| StoreSpec.AnswersInventoryIff | internal/controlplane/store.go:259-269 | a step answers an inventory exactly if its job is claimed for "pk-deploy-inventory" and the first plan step of its id has the executor "kubernetes.inventory" |
| ControlPlane.Store.Record | internal/controlplane/store.go:99-107 | the bundle is appended to the evidence and nothing else changes |
| ControlPlane.Store.UpsertComponents | internal/controlplane/store.go:176-184 | the listed components overwrite by id, the last one winning, blank ids skipped |
| ControlPlane.Store.IngestComponentState | internal/controlplane/store.go:241-257 | the loop over the steps has the effect of the list of observations the result makes |
| ControlPlane.Store.IsKubernetesInventory | internal/controlplane/store.go:259-269 | the loop decides whether the first plan step with this id has the inventory executor |
| ControlPlane.Store.ReplaceKubernetesInventoryLocked | internal/controlplane/store.go:271-287 | exactly the kubernetes components of the environment go, in whatever order the map is walked, and the listed ones come |
| ControlPlane.Store.TakeSnapshot | internal/controlplane/store.go:110-162 | the components are the one list of what the index holds that is strictly increasing by environment and then id, with the numbers of succeeded and of updatable ones; six fields stand for each pending job, and the logs are copied |
| SnapshotOrder.ListingIsUnique | internal/controlplane/store.go:138-152 | a set of components has only one listing strictly increasing by environment and id, so map iteration order cannot show |
| SnapshotOrder.CompareComponentsOrder | internal/controlplane/store.go:330-338 | the comparison is antisymmetric, transitive and zero only for equal environment and id |
| ControlPlane.CompleteKeepsKeyed | internal/controlplane/store.go:289-296 | completing keeps every key equal to the id of its component |
| ComponentIndex.ObserveLookup | internal/controlplane/store.go:271-296 | one observation: the last listing wins, an inventory removes exactly the unlisted kubernetes components of its environment, all else stays |
| ComponentIndex.InventoryOfUnlisted | internal/controlplane/store.go:271-287 | of the unlisted components an inventory takes out exactly those of its environment whose runtime is "kubernetes", and leaves every other as it was |
| ComponentIndex.LeftAloneStays | internal/controlplane/store.go:271-296 | over any history, components of other runtimes or environments that nobody lists stay as they are |
| ComponentIndex.IndexOfHistory | internal/controlplane/store.go:241-296 | closed form of the index after any history, in both directions |
| ComponentIndex.OthersStay | internal/controlplane/store.go:271-287 | components of other runtimes or environments are never removed |
| ComponentIndex.InventoryStepLookup | internal/controlplane/store.go:259-269 | for well-formed plans the first-match lookup asks whether some step has this id and the inventory executor |
| ComponentIndex.SecondDeliveryIff | internal/controlplane/store.go:241-257 | the same equivalence for any index, claimed job and steps |
| ComponentIndex.ListingsAgainIff | internal/controlplane/store.go:271-296 | listing again all that any history has listed changes nothing if and only if the history swept none of its last listings |
| ComponentIndex.SecondDelivery | internal/controlplane/store.go:241-257 | a second delivery changes nothing when at most one step reports components and the environment is named |
| ComponentIndex.WellFormedIsNamed | pkg/deploy/validation.go:44-53 | every job that passes validation, so every job that is signed, names its environment |
| ComponentIndex.InventoriesCommute | internal/controlplane/store.go:271-296 | inventories of two environments with disjoint ids and own components give the same index in either order |
| RunnerSpec.ProcessIsGood | pkg/worker/runner.go:31-143 | every cycle ends denied without steps, or with at most one result per plan step, all but the last succeeded, succeeded exactly when all steps ran and succeeded, else the status of the last step |
| RunnerSpec.RunStepTells | pkg/worker/runner.go:100-143 | every field of a step result: without an executor it fails and says so; an error means failed, with the error's text if the executor left no message; otherwise status and message are the executor's; ids and times are filled in only where blank |
| RunnerSpec.ProcessTells | pkg/worker/runner.go:31-98 | the whole cycle: denied by the verifier or by the selector, each with its id, plan, reason and times, or executed, every result being what came of its step, and status, message and finish those of the last one unless all succeeded |
| RunnerSpec.BundleTells | pkg/worker/runner.go:145-166 | every field of the recorded bundle, the error included |
| RunnerSpec.StepSucceedsIff | pkg/worker/runner.go:100-143 | a step succeeds exactly when its executor is registered, returns no error and reports success or nothing; its outputs are the executor's |
| RunnerSpec.ResultsFollowPlan | pkg/worker/runner.go:84-143 | when executors leave step ids blank, the results carry the ids of the plan's first steps in order |
| RunnerSpec.StepIntervalsAreOrdered | pkg/worker/runner.go:84-143 | with a running clock and executors that leave times blank, step intervals follow one another inside the job interval |
| Worker.Runner.RunOnce | pkg/worker/runner.go:31-82 | one start and one finish are counted per claimed job; bundle, completed result, returned result and metric carry the one final status; a failed recording keeps the result from being completed |
| Worker.Runner.Execute | pkg/worker/runner.go:84-98 | the loop runs the steps in order and leaves at the first that does not succeed |
| Worker.Runner.ExecuteStep | pkg/worker/runner.go:100-143 | blanks are filled in from step and clock, an error always means failed, an unregistered executor fails the step |
| Worker.Runner.Record | pkg/worker/runner.go:145-166 | the bundle of the final phase is handed to the recorder, if there is one |
| Signing.SignJob | pkg/job/signing.go:22-44 | the chain of checks: the refusal of the first that fails, or the envelope with the MAC over the canonical payload |
| Signing.SignYieldsIff | pkg/job/signing.go:22-44 | an envelope comes out exactly for well-formed jobs, proper keys and jobs that can be written, and it is the one with the trimmed key id, the job and the MAC of its JSON text |
| Signing.VerifyEnvelope | pkg/job/signing.go:47-85 | the chain of checks in order, and the job back when the MAC matches |
| Signing.VerifyAcceptsIff | pkg/job/signing.go:47-106 | an envelope is accepted exactly if algorithm, key id, signature, job, expiry, key and MAC all pass, and the job in it comes back |
| Signing.VerifyRefusesIff | pkg/job/signing.go:47-59 | a refused envelope is told the first of the checks on itself that fails |
| Signing.LaterRefusals | pkg/job/signing.go:60-85 | and after these the first that fails of job, expiry, key and MAC |
| Signing.WorkerAcceptsIff | cmd/pk-deploy-worker/main.go:122-131 | the worker program accepts exactly what passes them under its one key id and secret |
| Signing.VerifiedIsVouched | pkg/job/signing.go:47-85 | an accepted job has a matching MAC under the expected key, is well formed, has its required gates succeeded and is not expired |
| Signing.SignedJobIsAccepted | pkg/job/signing.go:22-106 | whatever Sign accepts, Verify accepts with the same key after any nil and empty exchange, up to its expiry and not after, and returns it |
| Signing.HonestClaimIsExecuted | cmd/pk-deploy-worker/main.go:122-131 | a worker with the key that was allowed to claim the job verifies it and passes its own selector check |
| Wire.WellFormedOnWire | pkg/deploy/validation.go:16-32 | validation cannot tell a job from what arrives of it |
| Wire.MatchesOnWire | pkg/worker/types.go:76-88 | the selector check cannot either |
| Wire.CanonIff | pkg/job/signing.go:87-106 | two jobs have one canonical form exactly if they agree in every field, nil and empty collections apart |
| Signing.CloneKeepsJob | pkg/job/job.go:104-114 | a clone agrees with the job in every field in that sense |
| Selection.CheckMatches | pkg/worker/types.go:76-88 | true exactly when every required capability is offered and every required label has its value |
| Validation.NoPlanErrors | pkg/deploy/validation.go:16-32 | no error if and only if the plan is well formed |
| Validation.NoJobErrors | pkg/job/job.go:54-71 | no error if and only if the job is well formed |
| Validation.NoErrorsIff | pkg/deploy/validation.go:16-146 | the same with every rule spelled out, field by field |
| Validation.TokenMeans | pkg/deploy/validation.go:160-177 | a token is white space around a text of at most 128 bytes without white space or control characters |
| Validation.NoDuplicateErrors | pkg/deploy/validation.go:132-146 | no duplicate error if and only if the non-blank trimmed ids are distinct |
| Validation.DuplicateErrorsCount | pkg/deploy/validation.go:132-146 | the number of duplicate errors is the number of non-blank ids minus the number of distinct ones |
| Validation.NoTokenProblem | pkg/deploy/validation.go:160-177 | no problem if and only if the trimmed text is non-empty, at most 128 bytes, and free of space and control characters |
| Validation.ValidateToken | pkg/deploy/validation.go:160-177 | the loop finds the first offending character |
| Validation.ValidateUnique | pkg/deploy/validation.go:132-146 | the loop with its seen map lists one error for each repetition of a non-blank id |
| Validation.ValidateArtifacts | pkg/deploy/validation.go:55-67 | errors in order, none if and only if all artifacts are good and distinct |
| Validation.ValidateGates | pkg/deploy/validation.go:69-80 | errors in order, none if and only if all gates are good and distinct, the required ones succeeded |
| Validation.ValidateChecks | pkg/deploy/validation.go:82-93 | errors in order, none if and only if all checks are good and distinct |
| Validation.ValidateSteps | pkg/deploy/validation.go:107-122 | errors in order, none if and only if there are steps, all good and distinct |
| Validation.ValidatePlan | pkg/deploy/validation.go:16-32 | the whole list of errors, empty if and only if the plan is well formed |
| Validation.ValidateJob | pkg/job/job.go:54-71 | the whole list of errors, empty if and only if the job is well formed |
| Metrics.Collector.JobStarted | pkg/metrics/metrics.go:39-45 | started and active go up by one, nothing else changes |
| Metrics.Collector.JobFinished | pkg/metrics/metrics.go:48-63 | one outcome, one duration with negative ones counted as zero, and active lowered but not below zero |
| Metrics.Collector.DecrementActive | pkg/metrics/metrics.go:65-75 | the retry loop leaves active at one less, or alone when it is not positive |
| Interleaving.Linearizable | pkg/metrics/metrics.go:39-75 | for any number of threads and any interleaving of atomic operations there is a run with the same effect in which each decrement is one step to max(active - 1, 0), and active is never negative |
| Interleaving.FinishAlone | pkg/metrics/metrics.go:48-75 | the atomic operations of one finish run alone, load and exchange included, add up to the sequential effect, from any counters |
| Interleaving.StartAlone | pkg/metrics/metrics.go:39-45 | and so do those of one start |
| Interleaving.FloorIsUnreachable | pkg/metrics/metrics.go:65-75 | when each finish follows its own start, a thread about to lower active finds it positive |
| Interleaving.RunKeepsBalance | pkg/metrics/metrics.go:39-75 | every interleaving keeps active equal to the threads between raising and lowering, and the totals of outcomes and durations |
| Interleaving.QuiescentTotals | pkg/metrics/metrics.go:39-63 | when all threads are done: active is zero, started = succeeded + failed = durations counted, and successes are those of the calls, and total time is the sum of their positive durations |
| Interleaving.StepLowersMeasure | pkg/metrics/metrics.go:65-75 | every atomic operation of every thread lowers one measure of the whole system |
| Interleaving.RunsAreBounded | pkg/metrics/metrics.go:65-75 | so every interleaving of finitely many calls ends |
| Interleaving.FailuresAreCharged | pkg/metrics/metrics.go:65-75 | failed exchanges are bounded by the changes of active times the other threads |
| Tags.SemverMatchSound | cmd/pk-deploy-worker/kubernetes.go:416-419 | a match splits the tag into an optional v and three maximal dotted digit runs |
| Tags.SemverMatchComplete | cmd/pk-deploy-worker/kubernetes.go:416-419 | and every text of that shape is matched with these captures |
| Tags.FindRunIsLeftmost | cmd/pk-deploy-worker/kubernetes.go:416-419 | the sequence is the leftmost delimited run of 14 digits, and "" only when there is none |
| Tags.SequenceOfPieces | cmd/pk-deploy-worker/kubernetes.go:416-419 | across any delimiter the sequence is that of the first piece, or else of the second |
| Tags.DelimitersOfSequence | cmd/pk-deploy-worker/kubernetes.go:416-419 | 14 digits between hyphens, underscores or dots are a sequence, and between anything else they are not |
| Tags.ParseReleaseTag | cmd/pk-deploy-worker/kubernetes.go:448-462 | what parsing a release tag yields for every choice of its parts, saturation and 14-digit numbers included |
| Tags.ReleaseTagRoundTrip | cmd/pk-deploy-worker/kubernetes.go:448-462 | printing and parsing "vM.m.p-env-SEQ-hash" gives back all four fields under the stated conditions |
| Tags.DigitOrderIsNumericOrder | cmd/pk-deploy-worker/kubernetes.go:484-489 | byte order on digit strings of equal length is numeric order |
| Tags.CompareTagsOrder | cmd/pk-deploy-worker/kubernetes.go:468-496 | the comparison is antisymmetric, transitive, and zero only for equal candidates |
| Tags.ParsedTagsDiffer | cmd/pk-deploy-worker/kubernetes.go:448-496 | parsed tags compare as zero if and only if their texts are equal |
| Tags.CompareRankOrder | cmd/pk-deploy-worker/kubernetes.go:498-504 | sameTagRank is the equivalence of the comparison without the raw text |
| Tags.OpaqueTagsRankBelow | cmd/pk-deploy-worker/kubernetes.go:468-474 | a tag that does not begin with three dotted numbers ranks below every tag that does |
| Tags.OpaqueTagsCompareAsTexts | cmd/pk-deploy-worker/kubernetes.go:490-495 | two such tags compare as texts |
| Tags.ReleasesFollowSemver | cmd/pk-deploy-worker/kubernetes.go:468-483 | on releases that fit an int, each with or without a leading v, the order is the numeric one of section 11 of Semantic Versioning 2.0.0 |
| Tags.SaturatedReleases | cmd/pk-deploy-worker/kubernetes.go:455-496 | without that bound, and for either prefix on either tag, the saturated triples decide; where they are equal, the texts for one prefix, and for two the sequences and then the v |
| Tags.PreReleaseRanksBelowIff | cmd/pk-deploy-worker/kubernetes.go:484-495 | a pre-release ranks below its release, as section 11.3 wants, exactly when the release has the larger sequence, or an equal one and alone a leading v |
| Tags.PreReleaseRanksAboveRelease | cmd/pk-deploy-worker/kubernetes.go:484-495 | with one prefix on both tags every pre-release of every version ranks above the release |
| Tags.PrefixBeatsPreRelease | cmd/pk-deploy-worker/kubernetes.go:484-495 | "1.0.0-rc" ranks below "v1.0.0", "v1.0.0-rc" above it |
| Tags.PreReleaseOrder | cmd/pk-deploy-worker/kubernetes.go:484-495 | two pre-releases of one triple compare by the sequences found in them, then by prefix, then as texts |
| Tags.PreReleasesFollowSemverIff | cmd/pk-deploy-worker/kubernetes.go:484-495 | the exact condition, on sequences, prefixes and the first differing identifiers, under which two pre-releases of one triple stand in the order of section 11.4 |
| Tags.LowerIsLess | cmd/pk-deploy-worker/kubernetes.go:490-495 | the part of that condition on identifiers holds for two words neither of which begins the other, and for two numbers of one length |
| Tags.MoreIdentifiersRankHigherIff | cmd/pk-deploy-worker/kubernetes.go:484-495 | more identifiers after equal ones rank higher, as section 11.4.4 wants, always with one prefix, and with two exactly when the longer tag has the larger sequence, or an equal one and the v |
| Tags.LatestTag | cmd/pk-deploy-worker/kubernetes.go:421-438 | the append loop, the sort and the last element amount to a one-pass maximum and the keep-current rule |
| Tags.LatestAnswer | cmd/pk-deploy-worker/kubernetes.go:421-438 | the answer is the one listed tag that no listed tag exceeds, unless the current tag, listed or not, has a release sequence and ranks with it; then the current tag; an empty list has none |
| Tags.LatestIgnoresOrder | cmd/pk-deploy-worker/kubernetes.go:421-438 | neither order nor repetition of the listed tags matters |
| Tags.LatestHasMaximalRank | cmd/pk-deploy-worker/kubernetes.go:421-438 | the answer is the current tag or a listed one, and no listed tag ranks above it |
| Tags.LatestIsStable | cmd/pk-deploy-worker/kubernetes.go:421-438 | feeding the answer back as current gives it again |
| Tags.LatestOnlyMovesUp | cmd/pk-deploy-worker/kubernetes.go:431-437 | a listed current tag with a release sequence gives way only to one of strictly greater rank |
| Images.ParsedParts | cmd/pk-deploy-worker/kubernetes.go:277-300 | what holds of every parsed reference: host, no "@" or slash where none can be |
| Images.ParseWithSlash | cmd/pk-deploy-worker/kubernetes.go:277-300 | a first path element with a dot or a colon, or "localhost", is the registry and the rest the repository; otherwise the whole path is a repository of "registry-1.docker.io"; tag and digest are what follows |
| Images.ParseWithoutSlash | cmd/pk-deploy-worker/kubernetes.go:277-300 | a path without a slash is a repository of "registry-1.docker.io" |
| Images.EveryImageHasParts | cmd/pk-deploy-worker/kubernetes.go:277-300 | every raw text is made of such a path, tag and digest, so the two cover all texts |
| Images.WithTagRoundTrip | cmd/pk-deploy-worker/kubernetes.go:277-317 | for every raw text and plain tag, printing and parsing gives the same registry and repository, that tag and no digest |
| Images.WithDigestRoundTrip | cmd/pk-deploy-worker/kubernetes.go:277-317 | the same with a digest appended, which comes back too |
| Images.TagComesBackIff | cmd/pk-deploy-worker/kubernetes.go:277-317 | the tag comes back if and only if it has no "/", ":" or "@" and no trailing white space |
| Inventory.Components | cmd/pk-deploy-worker/kubernetes.go:213-268 | the loop reports one component per container, in order, with the newest version and whether it is an update |
| Inventory.ObservedTells | cmd/pk-deploy-worker/kubernetes.go:213-268 | the names, versions, images and digests in a reported component |
| Inventory.UpdateIsAnnouncedIff | cmd/pk-deploy-worker/kubernetes.go:232-242 | an update is announced exactly if the image has a tag, the newest listed tag differs from it, and a digest is answered for that tag |
| Inventory.ReplicasTell | cmd/pk-deploy-worker/kubernetes.go:213-221 | succeeded exactly if at least one replica is wanted, one being the default, and as many are ready |
| Inventory.LabelsTell | cmd/pk-deploy-worker/kubernetes.go:229-242 | the labels say why the newest tag or its digest is not known |
| Inventory.SetImageTells | cmd/pk-deploy-worker/kubernetes.go:68-97 | refused exactly for blank inputs or an unknown place; otherwise the container at the named place gets the trimmed image and nothing else changes |
| Inventory.UpdateSettles | cmd/pk-deploy-worker/kubernetes.go:213-268 | after an update to a plain tag the container shows the version that was newest, in the same repository, and reports no update |
| Inventory.UpdateTakesHoldIff | cmd/pk-deploy-worker/kubernetes.go:213-317 | whatever the registry lists, the shown version becomes the announced one if and only if its tag is plain |
| Inventory.UpdatesAreListed | cmd/pk-deploy-worker/kubernetes.go:421-438 | an update is only ever announced to a listed tag |
| Updates.UpdateConverges | internal/controlplane/server.go:146-159 | for tags of the OCI Distribution Specification: inventory, accepted update request, set-image, inventory, and then the component shows the announced version in the same registry and repository and a second request is refused |
| Updates.StoredUpdateConverges | internal/controlplane/store.go:79-96 | the same in terms of the store, where the two inventories are completed inventory jobs whose outputs read back as the reports |
| Updates.QuietResult | internal/controlplane/store.go:241-257 | a result without components, such as that of a set-image job, leaves the index alone |
| Updates.UpdateIsCarriedOut | cmd/pk-deploy-worker/kubernetes.go:68-97 | the step of the queued job reaches the container it was made for and renames nothing |
| Updates.UpdateIsQueuedIff | internal/controlplane/server.go:141-164 | a job is queued exactly if the component is held with an update, a known image and a digest with a colon, its id and environment are tokens and its slug has at most 99 characters, key id and secret are proper, and the expiry can be written |
| Updates.QueuedJobIs | internal/controlplane/server.go:158-164 | what is queued is the update job of the component held under that id, with a MAC under the server's key |
| Updates.UpdateIsRefusedIff | internal/controlplane/server.go:141-157 | when each of the refusals is given |
| Updates.UpdateJobTells | internal/controlplane/server.go:247-288 | ids, application, environment, issue, expiry and nonce of the queued job |
| Updates.UpdatePlanTells | internal/controlplane/server.go:261-279 | its one artifact and its one step with the four inputs |
| Updates.UpdateIdsCollideIff | internal/controlplane/server.go:247-254 | two update jobs share an id if and only if their components share a slug and they are made within one and the same second |
| Updates.UpdateTakers | internal/controlplane/server.go:281-284 | a worker may take an update job if and only if it sets images in the environment of the component |
| Updates.InventoryIsRecognized | internal/controlplane/server.go:212-245 | the answer to the control plane's own inventory job is taken as the inventory of its environment |
| Updates.InventoryJobTells | internal/controlplane/server.go:212-245 | ids, application, environment, issue, expiry and nonce of the inventory job |
| Updates.InventoryStepTells | internal/controlplane/server.go:225-234 | its one step |
| Updates.InventoryJobIsSignedIff | internal/controlplane/server.go:212-245 | exactly when it can be signed |
| Updates.InventoryTakers | internal/controlplane/server.go:237-241 | a worker may take it if and only if it takes inventories in that environment |
| Updates.InventoryIsTakenIn | internal/controlplane/store.go:241-287 | so completing it is one inventory of that environment in the index |
| Slugs.MakeSlug | internal/controlplane/server.go:295-314 | the builder loop writes the character-wise image, trimmed of dashes, or the fallback |
| Slugs.SlugIsSlug | internal/controlplane/server.go:295-314 | only lower-case letters, digits and inner dashes are left, and never nothing |
| Slugs.SlugFixedPoints | internal/controlplane/server.go:295-314 | a text is its own slug if and only if it has that shape |
| Slugs.CapitalsReadAsSmall | internal/controlplane/server.go:295-314 | capital letters are read as small ones |
| Slugs.OthersReadAsDash | internal/controlplane/server.go:295-314 | anything but letters and digits is read as a dash |
| Slugs.OuterDashesDoNotCount | internal/controlplane/server.go:295-314 | dashes at either end do not count, and nothing reads as "component" |
| Slugs.SeparatorsDoNotShow | internal/controlplane/server.go:295-314 | component ids that differ only in characters with the same slug character have one slug |
| Evidence.CloneBundle | pkg/evidence/evidence.go:82-90 | the copy says the same and consists of new objects only |
| Evidence.CloneEntries | pkg/deploy/clone.go:108-117 | a new slice of the same length, each element with a map of its own, nil staying nil |
| Evidence.MemoryRecorder.Record | pkg/evidence/evidence.go:55-69 | a copy of what the bundle says now is appended, unless the context is done or the id is blank |
| Evidence.MemoryRecorder.Bundles | pkg/evidence/evidence.go:72-79 | the recorded values in order, in objects the recorder does not keep |
| Evidence.Session.CallersCannotReach | pkg/evidence/evidence.go:55-79 | whatever happens to the objects that callers hold, if no other object changes, the recorder's contents stay equal to the log of values at recording time |
| Evidence.Session.Perform | pkg/evidence/evidence.go:55-79 | any one thing a caller can do: a write to a held map or array, a new object, a recording, which appends the value of that moment to the log, or a reading, which yields the log |
| Evidence.Session.Interact | pkg/evidence/evidence.go:55-79 | over any number of these in any order every reading is the log as it stood then, and no entry of the log ever changes |
| Evidence.Session.Read | pkg/evidence/evidence.go:72-79 | what is read back is that log, and the objects handed out may be changed freely |

## Left out

- HTTP handlers, routing, the page template, the admin token check and configuration from the environment.
- The network clients for Kubernetes, registries and `http.get`: their answers are parameters or free choices.
- Inventory.SetImage: the strategic-merge patch is modelled as replacing the image of the named container; that the
  Kubernetes API would add a container of an unknown name is not modelled.
- HMAC-SHA256, base64 and JSON internals: uninterpreted functions; no unforgeability is claimed beyond "the MAC matched".
- Strings that are not valid UTF-8: JSON decoding never yields them.
- RunnerSpec.ClaimedJobId: counts code points where the code slices bytes, which differs only for non-ASCII signatures of unverified jobs.
- Overflow of 64-bit counters and the saturation of durations and of times.
- Updates.UpdateIsQueuedIff: does not cover instants from the year 10000 on, where the time formats get longer and JSON cannot write the job.
- Updates.UpdateIdsCollideIff: the same.
- Real time-outs, cancellation while a step runs, and panics inside executors.
- Prometheus text, `Metrics()` strings and the non-atomic read of all counters in the collector's `Snapshot`.
- The executor registry beyond the set of registered names.
- Nil receivers of collectors and stores.
- Store values are mathematical values, so isolation of what the store holds from its callers is not stated; isolation
  is proved on the heap for the evidence recorder, whose cloning functions the store shares.
- Evidence: slices are whole arrays, so spare capacity and overlapping slices are not modelled.
- The store model leaves the `Checks` and `Metadata` of a bundle out, which neither the store nor the runner ever sets.
- Texts of error messages are abbreviated; which error is reported, and that its text becomes the message of a denied result, is modelled.
- Results travel unchanged: what JSON does to a result on its way to the store is not modelled.
- `slices.SortFunc` is modelled by insertion sort; only sortedness and being a permutation are used.
- Direct calls of `Store.Record` are not steps of the transition system, since the correspondence of the two logs is about runs without them.
