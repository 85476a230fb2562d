# Verified models of the QEMU EDU lab

This project models the stateful cores of the Yocto QEMU EDU lab in Dafny and proves what
they promise. `dafny verify dfyconfig.toml` checks all of it.

* **The EDU driver** (`EduPattern.dfy`, `EduDevice.dfy`, `EduDriver.dfy`). The device, its DMA engine and the
  interrupt handler are a transition system with one step per handler statement; the driver
  is a class whose operations are interleaved with arbitrary runs of that system. The
  device contract is that RUN clears only when the copy is finished, an acknowledgement clears
  exactly the written bits, and the engine is idle at probe. Spurious and repeated interrupts
  are allowed; the ghost field `noisy` says when one occurred. Safety holds with noise.
* **The direct-eSDK lifecycle** (`DeferredCancellation.dfy`, `LocalConf.dfy`,
  `SdkConfiguration.dfy`, `SdkTrace.dfy`, `SdkIteration.dfy`). Every external command may
  fail, be cancelled, or change the files it owns: its answers come one by one from an
  arbitrary sequence. A ghost trace records what happened; the theorems say what the trace of
  any run must contain. A ghost flag says whether an answer was a bad one - a command that
  raises, fails or leaves the workspace other than it is meant to, a check or probe that
  refuses, a digest or text that differs, a signal - and a run without one is committed.
* **Diagnostics** (`RuntimeEvidence.dfy`, `DiagnosticsContract.dfy`, `DiagnosticsWorld.dfy`,
  `DiagnosticsTheorem.dfy`, `DiagnosticsMeaning.dfy`, `Diagnostics.dfy`). The mutating context
  is followed field by field and shown to satisfy the separately written document validator in
  every environment; each status, the result and the exit code are then characterised by what
  the run read.
* **Algorithms**: `MappingScopes.dfy`, `MappingFrames.dfy`, `MappingLayouts.dfy` and
  `MappingTrees.dfy` (duplicate mapping keys), `SourceLock.dfy` (locked paths and synchronisation),
  `VisibleMarkdown.dfy` (comment scanning), `JsonShape.dfy` (bounds on decoded JSON) and
  `WorkflowModel.dfy` (task dependencies). `Wrappers.dfy` and `Strings.dfy` hold
  what they share.

Arbitrary functions of a counter (`world`, `git`, `refused`) and nondeterministic assignment
(`*`) stand for anything the environment may answer. Words,
digests and commit ids are numbers where only equality and an accepted grammar matter.

## What the code does not do

* Cleanup does not restore the base configuration in every case. It asks whether paths exist
  outside any handler (`scripts/sdk_iteration.py`, lines 1132, 1146, 1152-1156, 1174 and 1307),
  and so does the workspace verification (lines 879, 916 and 924), whose callers accept only
  SDK errors. An OSError there, such as a workspace directory that may not be searched, ends
  cleanup. `CleanupUninterrupted` gives the exact condition: base is restored last if and only
  if none of the probes before the restoration raises.
  `RefusedProbeLeavesTheBaseUnrestored` is such a run.
* A signal that arrives while the last cleanup fails is noted on the cleanup's own exception.
  If the body had failed before, only the text of that exception is kept (line 1469), without
  its notes; if the evidence cannot be unlinked, nothing of it is (line 1466). `FinallyTells`
  gives the exact condition, `SignalOfTheLastCleanupIsLost` an input.
* The duplicate-key check does not see the first line of a sequence inside a sequence: its
  pattern allows one item prefix (`scripts/validate_ci.py:20-23`). Keys of the mapping that
  begins there are compared with those of another mapping, or not at all.
  `RightUnderEveryNaming` says for which layouts the report is right: by `FlatIsFaithful` and
  `FaithfulIsLone`, if each mapping that begins there has a single key without a mapping as its
  value, and only if it has a single key. `FalseAlarm`, `MissedDuplicate` and `LoneIsNotEnough`
  are inputs on which it is wrong.
* The catalogue bounds manifest layers only from below, the diagnostics document at 16. A run
  that inspects a larger manifest fails in its own validator (`ReportValidates` gives the exact
  condition, `SeventeenLayersAreRefused` an input).
* The workflow validator accepts dependency circles that are wholly Done or wholly not
  executable, self-dependencies apart, and no others (`CirclePassesExactly`, and
  `CircleModelPassesExactly` for a whole model; `DoneCircleIsSound` and `IdleCircleIsSound`
  are inputs).

## Model

| member | source | states |
|---|---|---|
| EduDevice.EveryRunKeepsGuarantee | meta-qemu-edu/recipes-kernel/qemu-edu-driver/files/qemu_edu.c:117-138 | however long the handler, the engine and spurious interrupts run, finished transfers only grow in number, none is issued or started by itself, bus mastering stays, and a byte of the RAM buffer changes only by being recorded as stored by the device |
| EduDevice.ProgrammedRegistersStay | meta-qemu-edu/recipes-kernel/qemu-edu-driver/files/qemu_edu.c:391-396 | source, destination, count, direction and interrupt enable change only by the operation thread's own stores, over every run of the environment |
| EduDevice.QuietRun | meta-qemu-edu/recipes-kernel/qemu-edu-driver/files/qemu_edu.c:109-138 | with nothing in flight, a faithful device and handler change no buffer, memory or interrupt count, over every run |
| EduDevice.TransferRun | meta-qemu-edu/recipes-kernel/qemu-edu-driver/files/qemu_edu.c:384-399 | from the start of a transfer, over every run of a faithful device: exactly one of running engine, owed interrupt, raised bit, handler and completion carries the transfer's single interrupt, and the copied prefix equals the source |
| EduDevice.TransferRunWithoutInterrupts | meta-qemu-edu/recipes-kernel/qemu-edu-driver/files/qemu_edu.c:394-396 | with completion interrupts suppressed no run produces a completion |
| EduDevice.SilentRun | meta-qemu-edu/recipes-kernel/qemu-edu-driver/files/qemu_edu.c:394-396 | after a suppressed transfer no run counts an interrupt |
| EduDevice.CompletionMeansFinished | meta-qemu-edu/recipes-kernel/qemu-edu-driver/files/qemu_edu.c:366-373 | a completion of a faithful transfer means the copy is finished, one interrupt was counted and its status was the DMA bit |
| EduDevice.WholeInterrupt | meta-qemu-edu/recipes-kernel/qemu-edu-driver/files/qemu_edu.c:117-138 | the handler from entry to return acknowledges what it read, records it, counts one interrupt and signals each completion whose bit it read |
| EduDevice.NoInterruptIsLost | meta-qemu-edu/recipes-kernel/qemu-edu-driver/files/qemu_edu.c:117-138 | over every run of handler, engine and noise, a pending status bit stays pending, is held by the handler, or has had an interrupt counted since |
| EduDevice.PendingStays | meta-qemu-edu/recipes-kernel/qemu-edu-driver/files/qemu_edu.c:109-115 | a bit that arrives between the read and the acknowledgement of another is not cleared by it |
| EduDevice.RecordedBeforeSignalled | meta-qemu-edu/recipes-kernel/qemu-edu-driver/files/qemu_edu.c:117-138 | a completion is signalled only after its status was recorded and its interrupt counted |
| EduDevice.IdleRun | meta-qemu-edu/recipes-kernel/qemu-edu-driver/files/qemu_edu.c:361-382 | with the engine idle and nothing owed no run raises an interrupt |
| EduPattern.PatternTells | meta-qemu-edu/recipes-kernel/qemu-edu-driver/files/qemu_edu.c:356-359 | two indexes have the same pattern byte exactly when they agree modulo 256 |
| EduPattern.PatternBits | meta-qemu-edu/recipes-kernel/qemu-edu-driver/files/qemu_edu.c:356-359 | the pattern is the exclusive or of its three parts, bit by bit |
| EduDriver.SentinelNeverPasses | meta-qemu-edu/recipes-kernel/qemu-edu-driver/files/qemu_edu.c:449-467 | pattern and sentinel differ at every index for every length, so an unwritten byte never verifies |
| EduDriver.QemuEdu.Probe | meta-qemu-edu/recipes-kernel/qemu-edu-driver/files/qemu_edu.c:555-574 | refuses exactly the buffers that do not fit below the 28-bit mask; otherwise every lock-release invariant holds |
| EduDriver.QemuEdu.IrqStatement | meta-qemu-edu/recipes-kernel/qemu-edu-driver/files/qemu_edu.c:117-138 | the interrupt handler, one statement per step, refines the handler transition; any interleaving can stop between two statements |
| EduDriver.QemuEdu.AckPendingIrqs | meta-qemu-edu/recipes-kernel/qemu-edu-driver/files/qemu_edu.c:109-115 | exactly the bits that were read are acknowledged, and bits that arrive meanwhile stay; under any interleaving nothing the thread owns changes, and with nothing in flight and no noise no interrupt status is left and nothing else has changed |
| EduDriver.QemuEdu.LatchFault | meta-qemu-edu/recipes-kernel/qemu-edu-driver/files/qemu_edu.c:375-379 | after the latch bus mastering is off, the fault is set and no handler is running; with an idle engine that owes nothing and no noise no interrupt status is left |
| EduDriver.QemuEdu.WaitForDma | meta-qemu-edu/recipes-kernel/qemu-edu-driver/files/qemu_edu.c:361-382 | success exactly for a completion with RUN clear and the DMA status alone, ETIMEDOUT exactly for a timeout with RUN clear, EIO otherwise; any failure latches the fault and turns bus mastering off; without noise it succeeds exactly when the wait does not time out, and then the transfer is finished |
| EduDriver.QemuEdu.ProgramTransfer | meta-qemu-edu/recipes-kernel/qemu-edu-driver/files/qemu_edu.c:389-395 | the registers hold exactly the requested addresses and length while the engine is idle |
| EduDriver.QemuEdu.DmaTransfer | meta-qemu-edu/recipes-kernel/qemu-edu-driver/files/qemu_edu.c:384-399 | success means the transfer issued by this call, and no other, has finished, however many stale or spurious completions arrive; every register store is logged and safe; without noise it succeeds exactly when the wait does not time out and then the data and one interrupt have arrived |
| EduDriver.QemuEdu.FillBuffer | meta-qemu-edu/recipes-kernel/qemu-edu-driver/files/qemu_edu.c:440-442 | after the loop each of the first bytes is the requested fill unless the device has stored it since |
| EduDriver.QemuEdu.VerifyBuffer | meta-qemu-edu/recipes-kernel/qemu-edu-driver/files/qemu_edu.c:460-468 | acceptance exactly when the bytes read are the pattern, each of them stored by the device after the sentinel fill |
| EduDriver.QemuEdu.DmaRoundtripStore | meta-qemu-edu/recipes-kernel/qemu-edu-driver/files/qemu_edu.c:419-482 | error codes for every input, ETIMEDOUT and the recorded timeout exactly when a wait timed out and found RUN clear; the lock-release invariant (fault latched exactly for timeout or fault results, exactly when bus mastering is off, engine idle otherwise); the exact register stores of both transfers; a latched fault refuses and leaves device, buffers and log alone; a pass means both transfers finished and the device stored every compared byte; without noise a round trip passes exactly when no wait times out, and counts exactly two interrupts |
| EduDriver.QemuEdu.Serve | meta-qemu-edu/recipes-kernel/qemu-edu-driver/files/qemu_edu.c:434-481 | over every sequence of requests after probe: every reply is the one its input allows, all DMA register stores ever made were safe, a latched fault never clears, after a timeout every in-range request is refused with EIO, and as long as there is neither noise nor a timeout every in-range request succeeds |
| DeferredCancellation.Deferral.Record | scripts/sdk_iteration.py:182-184 | only the first signal is kept |
| DeferredCancellation.Deferral.Enter | scripts/sdk_iteration.py:186-198 | every deferrable signal is routed to this region and its previous handler saved, all others are untouched |
| DeferredCancellation.Deferral.Exit | scripts/sdk_iteration.py:200-215 | the saved handlers are back, and the block's outcome is closed with the recorded signal |
| DeferredCancellation.RunBody | scripts/sdk_iteration.py:174-215 | for any nesting of regions and any arrivals: handlers afterwards equal those before, and the outcome and the recorded signal are those of an account without handler tables |
| DeferredCancellation.FirstSignalIsNotLost | scripts/sdk_iteration.py:200-215 | the first own signal of a region is raised at exit or noted on the exception in flight, except that a non-raising region without exception keeps it recorded |
| DeferredCancellation.RecordedIsFirst | scripts/sdk_iteration.py:182-184 | what a region records is the first signal that arrives in it outside nested regions |
| DeferredCancellation.LeaveTells | scripts/sdk_iteration.py:200-215 | a region left with any arrivals and any ending of its block: the exception's kind stays, what it tells gains exactly the first arrival, and without an exception that signal is raised or handed to the owner; the same as running the region |
| DeferredCancellation.UntakenSignal | scripts/sdk_iteration.py:1522-1525 | after any block that returns, a signal outside every region, or one that cannot be deferred, is raised at once before the commitment, and changes nothing after it |
| DeferredCancellation.TakenSignal | scripts/sdk_iteration.py:182-184 | a signal that a region takes changes nothing of how its block ends, and is recorded unless an earlier one was |
| LocalConf.RenderedOnce | scripts/configure_build.py:75-106 | rendering succeeds exactly on text without marks or with one ordered pair; the result has each mark once, the block last, is accepted again and keeps the user text |
| LocalConf.RenderingIsIdempotent | scripts/configure_build.py:75-106 | rendering a rendering, even for another distro and machine, equals rendering the original |
| LocalConf.UserTextSurvives | scripts/configure_build.py:99-106 | text before and after the old block survives in order, trimmed only at its edges |
| LocalConf.RenderingAssigns | scripts/configure_build.py:89-106 | read line by line, whatever the user text assigns before, a rendering last assigns the requested distro to DISTRO, the machine to MACHINE, and the shared directories and development features to theirs |
| LocalConf.RenderingIsAccepted | scripts/configure_build.py:76-83 | each mark occurs exactly once in a rendering, at its place |
| LocalConf.CountOfOnly | scripts/configure_build.py:76-83 | a mark with a single occurrence is counted once and found there |
| LocalConf.CountOneIsOnly | scripts/configure_build.py:76-83 | a mark counted once occurs nowhere else, overlaps included |
| SdkConfiguration.SpliceIsLastLayer | scripts/configure_build.py:114-127 | splicing the workspace never fails and is the rendering of the layer list with the workspace last |
| SdkConfiguration.BaseIsNotWorkspace | scripts/configure_build.py:114-127 | the two renderings are never the same text |
| SdkConfiguration.SdkLocalConfAssigns | scripts/configure_build.py:109-111 | the SDK build's local configuration assigns the lab's distro and machine |
| SdkConfiguration.BblayersAssigns | scripts/configure_build.py:114-127 | read line by line, a layer list assigns the closed configuration root to BBPATH and exactly the given layers, in order, to BBLAYERS |
| SdkConfiguration.RecognitionIsExact | scripts/sdk_iteration.py:685-729 | base, and workspace, is recognised for exactly the files configure_sdk leaves behind whose texts fit the readers' bounds; the others it leaves behind are unknown; an automatically parsed file, and nothing else, makes the reading raise |
| SdkConfiguration.BuildTree.ConfigureSdk | scripts/configure_build.py:202-246 | succeeds exactly on a tree that can be written and a disk on which every step works; success leaves exactly the closed configuration, any failure leaves the layer list as it was |
| SdkTrace.GuardedMeansAuthorised | scripts/sdk_iteration.py:1139-1317 | at every point of a guarded run, a development tool was preceded in the same cleanup by a recognised workspace configuration and a verified workspace, and a composition query by an authenticated base with nothing undone since |
| SdkTrace.RestorationMeans | scripts/sdk_iteration.py:1295-1305 | the summary used by cleanup holds exactly when base was configured in this cleanup and no tool ran afterwards |
| SdkTrace.AuthorityMeans | scripts/sdk_iteration.py:1139-1171 | the summary used by cleanup holds exactly when the recognition and the verification happened in this cleanup |
| SdkTrace.JustifiedMeansEveryClaim | scripts/sdk_iteration.py:1342-1442 | a run that reached the last stage established, in order and on two different boots, every claim of its document: base absent, right machine, deployed bytes equal built bytes, undeployed and absent, source retained, cold boot absent |
| SdkTrace.ChainHolds | scripts/sdk_iteration.py:1342-1442 | each stage of a run implies the events that justify it |
| SdkTrace.FinallyTells | scripts/sdk_iteration.py:1443-1477 | which signals the exception leaving the finally clause tells, exactly: the body's, the first that arrived, a failed unlink's, and the cleanup's - none of the latter when the unlink failed, and not those noted on it when the body failed too |
| SdkTrace.AllTold | scripts/sdk_iteration.py:1443-1477 | what the body told is never lost, and what the cleanup told only when the body or the unlink failed |
| SdkTrace.SignalOfTheLastCleanupIsLost | scripts/sdk_iteration.py:1467-1469 | a signal that arrives while the last cleanup fails after a failed body is told by nothing |
| SdkIteration.DirectSdkIteration.ConfigurationState | scripts/sdk_iteration.py:685-729 | an answer is the classification of the raw files |
| SdkIteration.DirectSdkIteration.VerifyWorkspace | scripts/sdk_iteration.py:819-948 | acceptance means an inert tree, or the one expected append where that is required; a refusal means another tree, a bad answer or a probe that raises, and is an SDK error except exactly when one of the three unguarded probes raises |
| SdkIteration.DirectSdkIteration.CompositionPreflight | scripts/sdk_iteration.py:744-760 | passes only on an authenticated base whose four effective variables were asked for and match |
| SdkIteration.Report.Note | scripts/sdk_iteration.py:1118-1124 | only the first cancellation is kept |
| SdkIteration.DirectSdkIteration.Examine | scripts/sdk_iteration.py:1131-1171 | devtool is usable only with recognised and verified authority; otherwise a modified recipe is reported, visible in the workspace, or the configuration is unknown; without a bad answer a state that cleanup can put right is examined without a failure and as it is |
| SdkIteration.DirectSdkIteration.RestoreEarly | scripts/sdk_iteration.py:1172-1189 | base is configured, and an unknown configuration with a modified recipe is reported |
| SdkIteration.DirectSdkIteration.Undeploy | scripts/sdk_iteration.py:1191-1222 | a sample deployed to a reachable guest is removed by the tool or, when that fails, on the guest itself, and exactly when both fail is its removal reported; without devtool authority no tool runs and the workspace stays |
| SdkIteration.DirectSdkIteration.StopActive | scripts/sdk_iteration.py:1224-1230 | afterwards no session is active, or a failure is reported; a stop that works leaves none and reports none |
| SdkIteration.DirectSdkIteration.ResetWorkspace | scripts/sdk_iteration.py:1232-1285 | afterwards the recipe is not modified, or a failure is reported; no failure means that the recipes were listed, a modified one was verified and reset, the empty list and the inert workspace were checked and the layer was removed |
| SdkIteration.DirectSdkIteration.DiscoverRecipes | scripts/sdk_iteration.py:1232-1247 | the recipe counts as modified exactly when the list names it alone or it did before; other recipes and a failing list are reported |
| SdkIteration.DirectSdkIteration.RestoreBase | scripts/sdk_iteration.py:1295-1305 | base is always configured last and counts as restored only when authenticated; without a bad answer it is, on a writable tree |
| SdkIteration.DirectSdkIteration.CheckResidue | scripts/sdk_iteration.py:1307-1313 | the residual check swallows no cancellation, and ends cleanup exactly when an unguarded probe raises |
| SdkIteration.DirectSdkIteration.Conclude | scripts/sdk_iteration.py:1307-1327 | a caught cancellation is raised, else any failure is, exactly unless a probe raised; a normal end means no failure, no active append, and the composition asked for and matched last; without a bad answer, an authenticated base and an inert workspace end normally |
| SdkIteration.DirectSdkIteration.CleanupUninterrupted | scripts/sdk_iteration.py:1114-1327 | for every combination of failing and cancelled steps and every answer of the probes outside a handler: base is restored last exactly when no probe before the restoration raises, the first caught cancellation is raised exactly when no probe raises at all, and a probe's error is raised exactly when one does; a normal return means base authenticated, no live session, no modified recipe and no active append; it returns only with no sample left on a guest it could reach, and it does return, with the base restored, from every state it can put right unless an answer or a probe is bad |
| SdkIteration.RefusedProbeLeavesTheBaseUnrestored | scripts/sdk_iteration.py:1131-1132 | a cleanup whose first probe raises ends with that error and base is not restored, from any workspace |
| SdkIteration.LeaveRegion | scripts/sdk_iteration.py:200-215 | a region ends as the account of regions says, whatever its block and arrivals |
| SdkIteration.DirectSdkIteration.Cleanup | scripts/sdk_iteration.py:1110-1112 | the same with host signals deferred: a signal that arrives is raised when the cleanup returns normally and noted on its exception otherwise; without a bad answer and without a signal it returns |
| SdkIteration.DirectSdkIteration.PrepareWorkspace | scripts/sdk_iteration.py:978-1031 | success means a prepared source whose digest is returned, after every check and command answered well; unless an answer is bad, an absent or inert workspace succeeds and ends inert, with the workspace configuration recognised |
| SdkIteration.DirectSdkIteration.PrepareBase | scripts/sdk_iteration.py:1359-1379 | success means that the base was authenticated, its composition and the security preflight passed and the image was built, last of all; unless an answer is bad it succeeds from every tree a run can start from |
| SdkIteration.DirectSdkIteration.BuildSample | scripts/sdk_iteration.py:1381-1391 | success means the recipe was put into the workspace, built, hashed and its IDE output made and moved away; unless an answer is bad it succeeds and leaves the one active append |
| SdkIteration.DirectSdkIteration.StartGuest | scripts/sdk_iteration.py:1393-1396 | success means a fresh session without the sample and of the expected architecture; failure means a bad answer |
| SdkIteration.DirectSdkIteration.Deploy | scripts/sdk_iteration.py:1397-1404 | success means the guest reports the digest of the built artifact for the expected path; failure means a bad answer; an attempted deployment is remembered before it can have an effect |
| SdkIteration.DirectSdkIteration.Exercise | scripts/sdk_iteration.py:1393-1415 | success means started, deployed, compared, run, undeployed, absent and stopped, each step on its own good answer; failure means a bad answer |
| SdkIteration.DirectSdkIteration.ColdBoot | scripts/sdk_iteration.py:1418-1427 | success means the retained digest equals the prepared one and a different session found nothing; failure means a bad answer |
| SdkIteration.DirectSdkIteration.Lifecycle | scripts/sdk_iteration.py:1358-1442 | a document is returned only after every step it claims; unless an answer or a probe is bad or a signal arrives, every tree a run can start from yields one |
| SdkIteration.DirectSdkIteration.Finalize | scripts/sdk_iteration.py:1443-1477 | cleanup is attempted once the tools are ready, evidence is withdrawn unless the body completed, and the exception leaving the clause, with its notes, is the one the account of the clause gives for every ending of body, cleanup and unlink and all arrivals; a document that was reached is kept unless an answer is bad or a signal arrives |
| SdkIteration.DirectSdkIteration.Publish | scripts/sdk_iteration.py:1478-1495 | committed exactly on a normal return, then the file is the document and a recorded signal is dropped; otherwise the signal is noted on the exception and the file is removed or its removal failed; committing means the file was written, read back and validated, and failing to commit means a bad answer |
| SdkIteration.DirectSdkIteration.Execute | scripts/sdk_iteration.py:1335-1495 | an evidence file exists only after commitment, every claim in it was established by the run, an unpublished run leaves none unless an unlink failed, a normal return leaves base restored with nothing live; once the tools are ready base is restored last exactly unless a probe of the last cleanup raised before; of all signals recorded by cleanup, finalization and publication only one of the publication is dropped, and only after commitment, and every other is told by the raised exception, except those muffled by a failed body or unlink; a run from a tree it can start from is committed unless a command, check or probe answers badly or a signal arrives |
| RuntimeEvidence.CountStatuses | scripts/runtime_evidence.py:815-819 | the summary is the tally of every status |
| RuntimeEvidence.TallyBound | scripts/runtime_evidence.py:815-826 | the passed count equals the number of cases exactly when every case passed |
| RuntimeEvidence.TalliesAddUp | scripts/diagnostics.py:251-257 | the categories of an accepted summary add up to its total |
| RuntimeEvidence.SummaryMeans | scripts/runtime_evidence.py:815-819 | each category of the summary is the number of cases with that status |
| RuntimeEvidence.PassingExercisesEveryPath | scripts/runtime_evidence.py:822-842 | in accepted evidence with a passing result every case passed and every contract path is declared exercised |
| RuntimeEvidence.PlatformIsBound | scripts/platform_runtime_evidence.py:240-272 | accepted platform evidence names the profile's lab, machine and image and both configuration digests; device evidence names none |
| RuntimeEvidence.CheckPaths | scripts/runtime_evidence.py:605-806 | the declared flags match the cases, in both directions, and whether all are exercised |
| RuntimeEvidence.ValidateEvidence | scripts/runtime_evidence.py:434-842 | a required pass is accepted exactly for accepted evidence with a passing result and a clean tree; the path conditions add nothing |
| DiagnosticsTheorem.ReportValidates | scripts/diagnostics.py:1056-1105 | every document a run produces, for every command and environment, satisfies the independent validator, if and only if it is not an inspection of a manifest with more than 16 layers |
| DiagnosticsTheorem.SeventeenLayersAreRefused | scripts/diagnostics.py:348-357 | a catalogue-valid manifest of 17 layers makes the inspected document invalid |
| DiagnosticsMeaning.StatusMeans | scripts/diagnostics.py:455-719 | for every check and environment, each status stands for a condition on what the run read, stated without the run's own account: passed, failed and unavailable, each exactly |
| DiagnosticsMeaning.ResultMeans | scripts/diagnostics.py:753-760 | the result and the exit code over everything a command looks at: 1 exactly when something is broken, 3 exactly when nothing is and something required is out of reach, else 0 |
| DiagnosticsMeaning.PassingMeans | scripts/diagnostics.py:1038-1055 | a document passes exactly when all the command looks at is healthy: for the doctor Git, ssh, version, repository, workflow, lock, catalogue and lab sound, every checkout matching, both build files read, and passing, clean, bound evidence of this revision; for the other commands their part of it |
| DiagnosticsMeaning.IdentityMeans | scripts/diagnostics.py:1056-1105 | version, revision, cleanliness, lab and digests are what was read, and there exactly when that was sound |
| DiagnosticsMeaning.StatusDataMeans | scripts/diagnostics.py:1056-1120 | the status data is the task in progress, the lock and the chosen lab, field by field, each there exactly when sound |
| DiagnosticsMeaning.InspectDataMeans | scripts/diagnostics.py:1121-1145 | the inspected data is every part of the lock and the chosen manifest, field by field, or nothing |
| DiagnosticsMeaning.EvidenceDataMeans | scripts/diagnostics.py:722-750 | the evidence data is the document that was read, field by field, shown exactly when it is sound and names the chosen lab's image and this version |
| DiagnosticsMeaning.UnknownLabMeans | scripts/diagnostics.py:564-571 | the argument error is a sound catalogue without the chosen lab |
| DiagnosticsContract.WordingMeans | scripts/diagnostics.py:403-415 | a warning is for the three checks that have one, and each status has its own sentence |
| DiagnosticsTheorem.TransitionsAreValid | scripts/diagnostics.py:763-830 | blocked checks are unavailable, derived checks stay in their states, and the two Git checks agree, for every environment |
| DiagnosticsTheorem.UpstreamBlocks | scripts/diagnostics.py:764-794 | a check is unavailable whenever one it depends on is not usable |
| DiagnosticsTheorem.DerivedAllows | scripts/diagnostics.py:796-822 | with all upstream checks passed only the derived states are left |
| DiagnosticsTheorem.IdentityIsValid | scripts/diagnostics.py:867-892 | version, revision, cleanliness, lab and digests are present exactly when their checks passed |
| DiagnosticsTheorem.DataIsValid | scripts/diagnostics.py:893-901 | the command's data is well formed, if and only if an inspected manifest has at most 16 layers |
| DiagnosticsTheorem.ProjectionIsValid | scripts/diagnostics.py:194-264 | what is projected of accepted evidence is a consistent summary with bounded tokens, because it equals the manifest's |
| DiagnosticsTheorem.StatusRulesHold | scripts/diagnostics.py:902-921 | cleanliness, lock and lab data agree with their checks |
| DiagnosticsTheorem.InspectRulesHold | scripts/diagnostics.py:922-944 | inspected data is complete or absent, together with its checks |
| DiagnosticsTheorem.EvidenceRulesHold | scripts/diagnostics.py:945-978 | the projected evidence agrees with the document, result, inputs and subject checks |
| DiagnosticsTheorem.DataRulesHold | scripts/diagnostics.py:945-1003 | evidence data, bound digests and subject agree with their checks |
| DiagnosticsTheorem.PassingIsComplete | scripts/diagnostics.py:1008-1035 | a passing document carries all data of its command |
| Diagnostics.Context.ReadLabCatalog | scripts/diagnostics.py:531-562 | the mutated catalogue fields and the status are those the environment determines, under every read failure |
| Diagnostics.Context.Selection | scripts/diagnostics.py:564-571 | a check, or an argument error exactly for a sound catalogue without the lab |
| Diagnostics.Context.Repository | scripts/diagnostics.py:487-495 | revision and cleanliness are set exactly when the check passes |
| Diagnostics.Context.SourceCheckout | scripts/diagnostics.py:591-611 | blocked exactly without Git or lock, else the checkout's own verdict |
| Diagnostics.Context.ReadEvidenceDocument | scripts/diagnostics.py:639-674 | document, binding and projection are set exactly as the account says |
| Diagnostics.Context.CheckEvidenceResult | scripts/diagnostics.py:676-687 | passed exactly for a passing result and a clean tree |
| Diagnostics.Context.CheckEvidenceInputs | scripts/diagnostics.py:689-713 | the mutable fields compared give the status of the account, bound or historical |
| Diagnostics.Context.CheckEvidenceSubject | scripts/diagnostics.py:715-719 | the subject is compared exactly when document, result and repository are usable |
| Diagnostics.Context.Run | scripts/diagnostics.py:1056-1105 | the printed document is the one the environment determines and passes the validator; the other outcomes occur exactly for an unknown lab and for too many layers |
| Diagnostics.CommandDocument | scripts/diagnostics.py:1056-1105 | the same from a fresh context, a malformed selector refused; it passes exactly when all the command looks at is healthy, and its exit code is 1 exactly when something is broken, 3 exactly when something required is only out of reach |
| SourceLock.PrefixIsAncestor | scripts/source_lock.py:278-282 | the textual prefix test up to a slash is exactly the ancestor test on segments |
| SourceLock.TextsOverlapIsOverlap | scripts/source_lock.py:276-282 | the lock's overlap test is exactly equality or ancestry of paths |
| SourceLock.RelativePathMeans | scripts/source_lock.py:164-177 | the accepted paths are those that lead, segment by segment, exactly where they read |
| SourceLock.CheckoutsLieApart | scripts/source_lock.py:274-287 | the checkouts of an accepted lock lie below the layers directory where their paths lead, none at, above or below another |
| SourceLock.PassedMeans | scripts/source_lock.py:234-287 | the loop's running verdict is exactly pairwise distinct ids and pairwise separate paths |
| SourceLock.ValidateSources | scripts/source_lock.py:229-297 | accepted exactly for complete fields, the closed set of ids, each once, and checkouts of which none lies in another |
| SourceLock.FaultlessIsReady | scripts/source_lock.py:346-400 | no fault is reported exactly for a ready checkout |
| SourceLock.RefusedIsFaulty | scripts/source_lock.py:403-421 | a checkout is refused exactly for a fault that fetching and checking out cannot mend |
| SourceLock.Checkouts.InspectSource | scripts/source_lock.py:346-400 | every fault and only those, and the state they amount to |
| SourceLock.Checkouts.PreflightExisting | scripts/source_lock.py:403-421 | refusal exactly for a foreign, dirty, moved or attached checkout |
| SourceLock.Checkouts.SyncSource | scripts/source_lock.py:424-480 | succeeds exactly when the checkout can be made ready and Git answers every command well, in the order init, origin, fetch, release, branch, checkout, none after a bad answer; success means ready; an existing HEAD never moves; a refused checkout is untouched; offline nothing is written to a checkout with a HEAD; nothing beside the path changes |
| SourceLock.Checkouts.FetchLocked | scripts/source_lock.py:446-471 | succeeds exactly when both refs are fetched, the release ref names the locked commit and the branch holds it |
| SourceLock.Checkouts.SyncResult | scripts/source_lock.py:499-510 | over non-overlapping sources: success exactly when every checkout can be made ready and Git answers every command well, with exactly the commands of each source in turn; success means all ready, failed or not no existing HEAD moves, nothing outside changes, and an offline run over ready sources succeeds and changes nothing |
| SourceLock.Checkouts.StatusResult | scripts/source_lock.py:483-496 | ok exactly when every source is ready |
| SourceLock.Checkouts.SyncThenStatus | scripts/source_lock.py:483-510 | a lock that is not valid is left alone; a valid one synchronises exactly when every checkout can be made ready and Git answers well, and then the status is ok and an immediate offline synchronisation only looks for the locked commits and changes nothing |
| MappingScopes.ValidateDuplicateMappings | scripts/validate_ci.py:171-213 | the loop over stack, counts and seen keys equals the one-line-at-a-time account |
| MappingScopes.ReportsExactlyTheDuplicates | scripts/validate_ci.py:171-213 | on the rendering, at any indentation steps, of any tree in which a mapping that begins behind two item prefixes has a single key, and that key no mapping as its value, no error is reported exactly when every mapping has pairwise distinct keys |
| MappingScopes.EntriesPass | scripts/validate_ci.py:179-211 | rendered entries leave the outer stack and scopes as they were and report exactly their own repetitions |
| MappingFrames.ReportsExactlyTheRepeats | scripts/validate_ci.py:171-213 | on any lines whatever, no error is reported exactly when no two entries belonging to one frame, as indentation and item prefixes decide it, have the same key |
| MappingFrames.FirstRepeatIsReported | scripts/validate_ci.py:171-213 | on any lines whatever, the first report is of the first entry whose frame has its key already, by its line number and key |
| MappingFrames.ReportsNameTheirLines | scripts/validate_ci.py:171-213 | on any lines whatever, reports come in the order of the lines, at most one a line, each naming its line and the key on it |
| MappingFrames.StepSimulated | scripts/validate_ci.py:179-211 | until the first error, different frames have different tuples of marks, so a key is found seen exactly when its frame holds it |
| MappingLayouts.RightUnderEveryNaming | scripts/validate_ci.py:171-213 | for any tree at any indentation: the report agrees with the tree under every naming of the keys exactly when the layout is faithful, that is, two keys belong to one mapping exactly when both are seen in one frame |
| MappingLayouts.FaithfulIsRight | scripts/validate_ci.py:171-213 | in a faithful layout no error is reported exactly when every mapping has pairwise distinct keys |
| MappingTrees.FlatIsFaithful | scripts/validate_ci.py:20-23 | a layout is faithful, at any indentation, if every mapping that begins behind two item prefixes has a single key and that key no mapping as its value |
| MappingTrees.FaithfulIsLone | scripts/validate_ci.py:20-23 | a layout is faithful only if every mapping that begins behind two item prefixes has a single key |
| MappingTrees.LoneIsNotEnough | scripts/validate_ci.py:179-211 | single unseen keys, each with a mapping as its value, still give a false alarm |
| MappingLayouts.EntriesUnique | scripts/validate_ci.py:171-213 | the tree's mappings have distinct keys exactly when no key stands on two lines of one mapping |
| MappingLayouts.PlacesRenamed | scripts/validate_ci.py:179-211 | the frame of an entry does not depend on any key |
| MappingTrees.FalseAlarm | scripts/validate_ci.py:20-23 | two nested items of distinct keys are reported as a repetition |
| MappingTrees.MissedDuplicate | scripts/validate_ci.py:20-23 | a key repeated in a nested item is not reported |
| VisibleMarkdown.VisibleLine | scripts/repository_trust.py:920-946 | the cursor loop over two searches equals a reading one character at a time |
| VisibleMarkdown.ReadMeans | scripts/repository_trust.py:920-946 | that reading succeeds exactly when the line's tokens are in order, and shows the characters outside comments |
| VisibleMarkdown.NearerIsNext | scripts/repository_trust.py:923-924 | the nearer of the two searches is the leftmost token |
| VisibleMarkdown.VisibleMarkdownLines | scripts/repository_trust.py:915-952 | success exactly when the tokens of all lines are in order and end closed, with one stripped line for each line |
| VisibleMarkdown.AcceptanceMeansAlternation | scripts/repository_trust.py:926-951 | in order and closed means an even number of tokens that alternate, opening first |
| VisibleMarkdown.VisibleAt | scripts/repository_trust.py:947 | each line out is the line in at the same place without its comments |
| JsonShape.ValidateWithStack | scripts/lab_config.py:196-215 | the worklist terminates and accepts exactly the values of at most 100000 nodes, keys included, that are sound at depth 1 |
| JsonShape.SoundMeans | scripts/lab_config.py:204-215 | sound at a depth means that levels and strings, keys included, are within bounds |
| JsonShape.KeysAndValues | scripts/lab_config.py:211-213 | pushing keys and values pushes every node of an object |
| JsonShape.ValidateRecursively | scripts/sbom_evidence.py:161-214 | the early exit accepts exactly supported values within the depth whose size, keys not counted, is within the item bound or is one, and returns that size |
| JsonShape.CountRestMeans | scripts/sbom_evidence.py:183-197 | an early exit from a list happens exactly when the full count would be too large |
| JsonShape.CountValuesMeans | scripts/sbom_evidence.py:198-213 | the same for an object, with its keys checked |
| WorkflowModel.ValidateModels | scripts/validate_workflow.py:128-272 | exactly what there is reason to report is reported, by rule and id; no error exactly for a sound model under a sound policy; the task in progress is returned exactly when there is one and no error |
| WorkflowModel.BehindExecutableIsDone | scripts/validate_workflow.py:247-260 | every task one or more dependency steps behind an executable task is Done |
| WorkflowModel.CirclePassesExactly | scripts/validate_workflow.py:247-260 | the dependency checks pass along a circle of any length exactly when no task of it depends on itself and it is wholly Done or wholly not executable |
| WorkflowModel.CircleModelPassesExactly | scripts/validate_workflow.py:247-260 | a model whose only dependencies are one circle passes the dependency checks under exactly that condition |
| WorkflowModel.DependenciesAreLinks | scripts/validate_workflow.py:247-260 | the dependency checks of a model are: every dependency is listed, and every link is between different tasks and ends at a Done one where it begins at an executable one |
| WorkflowModel.CycleIsDoneOrIdle | scripts/validate_workflow.py:247-260 | in an accepted model every dependency circle is wholly Done or wholly not executable |
| WorkflowModel.DoneNeverAwaitsActive | scripts/validate_workflow.py:247-260 | no Done task depends, at any distance, on the task in progress |
| WorkflowModel.StartedTaskIsReady | scripts/validate_workflow.py:196-260 | a task that is ready, in progress or Done is approved, described and in the ledger, and everything behind it is Done with its evidence and reviews |
| WorkflowModel.OneAtATime | scripts/validate_workflow.py:243-245 | the list of active tasks is short enough exactly when no two tasks are in progress |
| WorkflowModel.IdleCircleIsSound | scripts/validate_workflow.py:247-260 | a circle of proposed tasks is accepted |
| WorkflowModel.DoneCircleIsSound | scripts/validate_workflow.py:247-260 | a circle of Done tasks is accepted |
| WorkflowModel.CheckTask | scripts/validate_workflow.py:184-241 | exactly the rules the task breaks are reported under its id, and no problem exactly for a sound task |
| WorkflowModel.CheckLinks | scripts/validate_workflow.py:247-260 | exactly the rules its dependencies break are reported: on itself, on no known task, on one not Done where it must be; no problem exactly when there is none |
| WorkflowModel.TableMeans | scripts/validate_workflow.py:247-260 | checking the table of ids is checking the list of tasks |
| WorkflowModel.ActiveIdsMeans | scripts/validate_workflow.py:196-197 | the active list is empty exactly when no task is in progress |

## Left out

- SdkIteration.DirectSdkIteration.VerifyWorkspace: the workspace tree is one of four states (absent, inert, one expected append, anything else), and a refusal may come before, between or after the probes; names, bytes and checksums are not modelled.
- SdkIteration.DirectSdkIteration.Execute: signals between two deferral regions, and the regions inside a session or a command, are not modelled as regions but as exceptions a step may raise; a dead session is noticed only when it is asked, and whether the guest, BitBake or devtool answer truthfully is outside; their answers are the events of the trace. Whether a probe outside a handler raises is an arbitrary function of its number; the handled ones are answers.
- SdkConfiguration.RecognitionIsExact: a file changes only between two readings, not during one; symbolic-link races are outside.
- DeferredCancellation.RunBody: handlers that were not installed from this language (a missing previous handler) and threads other than the main one are outside.
- EduDriver.QemuEdu.Serve: termination of waits, time, memory ordering, MSI selection, sysfs formatting, factorial and trigger operations, removal and suspend are outside; the mutex makes one operation run at a time.
- RuntimeEvidence.ValidateEvidence: fields with fixed contents (names, mechanisms, case ids, durations) and the JSON shape of the document are outside.
- DiagnosticsTheorem.ReportValidates: grammars of versions, tokens, refs and digests are parameters; the upstream URLs are three fixed words; computed digests are assumed to be SHA-256 texts.
- SourceLock.ValidateSources: URL, ref and release fields, and the other sections of the lock, are outside.
- SourceLock.Checkouts.SyncSource: Git reads report the state truthfully; a path inside an enclosing repository answers as that repository; links that escape the root are outside.
- MappingScopes.ValidateDuplicateMappings: lines come already split into indentation, item prefix, key and whether a value follows; block scalars and the regular expressions are outside. Trees are rendered with one key or item to a line.
- VisibleMarkdown.VisibleMarkdownLines: splitting text into lines is outside.
- JsonShape.ValidateRecursively: numbers carry no digits bound, which another function checks.
- WorkflowModel.ValidateModels: the policy section, decoding, status values that are not strings and the ledger's regular expression are outside; ledger rows are a set.
- Process groups, SSH, runqemu, Windows handles, checksum updates, the platform driver and the command line entry points.
