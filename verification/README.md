# Verification model of slurm-shim

slurm-shim lets SLURM programs run on Grid Engine. This project models its parts with the most
branching, state and arithmetic in Dafny 4.11 and proves what they promise. `dafny verify dfyconfig.toml`
checks all of it.

**Installer.** A cluster is a value: queues, parallel environments (PEs) and complexes. A plan is a list of
changes, and `Scheduler` gives each change Grid Engine's own precondition: a PE is added to a pe_list only if it
exists, a queue names only a complex that exists, nothing is deleted while a queue refers to it. `Planner` and
`Uninstaller` are the two planners with their loops; `InstallRecord` applies plans and keeps the record.
Every change of a run may fail for reasons of its own, so a run is a plan and a sequence of failing calls.
`InstallGoal` and `InstallConverges` show that interrupted installs converge. `UninstallEffect` gives uninstall's
effect in closed form, `UninstallLaws` shows it complete and framed, and `InstallUndone` with `UninstallRestores`
shows when it undoes any history of installs: if and only if a condition on the record holds. `UninstallCases` says
the same of one install by what can be seen before it, and `UninstallAgain` is about interrupted uninstalls.
`InstallSeen`, `UninstallSeen` and `EntryTexts` say what both do to every queue, PE and complex, and exactly what they
refuse, in the cluster's own terms, without the planners' vocabulary.

**Step runtime.** `Frames`, `Pump`, `Demux` and `OutputPath` follow rank output from the pipe to the terminal under
every interleaving, and `LabelledOutput` says what is shown of the bytes alone. `KillLatch` and `RankAccounting` are
transition systems for the stepper's threads; everything under its mutex is one step.
`QrshLaunch` is the launch retry loop with a scripted environment.

**Placement and binding.** `Spread`, `Placement` and `PlacementLaws` place a step's ranks; `Devices` and `Submit`
give them devices; `PlacementSeen` says of request and layout alone what each node and rank gets; `CpuList`,
`CpuTexts`, `CpuBind`, `PinnedStep`, `CoreOrder` and `SharedHost` pin them to CPUs.

**Codecs and trees.** `Nodelist`, `NodelistTexts` and `CountRuns` are SLURM's two list formats, `ConfigMerge` the
configuration merge.

**The grant.** `HostFile` and `Spares` read a job's hosts inside and outside the job and keep hot spares;
`TaskPolicy` and `Fabricate` derive the task geometry and the fabricator's check of itself.

`Text` and `Sequences` hold the Go library routines the code is written in and the fact every list-building loop
is proved with.

## How it is modelled

Code that loops over growing slices, maps or buffers is a method with loops, proved against a function; the laws
are lemmas about that function. The installer's `State` and `Plan`, the frame reader and writer, the demultiplexer,
the stepper's shared fields and the job layout are classes. `inTree` is an abstract predicate on paths.
A `Facts` value is any reading of the cluster: any listing of its objects without repeats.

Four places where the code and its own words differ, kept as the code has them:

- `FrameReader.Read` is documented to return io.EOF at a clean end of stream; it also does so on a stream cut right
  behind a header that announces a payload (`Frames.EofIff`, `Frames.CutBehindHeaderIsEof`).
- Uninstall is the inverse of install when install created the PE. With a PE of the site's own it is not
  - when the PE was taken over with `--force` and wired into the queue install created: that queue stays
    (`UninstallRestores.ForcedDefaultIsNotUndone`);
  - when the PE was taken over and ran as another user: uninstall refuses (`UninstallCases.OtherUsersPEIsNotUndone`);
  - when its repair was refused, without `--force`, and a queue was wired to it all the same, or its 999 slots were
    raised: neither is taken back (`UninstallCases.RefusedRepairIsNotUndone`).

  These are all: `UninstallCases.InstallIsUndoneIff` is the exact condition for one install, said of what can be seen
  before it, and `UninstallRestores.Undoable` the one for any history, said of the record. Besides, a forced run that
  stopped before recording loses a starter it replaced (`UninstallCases.UnrecordedStarterIsLost`), and a second install
  under another PE name leaves the first one to a refusal (`UninstallCases.TwoNamesRefuse`).
- An uninstall in which calls failed says to fix the errors and run it again. That finishes it for a PE of install's
  own; for a site's PE taken over it does not once its start_proc_args are written back while something else of it
  is not (`UninstallAgain.TakenPERerunIff`, `UninstallAgain.HalfRestoredHappens`).
- The device request of a submission is enough on nodes of equal capacity, and can be too small on unequal ones
  (`Submit.UnequalNodesFallShort`); `Submit.RequestSufficesIff` is the exact condition.

## Model

| member | source | states |
|---|---|---|
| `Planner.MakePlan` | internal/install/plan.go:190-252 | the changes an install plans from any reading of a cluster, the PE rows first, then the queues it selects or creates, then the wiring of each: equal to the plan function the laws below are about |
| `Planner.Plan.SelectQueues` | internal/install/plan.go:95-164 | which queues are wired (all, named, the ones already wired, install's own, or a new one with its complex), and the refusal where none may be |
| `Planner.PlanPERepair` | internal/install/plan.go:256-296 | the repair of an existing PE: attribute writes with --force, refusals without it, and the 999-slot raise of install's own PE either way |
| `InstallRecord.ClusterAdmin.Submit` | internal/install/apply.go:74-110 | one change on the cluster: performed when the scheduler's own precondition holds and the call does not fail, otherwise the cluster is unchanged |
| `InstallRecord.Apply` | internal/install/apply.go:74-110 | a failed change does not stop the rest: the cluster after every change and one outcome per change, for any set of failing calls |
| `InstallRecord.State.IntendPlan` | internal/install/state.go:167-178 | the created queue, PE and complex are recorded before anything is applied |
| `InstallRecord.State.RecordReport` | internal/install/state.go:183-213 | what succeeded: PEs added to pe_lists, and the first non-empty old value of every attribute written |
| `InstallRecord.FirstOverwrittenIsRecorded` | internal/install/state.go:183-213 | of every attribute the value recorded is the one already there, or else the first non-empty one that a change which went through overwrote |
| `InstallRecord.AddsAreRecorded` | internal/install/state.go:183-213 | of the pe_lists exactly the additions that went through |
| `InstallGoal.RunStaysBetween` | internal/install/plan.go:190-252 | wherever an interrupted install stops, every queue, PE and complex is between its old value and the goal: nothing else is touched |
| `InstallConverges.FullRun` | internal/install/plan.go:190-252 | from any cluster and any options every planned change is accepted by the scheduler, and together they reach the goal, a cluster described without reference to the plan |
| `InstallConverges.GoalIsStable` | internal/install/plan.go:95-164 | re-planning from any intermediate cluster, with the recorded created queue, aims at the same goal |
| `InstallConverges.QuietAtGoal` | internal/install/apply.go:62-70 | a plan changes something if and only if the cluster is not yet at its goal |
| `InstallConverges.RerunConverges` | internal/install/plan.go:190-252 | after an install in which any changes failed, recorded or only intended, running it again reaches exactly the cluster an uninterrupted install would have |
| `InstallConverges.NextPlanIsQuiet` | internal/install/plan.go:95-164 | after a full install the next plan is not mutating |
| `InstallConverges.ManyInterruptedRuns` | internal/install/state.go:167-207 | the same after any number of interrupted runs, each failing anywhere |
| `InstallSeen.QueueAfterInstall` | internal/install/plan.go:95-130 | every queue of the site after an install, in its own terms: a chosen one (all, named, wired, or install's own) offers the PE and starts jobs in the tree if it had no starter or --force was given, and no other changes |
| `InstallSeen.PEAfterInstall` | internal/install/plan.go:256-296 | the PE after an install, attribute by attribute, new or the site's own; no other PE changes |
| `InstallSeen.OwnQueueIsByRequest` | internal/install/plan.go:145-152 | a queue install adds is open only to jobs that ask for the shim: its complex is BOOL and FORCED |
| `InstallSeen.FirstInstallAddsIff` | internal/install/plan.go:132-164 | on a first install the queue is added exactly if slurm_shim is free or has both values; otherwise the install refuses and changes no queue or complex |
| `InstallSeen.NothingElseIsAdded` | internal/install/plan.go:132-164 | no other queue or complex is ever added, and no complex changed |
| `InstallSeen.InstallRefusesIff` | internal/install/plan.go:95-130 | an install refuses exactly over a site's PE to repair, a choice of queues that is none, or a site's starter, each without --force where that helps |
| `Uninstaller.PlanUninstall` | internal/install/uninstall.go:133-253 | the inverse planner, loop by loop, from a reading of the cluster and the record, with its two warnings about slurm.q: equal to the plan function the laws below are about |
| `Uninstaller.References` | internal/install/uninstall.go:277-295 | what still points into the tree: starter methods, per-host overrides and PE hooks |
| `UninstallEffect.UninstallEnds` | internal/install/uninstall.go:133-253 | a plan without refusals, applied to any cluster with any record, ends in a cluster given in closed form: queues unlisted and restored, own PEs and queue gone, site PEs given their old values, the complex gone when no queue names it |
| `UninstallLaws.UninstallIsComplete` | internal/install/uninstall.go:277-295 | after it nothing points into the tree, and every PE of the tree is gone and offered by no remaining queue |
| `UninstallLaws.UninstallIsFramed` | internal/install/uninstall.go:133-253 | whatever calls fail, every queue, PE and complex that neither pointed into the tree, offered a deleted PE, nor was recorded is unchanged, and no PE goes but install's own |
| `UninstallSeen.RebuiltQueueStays` | internal/install/uninstall.go:255-268 | whatever calls fail, no queue is deleted but slurm.q, and not that one if it starts jobs outside the tree, offers a PE that is not install's, or has a per-host pe_list entry |
| `UninstallSeen.QueueGoesIff` | internal/install/uninstall.go:255-268 | if nothing fails it goes exactly if the record names it and none of the three holds |
| `UninstallSeen.QueueAfterUninstall` | internal/install/uninstall.go:176-196 | what a queue that stays still offers, and that only its pe_list and starter change |
| `UninstallSeen.StarterAfterUninstall` | internal/install/uninstall.go:214-219 | its starter: kept outside the tree, else the first value recorded, or none |
| `UninstallSeen.PEGoesIff` | internal/install/uninstall.go:143-165 | a PE goes exactly if it starts jobs in the tree, was not taken over, and is slurm-shim, the recorded one or the one asked for |
| `UninstallSeen.ComplexGoesIff` | internal/install/uninstall.go:231-235 | the complex goes exactly if the record has it, it is still FORCED, and no queue left names it |
| `UninstallSeen.UninstallRefusesIff` | internal/install/uninstall.go:133-253 | uninstall refuses exactly over an unknown PE in the tree, a per-host entry that offers its PE or starts in its tree, or a recorded value that runs as another user |
| `UninstallSeen.NothingPointsInIff` | internal/install/uninstall.go:277-295 | nothing is listed exactly if no queue, on all hosts or some, and no PE points into the tree |
| `EntryTexts.EntryWords` | internal/install/uninstall.go:196-205 | what a per-host pe_list entry offers: the names in it |
| `EntryTexts.EntryStarts` | internal/install/uninstall.go:206-213 | what a per-host starter entry starts: the command behind its = |
| `EntryTexts.OtherUserIff` | internal/install/uninstall.go:101-120 | a command runs as another user exactly if its first word has a name before an @ and no / in front of that |
| `InstallUndone.RunStaysTracked` | internal/install/state.go:183-213 | the record tells exactly what an install changed, after every change of a run with any failures |
| `InstallUndone.HistoryIsTracked` | internal/install/state.go:167-213 | and so it does after any history of partly failing installs under one PE name, with different queues and with or without --force |
| `UninstallRestores.UninstallRestores` | internal/install/uninstall.go:133-253 | uninstalling a tracked cluster gives the site's own cluster back if and only if the record is undoable, a condition read off the record alone |
| `UninstallRestores.HistoryIsUndone` | internal/install/uninstall.go:133-253 | installs under one PE name, any number of them and failing anywhere, then uninstall: the identity on clusters exactly when the record is undoable |
| `UninstallRestores.OwnPEIsAlwaysUndone` | internal/install/uninstall.go:258-268 | if install created the PE, uninstall is always the exact inverse |
| `UninstallRestores.ForcedDefaultIsNotUndone` | internal/install/uninstall.go:258-268 | a site PE repaired with --force and wired into a queue install created is never given back: the created queue stays |
| `UninstallRestores.ForcedDefaultExample` | internal/install/uninstall.go:258-268 | a concrete cluster where that happens |
| `UninstallCases.InstallIsUndoneIff` | internal/install/uninstall.go:133-253 | for one install: uninstall gives the site back if and only if, before it, the PE was new, or was to be taken over as one that runs as nobody else without a queue being created, or needed nothing done |
| `UninstallCases.RefusedRepairIsNotUndone` | internal/install/plan.go:256-296 | a site PE whose repair was refused while a queue was wired to it stays on that queue |
| `UninstallCases.OtherUsersPEIsNotUndone` | internal/install/uninstall.go:235-245 | a forced takeover of a PE that runs as another user is refused by uninstall, which then changes nothing |
| `UninstallCases.UnrecordedStarterIsLost` | internal/install/state.go:192-195 | a forced run that stopped before recording and replaced a starter of the site's is never undone |
| `UninstallCases.NotUndoneExamples` | internal/install/uninstall.go:235-245 | concrete clusters for the two families before |
| `UninstallCases.TwoNamesRefuse` | internal/install/uninstall.go:144-165 | installs under two PE names that each created their PE: uninstall refuses over the first |
| `UninstallCases.KeptQueueIsWarnedOf` | internal/install/uninstall.go:169-233 | uninstall warns exactly when slurm.q stays although the record names it, and exactly when it is unwired and stays |
| `UninstallAgain.OwnPERerunConverges` | internal/cli/installcmd/uninstall.go:184-187 | after any number of uninstalls failing anywhere, with a PE of install's own, the next one that goes through gives back the site's cluster |
| `UninstallAgain.TakenPERerunIff` | internal/cli/installcmd/uninstall.go:184-187 | with a site's PE taken over: if and only if the PE was not left half restored, its start_proc_args its own again and something else of it not |
| `UninstallAgain.HalfRestoredStays` | internal/install/uninstall.go:144-150 | a PE left half restored stays so through every further uninstall |
| `UninstallAgain.HalfRestoredHappens` | internal/install/uninstall.go:236-251 | it happens: any single PE without control_slaves, whose second write fails |
| `Frames.FrameWriter.Write` | internal/proto/frame.go:104-120 | a frame is filled into a buffer and written in one piece; a payload above the limit writes nothing |
| `Frames.FrameReader.Read` | internal/proto/frame.go:132-151 | one frame, the end, a cut or a refused length, and exactly the bytes left unread |
| `Frames.DecodeOfEncode` | internal/proto/frame.go:104-151 | a written frame is read back whole and nothing after it is consumed |
| `Frames.EncodeOfDecode` | internal/proto/frame.go:132-151 | whatever is read is the encoding of what it was read as: the format has one spelling |
| `Frames.FrameLayout` | internal/proto/frame.go:104-120 | the bytes on the wire one by one: type, flags, rank and length big-endian, payload of at most a mebibyte |
| `Frames.EofIff` | internal/proto/frame.go:131-146 | exactly when Read reports io.EOF: at the end, or on a stream cut right behind a header that announces a payload |
| `Frames.CutBehindHeaderIsEof` | internal/proto/frame.go:131-146 | the documented "clean end of stream" fails on such a cut: a concrete stream |
| `Frames.ReadAllOfEncodeAll` | internal/proto/frame.go:104-151 | any sequence of frames comes back in order |
| `Frames.CutStream` | internal/proto/frame.go:132-151 | a stream cut anywhere yields a prefix of the frames sent, none torn or invented |
| `Pump.StreamReader.ReadSlice` | internal/stepper/stepper.go:364-366 | a line, a full 64 KiB buffer, or what is left at the end |
| `Pump.PumpStream` | internal/stepper/stepper.go:363-388 | the frames a pump sends for a stream |
| `Pump.ChunksKeepBytes` | internal/stepper/stepper.go:360-379 | no byte is lost, added or moved, however long the lines are |
| `Pump.ChunkShape` | internal/stepper/stepper.go:363-388 | a chunk fits a frame, holds no newline, and is empty only for an empty line |
| `Pump.OnlyLongLinesSplit` | internal/proto/frame.go:72-75 | a line is split only where it fills the buffer |
| `Pump.OutFrameLayout` | internal/proto/frame.go:40-68 | an output frame on the wire: type 4, flag 1 for stderr, 2 for an ended line |
| `Demux.Demux.Handle` | internal/mux/demux.go:58-99 | one frame is one write, labelled only at a line start, and opens or closes its own line only |
| `Demux.Demux.Flush` | internal/mux/demux.go:103-120 | in any order of the open lines, each gets exactly one newline and nothing else is written |
| `OutputPath.RenderPlain` | internal/mux/demux.go:25-30 | without labels the rendering is the stream itself, plus a newline if it stops inside a line |
| `OutputPath.SpokenIsRendered` | internal/mux/demux.go:58-99 | a pumped stream, demultiplexed frame by frame, is its byte-level rendering |
| `OutputPath.RunShows` | internal/mux/demux.go:35-44 | what a rank shows depends on its own frames alone, whatever comes between them |
| `OutputPath.WireFits` | internal/proto/frame.go:65-75 | output frames always fit a frame, so every connection carries all of them |
| `OutputPath.OutputIsFaithful` | internal/mux/demux.go:24-30 | for any ranks, hosts, byte streams and interleavings, from pipe through pump, wire and demultiplexer to the final flush: each rank's stream is shown exactly, labelled at each line start and ended once |
| `LabelledOutput.UnlabelledIsVerbatim` | internal/mux/demux.go:25-30 | the same without -l: the source's bytes, and one newline exactly if they end inside a line |
| `LabelledOutput.LabelledLineByLine` | internal/mux/demux.go:82-86 | and with -l: each line of the source, the last one ended, behind the rank's number without leading zeros, a colon and a blank |
| `LabelledOutput.LinesAre` | internal/mux/demux.go:82-99 | those lines are the bytes, cut behind each newline |
| `OutputPath.NothingIsInvented` | internal/mux/demux.go:24-30 | and nothing is shown for a stream that is nobody's |
| `OutputPath.WriteEndsItsLine` | internal/mux/demux.go:71-80 | a write holds at most one newline, at its end, so no other process can split a line from its newline |
| `KillLatch.Stepper.ForwardSignal` | internal/stepper/stepper.go:419-433 | under the mutex: the latch escalates only, and every registered rank is signalled |
| `KillLatch.Stepper.Register` | internal/stepper/stepper.go:320-324 | under the mutex: a rank joins and reads the latch |
| `KillLatch.LatchIsStrongest` | internal/stepper/stepper.go:419-430 | over every interleaving of spawns, forwarded signals and terminate calls the latch is the strongest terminating signal sent so far |
| `KillLatch.LatchOnlyRises` | internal/stepper/stepper.go:426-429 | so it only rises: none, SIGTERM, SIGKILL |
| `KillLatch.EveryRankGetsWhatItIsOwed` | internal/stepper/stepper.go:320-327 | each rank gets every signal sent since it registered and the latch it found, each exactly once and nothing else |
| `KillLatch.EveryRankHasTheLatch` | internal/stepper/stepper.go:320-327 | every registered rank whose pending delivery has run has the latched signal, SIGTERM or SIGKILL |
| `KillLatch.NoRankEscapesKill` | internal/stepper/stepper.go:422-429 | once SIGKILL has been sent, every rank has it as soon as its own pending delivery has run |
| `KillLatch.TerminateIsFinal` | internal/stepper/stepper.go:241-245 | after any terminate call's second stage no rank escapes, however late it registers |
| `KillLatch.QuietStart` | internal/stepper/stepper.go:320-327 | a rank that registers before any terminating signal has nothing pending |
| `KillLatch.SignalsInOrder` | internal/stepper/stepper.go:419-433 | a rank registered before any terminating signal gets the later signals in the order sent |
| `KillLatch.TerminatedOnce` | internal/stepper/stepper.go:230-237 | however often the stepper is signalled it starts one terminate for it, and one for each loss of the channel |
| `RankAccounting.PushNeverBlocks` | internal/stepper/stepper.go:184-206 | in every reachable state the result channel has room for a reported rank |
| `RankAccounting.EndIsLast` | internal/stepper/stepper.go:329-357 | in every reachable state a rank has sent only output before its end, and after its end frame nothing |
| `RankAccounting.FinishedRun` | internal/stepper/stepper.go:196-206 | a finished run sent exactly one end frame per rank, and exits with the largest code, failed ranks counting 0, or with 143 if it was signalled |
| `RankAccounting.StepsAdvance` | internal/stepper/stepper.go:186-202 | every step but output and signals brings the end nearer |
| `RankAccounting.NeverStuck` | internal/stepper/stepper.go:186-202 | no deadlock: until the run has finished, each rank not yet counted can move on, or the spawn loop it waits for can |
| `RankAccounting.LargestCode` | internal/stepper/stepper.go:196-202 | the collecting loop: the maximum of the codes and 0 |
| `RankAccounting.FailAll` | internal/stepper/stepper.go:156-165 | if the outputs cannot be opened every rank is reported failed and the code is 1 |
| `QrshLaunch.Start` | internal/launch/qrsh.go:82-145 | for any mix of rejections, durations and random backoffs the retry loop ends within the bound, at the first attempt that is not retried, with that attempt's verdict |
| `QrshLaunch.RetriesAreBounded` | internal/launch/qrsh.go:42-55 | races are retried at most grace/250 ms + 1 times and missing slots at most bound/1 s + 1 times, whatever the mix |
| `QrshLaunch.HostIsBlamedOnlyForRaces` | internal/launch/qrsh.go:117-134 | a host is called unusable only past the race grace and never for missing slots or a misconfiguration |
| `QrshLaunch.SlotsAreGivenTheirTime` | internal/launch/qrsh.go:122-131 | missing slots are given up only past the slot bound |
| `QrshLaunch.ClassifyIs` | internal/launch/qrsh.go:227-252 | how a rejection is told by the phrases in it, in either case: misconfiguration first, then missing slots, else the race |
| `QrshLaunch.RetriedIff` | internal/launch/qrsh.go:110-134 | an attempt is repeated exactly if it was rejected, not for a misconfiguration, and ten seconds from the start for a race, or the slot bound for missing slots, have not passed |
| `Spread.Spread` | internal/plan/place.go:248-268 | the dealing loop ends; it fails exactly when ranks exceed capacity, and otherwise its counts are the closed form: a level and a cut |
| `Spread.DealIsUnique` | internal/plan/place.go:248-268 | the closed form determines the counts |
| `Spread.DealIsFair` | internal/plan/place.go:243-247 | no node is over capacity, and no node is two ranks ahead of one that is not full |
| `Spread.NodesUsed` | internal/plan/place.go:85-88 | ranks land on as many nodes as possible: min(ranks, nodes with capacity) |
| `Placement.SelectNodes` | internal/plan/place.go:141-219 | which nodes take part, and each refusal |
| `Placement.Place` | internal/plan/place.go:89-133 | the whole decision: each refusal in its case, else the plan made of the dealt counts, with its warnings |
| `Placement.Distribute` | internal/plan/place.go:297-340 | refused exactly when a node has fewer devices than its ranks ask for, else the numbered ranks with cpusets and devices, and the first node's warning |
| `PlacementSeen.OneRankEach` | internal/plan/place.go:221-241 | -N alone: every node of the step runs one rank |
| `PlacementSeen.SoManyEach` | internal/plan/place.go:221-241 | --ntasks-per-node without -n: every node runs that many |
| `PlacementSeen.OwnShareEach` | internal/plan/place.go:221-241 | no count at all: every node runs what the layout gives it, or its slots |
| `PlacementSeen.CountIsPlaced` | internal/plan/place.go:221-268 | with -n exactly that many ranks, on no node more than --ntasks-per-node or its share |
| `PlacementSeen.TooManyIff` | internal/plan/place.go:248-258 | the number of ranks is refused exactly if it is above what all nodes may run |
| `PlacementSeen.SelectionRefusesIff` | internal/plan/place.go:141-204 | no nodes are found exactly if -w names a stranger, all are excluded, or more are asked for than are eligible |
| `PlacementSeen.ListedHostsDiffer` | internal/plan/place.go:151-180 | with -w no host takes part twice |
| `PlacementSeen.RankCpus` | internal/plan/place.go:327-334 | the CPUs of a rank: how many, and which positions |
| `PlacementSeen.RankSlice` | internal/plan/gpu.go:40-82 | with --gpus-per-task a rank has its own devices, in the grant's order |
| `PlacementSeen.RankGrant` | internal/plan/gpu.go:22-39 | without it the whole grant, or an even share where grants are divided and there is one for each rank |
| `PlacementLaws.SelectedNodes` | internal/plan/place.go:135-140 | distinct nodes of the allocation, none excluded, listed ones with -w, in allocation order unless the list's was asked for |
| `PlacementLaws.ListedHostsTakePart` | internal/plan/place.go:155-180 | with -w every host asked for and not excluded takes part |
| `PlacementLaws.OrderedFollowsList` | internal/plan/place.go:206-219 | and in the list's order where that is asked for |
| `PlacementLaws.NoEligibleNodeIsSkipped` | internal/plan/place.go:182-203 | without -w the nodes are the first eligible ones, as many as asked for; eligible: not excluded, and not a master to be kept off while another node is left |
| `PlacementLaws.PlanWarnsIff` | internal/plan/place.go:115-132 | a plan warns of too few ranks exactly when nodes with room are left out, and of devices exactly when some node's ranks share them or see all of them unasked |
| `PlacementLaws.PlanSizes` | internal/plan/place.go:107-120 | exactly the ranks asked for, on min(ranks, nodes with capacity) nodes |
| `PlacementLaws.PlanIsBlock` | internal/plan/place.go:294-296 | ranks are 0, 1, 2, ... node by node, with consecutive local ids from 0 |
| `PlacementLaws.PlanUsesEveryNode` | internal/plan/place.go:85-88 | every node of the plan runs a rank and was allowed to |
| `PlacementLaws.PlaceIsUnique` | internal/plan/place.go:294-296 | a rank number is one node and one local id |
| `Devices.AssignDevices` | internal/plan/gpu.go:40-82 | the per-rank device lists filled element by element: slices when asked for or divided, else the whole grant |
| `Devices.SlicesAreDisjoint` | internal/plan/gpu.go:22-39 | a request the grant covers gives each rank exactly its devices and none twice |
| `Devices.SharedIff` | internal/plan/gpu.go:34-38 | ranks share unasked exactly when there are fewer devices than ranks under automatic division |
| `Submit.EqualNodesShare` | internal/submit/submit.go:95-116 | on nodes of equal capacity no node runs more than the share the submission reckons with |
| `Submit.RequestSuffices` | internal/submit/submit.go:154-162 | the devices requested at submit time suffice at run time: a step of the same geometry is never refused for too few |
| `Submit.EveryRankHasItsDevices` | internal/plan/gpu.go:31-39 | and every rank, alone on its node or not, has exactly as many devices as it asked for, all of its node's grant and none of them a neighbour's |
| `Submit.RequestSufficesIff` | internal/submit/submit.go:154-162 | on any nodes the request suffices if and only if the ranks fit on them with none running more than the share reckoned with: what filling every node to that share holds |
| `Submit.UnequalNodesFallShort` | internal/submit/submit.go:104-116 | on unequal nodes the request can fall short: a concrete layout and step that Place refuses |
| `PlacementSeen.SubmittedTasksRun` | internal/submit/submit.go:69-90 | without -n the tasks a submission reckons with are the ranks the step of its flags runs |
| `CpuList.ParseList` | internal/cpubind/cpubind.go:223-252 | the distinct CPUs a list names, increasing; an error exactly for a malformed or empty list |
| `CpuList.FormatList` | internal/cpubind/cpubind.go:256-273 | the printed list of the sorted CPUs |
| `CpuList.FormatDenotes` | internal/cpubind/cpubind.go:223-273 | a printed list read back names exactly the CPUs printed, whatever their order and repeats |
| `CpuTexts.PartIsReadIff` | internal/cpubind/cpubind.go:223-252 | exactly which parts of a list are read, and as what |
| `CpuTexts.ListIsReadIff` | internal/cpubind/cpubind.go:223-252 | a list is read exactly if no part is bad and not all are blank |
| `CpuTexts.RowIsOneRange` | internal/cpubind/cpubind.go:254-273 | CPUs in a row print as one range |
| `CpuBind.Resolve` | internal/cpubind/cpubind.go:174-192 | all or nothing: every cpuset mapped through the allowed CPUs, or none with a warning |
| `CpuBind.SelectCpus` | internal/cpubind/cpubind.go:156-169 | the CPUs at the named positions; refused exactly when a position is not there |
| `CpuBind.NodeIsPinnedIff` | internal/cpubind/cpubind.go:171-192 | a node's tasks are pinned if and only if pinning is safe and they have enough CPUs together; then each has its own slice, else none is pinned |
| `CpuBind.PinningNeverCollides` | internal/cpubind/cpubind.go:171-192 | each pinned task of a node, its list read back, has exactly its number of allowed CPUs, disjoint from every other task's, if there is another |
| `PinnedStep.PlacedNodeIsPinnedIff` | internal/plan/place.go:297-340 | the same for every layout and request Place accepts, node by node |
| `PinnedStep.StepIsPinnedApart` | internal/cpubind/cpubind.go:156-192 | for every layout and request Place accepts and any distinct allowed CPUs: each rank on a node has exactly its CPUs and shares none, or no rank there is pinned, and which of the two, if and only if |
| `CoreOrder.CoreFirst` | internal/cpubind/cpubind.go:197-219 | the ordering loop ends, having dealt out every thread of every core in rounds |
| `CoreOrder.OrderIsPermutation` | internal/cpubind/cpubind.go:194-219 | the order is a permutation of the allowed CPUs, each core's own order kept |
| `CoreOrder.PrefixIsDeal` | internal/cpubind/cpubind.go:194-219 | every prefix spreads threads over cores as ranks are spread over nodes |
| `CoreOrder.OrderIsBalanced` | internal/cpubind/cpubind.go:64-71 | no core is two threads ahead of one with threads left, and the first CPUs are of different cores |
| `CoreOrder.LeadersAreOfDifferentCores` | internal/cpubind/cpubind.go:194-219 | as many CPUs as there are cores lead the order, each of another core; a CPU of no known core is its own |
| `SharedHost.RunIsValid` | internal/cpubind/cpubind.go:83-96 | over every run of jobs starting and ending, slots stay within the host's and bound masks apart |
| `SharedHost.PinningNeverCrossesJobs` | internal/cpubind/cpubind.go:98-111 | on every such run two jobs' pinned CPUs are disjoint |
| `SharedHost.WholeHostIsPinned` | internal/cpubind/cpubind.go:83-111 | a job with all slots of its host is alone there and its tasks are pinned wherever they fit |
| `Nodelist.SplitName` | internal/encoders/nodelist.go:123-139 | the name cut around its last digit run |
| `Nodelist.PartsOfName` | internal/encoders/nodelist.go:120-139 | the three parts are the name, and the digit run is maximal and last |
| `Nodelist.RangeItems` | internal/encoders/nodelist.go:101-118 | the bracket items of a group |
| `Nodelist.RangeIsMaximal` | internal/encoders/nodelist.go:50-59 | a range ends only where the next name does not follow |
| `Nodelist.CompressNodelist` | internal/encoders/nodelist.go:60-91 | the blocks of consecutive names, joined |
| `Nodelist.SplitTopLevel` | internal/encoders/expand.go:107-135 | the parts between commas outside brackets, or the first bracket error |
| `Nodelist.ExpandNodelist` | internal/encoders/expand.go:39-104 | the names of every block in order, or the first error |
| `Nodelist.RoundTrip` | internal/encoders/nodelist.go:50-91 | expanding a compressed list gives the list back: names, order, zero padding and width changes |
| `NodelistTexts.ConsecutiveIsOneRange` | internal/encoders/nodelist.go:50-118 | consecutive numbers of one width print as one range, a single name as itself |
| `NodelistTexts.ItemIsReadIff` | internal/encoders/expand.go:80-104 | an item is read exactly if it is digits or a range of digits that does not descend |
| `NodelistTexts.BlockIsReadIff` | internal/encoders/expand.go:39-78 | a block exactly if it is a name without brackets, or has one pair of them around such items |
| `NodelistTexts.ListIsReadIff` | internal/encoders/expand.go:39-135 | a list exactly if it is not empty, its brackets balance and each block is read |
| `CountRuns.CompressCounts` | internal/encoders/rle.go:32-47 | the maximal runs, joined |
| `CountRuns.ExpandCounts` | internal/encoders/rle.go:52-91 | the counts of every term in order, or an error |
| `CountRuns.RoundTrip` | internal/encoders/rle.go:49-67 | expanding compressed counts gives them back |
| `CountRuns.RunsAreMaximal` | internal/encoders/rle.go:28-31 | neighbouring runs differ: the encoding is as short as it can be |
| `CountRuns.TermsArePrinted` | internal/encoders/rle.go:32-47 | a run of one prints as its count, a longer one with how often |
| `CountRuns.EqualCountsAreOneTerm` | internal/encoders/rle.go:28-47 | equal counts print as one term |
| `CountRuns.TermIsReadIff` | internal/encoders/rle.go:70-91 | exactly which terms are read, and as what |
| `ConfigMerge.MergeMapping` | internal/config/merge.go:127-183 | the recursive overlay, loop by loop |
| `ConfigMerge.KeyOrder` | internal/config/merge.go:123-126 | the existing keys first in their order, without the retired ones, then the new ones in theirs |
| `ConfigMerge.MergedAt` | internal/config/merge.go:116-126 | what the merge has under every key, from what both sides have there |
| `ConfigMerge.OnlyRetiredKeysGo` | internal/config/merge.go:205-227 | at the top exactly the three retired keys go, unless the installer sets them |
| `ConfigMerge.UnknownKeysSurvive` | internal/config/merge.go:28-55 | at every depth a value only the file has survives verbatim, but for retired keys at the top |
| `ConfigMerge.InstallerValuesWin` | internal/config/merge.go:118-119 | at every depth every value the installer sets is set |
| `ConfigMerge.CommentsAreCarried` | internal/config/merge.go:185-203 | at every depth no comment of the file is lost: each stays unless the installer replaces the value and has one of its own there |
| `ConfigMerge.MergeIsIdempotent` | internal/config/merge.go:116-203 | merging twice is merging once: values, order and comments |
| `ConfigMerge.RemovePartitions` | internal/config/merge.go:247-295 | the rewritten document |
| `ConfigMerge.PartitionsAreRemoved` | internal/config/merge.go:242-246 | exactly the named partitions go, a default that names one becomes the new one or goes, every other key is untouched |
| `HostFile.ParsePEHostfile` | internal/gedata/pehostfile.go:48-91 | the hosts of a host file, or an error for a malformed line or an empty file |
| `HostFile.HostfileIsReadIff` | internal/gedata/pehostfile.go:52-89 | a host file is read exactly if no line is malformed and some line grants a host |
| `HostFile.FullLineIsRead` | internal/gedata/pehostfile.go:62-84 | which host a line of four words grants |
| `HostFile.ShortLineIsRead` | internal/gedata/pehostfile.go:62-84 | and one of two or three |
| `HostFile.BadLineIsRefused` | internal/gedata/pehostfile.go:54-67 | which lines are malformed, and which skipped |
| `HostFile.ElementHost` | internal/gedata/jobhosts.go:184-190 | which host an entry of the job list names |
| `HostFile.MergedNames` | internal/gedata/pehostfile.go:39-47 | one host per short name, in first-seen order |
| `HostFile.MergedHost` | internal/gedata/pehostfile.go:39-47 | its slots are all the slots granted to it; the rest is its first line's |
| `HostFile.GrantedHosts` | internal/gedata/jobhosts.go:171-198 | the job list's hosts, first seen, without repeats |
| `Spares.SplitAllocation` | internal/gedata/jobhosts.go:221-252 | the split from the spare count and the replay of every recorded swap |
| `Spares.LastCountWins` | internal/gedata/jobhosts.go:222-227 | the number of spares is the last one given |
| `Spares.CountIsRead` | internal/gedata/jobhosts.go:222-227 | read with blanks around it; what is no number asks for none |
| `Spares.SwapTakesPlace` | internal/gedata/jobhosts.go:240-249 | a swap puts the spare in the lost host's place, or changes nothing |
| `Spares.SwapsConserveGrant` | internal/gedata/jobhosts.go:215-252 | whatever swaps are recorded, stale or garbage, hosts, spares and lost hosts are a permutation of the grant and the number of hosts never changes |
| `Spares.SplitSpares` | internal/fabricator/fabricate.go:174-187 | the last k hosts are spares, never the master; a warning exactly when none but the master would be left |
| `Spares.JobLayout.Replace` | internal/layout/schema.go:56-65 | one replacement in place |
| `Spares.SplitsAgree` | internal/gedata/jobhosts.go:215-236 | without swaps both views give the same hosts and spares, whenever both see the hosts first in the same order |
| `Spares.ViewsAgree` | internal/layout/schema.go:56-73 | after any replacements, replaying the recorded swaps gives the layout |
| `Spares.OutsideIsInside` | internal/gedata/jobhosts.go:215-260 | end to end through the text of the job context: the outside view of a job is the inside one |
| `TaskPolicy.ApplyPolicy` | internal/plan/taskpolicy.go:70-84 | the geometry of each policy, and exactly when it is refused |
| `TaskPolicy.NodeGeometry` | internal/plan/taskpolicy.go:98-118 | one task a node, CPUs per task the fewest slots, a warning exactly for unequal slots |
| `TaskPolicy.GpuGeometry` | internal/plan/taskpolicy.go:124-162 | one task a device, CPUs per task the least share, a warning exactly for unequal shares, refused exactly without devices |
| `TaskPolicy.CpusPerTaskIsOptimal` | internal/plan/taskpolicy.go:96-162 | c CPUs per task fit on every node if and only if c is at most the policy's |
| `Fabricate.BuildTasks` | internal/fabricator/fabricate.go:374-397 | the job's rank map |
| `Fabricate.RankMapAt` | internal/fabricator/fabricate.go:369-397 | it numbers the tasks from 0 node by node with local ids from 0 |
| `Fabricate.Validate` | internal/fabricator/fabricate.go:401-428 | what the self-check reports |
| `Fabricate.CheckPassesIff` | internal/fabricator/fabricate.go:401-428 | the check passes exactly if both exports decode to the right sums and sizes and the characters are plain |
| `Fabricate.SelfCheckSucceeds` | internal/fabricator/fabricate.go:399-428 | for every allocation of ordinary host names the self-check finds nothing |

## Left out

- Planner.MakePlan: the plan's partitions, default partition and GPU complex are not modelled; they are only printed or written to the configuration.
- Uninstaller.PlanUninstall: a warning says which of the two it is, not its wording.
- InstallUndone.HistoryIsTracked: one PE name for the whole history; what two names lead to is UninstallCases.TwoNamesRefuse. A run whose record was never written is covered where it replaced nothing of the site's: install created the PE, and --force met no starter of the site's on a queue it names.
- UninstallRestores.HistoryIsUndone: the same histories as InstallUndone.HistoryIsTracked.
- UninstallRestores.OwnPEIsAlwaysUndone: the same histories; a starter replaced by a forced run that recorded nothing is lost (UninstallCases.UnrecordedStarterIsLost).
- UninstallAgain.TakenPERerunIff: takes undoable records, since without that not even an uninterrupted uninstall gives the site back.
- InstallUndone.RunStaysTracked: takes sites with non-empty PE hook values and nothing pointing into the tree before the first install, as Grid Engine prints NONE for an unset value.
- Nodelist.RoundTrip: takes names whose last digit run is below the largest 64-bit int, since larger ones saturate and a range up to that value would overflow the loop counter.
- PlacementSeen.OwnShareEach: each node's own number is given for layouts without negative counts; in the code a negative one takes away from the ranks of the step.
- CpuList.ParseList: CPU numbers do not wrap around; a range up to the largest 64-bit int would overflow the loop counter.
- HostFile.ParsePEHostfile: slot sums are unbounded integers.
- ConfigMerge.MergeIsIdempotent: takes mappings without repeated keys, which the configuration's parser also expects.
- SharedHost.PinningNeverCrossesJobs: takes hosts whose slot capacity is known; without it the code falls back to counting CPUs, which it calls erring toward shared.
- Demux.Demux.Handle: write errors of the terminal are not modelled, nor those of the channel.
- QrshLaunch.Start: the one-time slot notice and the wording of errors are not modelled; the clock is monotone and advances by at least each sleep.
- RankAccounting.FinishedRun: ranks are identified by their position in the step.
- Placement.Place: warnings say of which host or how many ranks and nodes they are, not their wording.
- Path cleaning and symbolic links in the tree matcher; the tree is a predicate on the text of a command's first word.
- BusyJobs, which compares the deleted objects with running jobs before an uninstall starts.
- Files, ownership and atomic writes of the installed tree and of the record.
- The network, TLS-less authentication and liveness of the control channel, process creation and the environment of a rank.
- OpenMPI's binding override, which repeats the pinning decision over all nodes.
- XML, JSON and YAML parsing: decoded records, and a mapping tree without anchors, are where the model starts.
- The nil record of a site never installed, modelled as the empty record, and duplicate adds to a pe_list, a no-op here.
- Memory scaling in floating point, time parsing, man pages, report texts and option tables.
- The srun, sbatch, squeue, scancel and scontrol commands themselves.
