# ESXi Mover, verified

A model of a tool that moves a virtual machine between ESXi datastores by driving an unreliable host over SSH, and
proofs of what must hold over every one of its runs. Any command's reply may be lost after the command took effect;
reads may fail; the operator may act at any moment.

The center is the migration protocol. `Hosts.Host` is the host as the engine sees it. Its field `w` is the truth
(registrations, power, snapshot trees, files, clones, lock); each change takes effect or not and reports what it
likes; and every command goes into a ghost trace with the reply the tool saw and the truth before and after. A trace
is judged by `Hosts.Judge`: whether it is a history of such a host, whether every change was allowed where it was
issued (`MayIssue`), and whether it was made under the job's own lock. The engine (`Engines.Engine`, `Cold`, `Live`)
is the imperative code of the program over such a host and a `Jobs.Job`, whose every access is preceded by any number
of operator calls. `Cold.Run` and `Live.Run` are proved to produce safe histories whatever happens, `Sessions` puts a
whole job together with later rollbacks, and `Histories` says, over the steps of a trace and without the tool's own
bookkeeping, what a safe history is. A host that is `reliable` runs every command and delivers every reply; on it the
same methods are proved to complete, so the contracts cannot be met by doing nothing.

The rules ask for evidence, not for luck: a clone, a shutdown, a snapshot or a copied delta needs a full check of the
source right before it; a clone also that no stop was requested when last asked; a forced power-off the operator's
order, received and then followed by such a check; a registration command an inventory that shows what it relies on,
and an unregister also that the VM was just read off; the lock itself a full check, which a registered target fails. A
switch needs every disk's checks to have passed after its clone ended well and after the target VMX was last read, and
that read to have given the reviewed configuration: in a live migration with each disk on the very delta the source VMX
named when it was last read, each delta and the snapshot metadata first copied and then compared.

Around the center: the detached worker as a transition system over its marker files (`Detached`), the lock between any
number of jobs (`Locks`), the server's handshake (`Server`), the planner's names, sharing analysis, space arithmetic
and target configuration (`Names`, `Chains`, `Space`, `Plans`), the text formats (`Vmx`, `Devices`, `Vmdk`), shell
quoting against the lexer of the POSIX shell (`Shell`), and the folding audit log (`Audit`).

What the proofs show that the program's own words do not say:

- `Detached.LateSignals`: "nothing once the clone has finished" (internal/esxi/detached.go:144-147) fails for exactly
  those stops that tested for the exit marker before it was published, and found the clone's process id or still will:
  each of them may signal afterwards, and no other. `Detached.EarlyStopsMayBeLate` is such a run.
- `Locks.LooksMustSettle`: a job that looks at its mark again while an archive command of its own is under way can go
  on to archive the next job's lock, from every sound state; a look with none under way never can. With settled looks
  only, no interleaving does (`Locks.OneHolder`); `Locks.UnsettledRaid` is a run that does.
- `Names.DeltasAreNew`: the deltas that pass the live collision check keep clear of everything the plan reserved if and
  only if each disk's data file has, whatever the case, a name that check takes to be in use. The two name it
  differently unless the extension is `.vmdk` or absent (`Names.ExtentIsFlat`), so `Names.OtherExtension` collides. The
  launch of a clone refuses such a disk (internal/esxi/detached.go:113), so a migration of one fails before any delta
  is copied.
- A rollback does not ask for the lock. What it registers is done under the job's lock exactly when that is still held
  (`Engines.Engine.UnderLock`, part of `Rollback`). After a MOVE whose archive took effect with the reply lost it is
  not: `Rollbacks.UnownedRollback` is a safe history that ends so. It touches no lock it does not hold.
- After the switch of a live MOVE the source keeps the job's snapshot, and a rollback leaves it there
  (internal/migration/engine.go:589-597): its `RolledBack` means the registration alone, while `RolledBack` after
  `Live.Run` means the source as it was found (`Sessions.Session`, `Live.Run`).
- A target that is registered before the job begins blocks it: `sharedCheck` must read every other registered VM, and
  one in a folder that does not exist yet cannot be read (internal/migration/analyzer.go:115-125, 523-543). So a job
  that changes anything found no target registered (`Histories.ChangesNeedNoTarget`).

## Model

| member | source | states |
|---|---|---|
| Jobs.Job.RequestStop | internal/migration/state.go:85-101 | a stop is accepted exactly when confirmed and still honoured; once accepted it stays, even when the channel is full, and a queued stop implies the flag |
| Jobs.Job.Approve | internal/migration/state.go:129-141 | the check of the other actions: the phase must await shutdown, force must be confirmed |
| Jobs.Job.Send | internal/migration/state.go:142-147 | the action is queued exactly when none is pending |
| Jobs.Job.Operator | internal/migration/state.go:129-148 | any number of operator calls keep "never stop and final together" and touch nothing the engine publishes |
| Jobs.Job.Proceed | internal/migration/state.go:108-121 | passes the point of no return exactly when no stop was accepted before |
| Jobs.Job.Receive | internal/migration/engine.go:273-290 | a received stop implies the flag; a queued force may still be consumed after a stop |
| Hosts.Host.constructor | internal/migration/types.go:28-62 | a host whose trace is judged by `Judge`, from any first truth |
| Hosts.Host.Unregister | internal/esxi/ssh.go:270-274 | takes effect or not, on the VM with that id only, whatever it reports; allowed only where `MayUnregister` holds |
| Hosts.Host.StartClone | internal/esxi/detached.go:112-143 | the clone may run whatever the reply; the launch is remembered as awaiting its exit |
| Hosts.Host.CloneStatus | internal/esxi/detached.go:160-187 | only a read exit marker ends the wait for a clone; a lost or failed poll never does |
| Hosts.Host.RemoveAllSnapshots | internal/esxi/snapshot.go:59-78 | a merge clears the tree or not; allowed only on exactly the job's snapshot with no exit awaited |
| Hosts.Host.Acquire | internal/esxi/detached.go:39-46 | success means the lock was free and is now this job's; a failure may leave it unmarked |
| Engines.Engine.Scan | internal/migration/engine.go:394-416 | goes through the inventory and refuses a second row for either VMX file |
| Engines.Engine.Registrations | internal/migration/engine.go:383-418 | an answer is the truth about both registrations; an error is never taken for one |
| Hosts.SeenInAll | internal/migration/engine.go:394-417 | what the rows add up to is the two ids, for every listing that names the two VMs as they are |
| Engines.Engine.RequireOff | internal/migration/engine.go:205-214 | success means the VM is off |
| Engines.Engine.Guard | internal/migration/engine.go:192-204 | success means source, tree, disks, lock and folder are as planned and the source is off |
| Engines.Engine.Finish | internal/esxi/detached.go:47-58 | archives only this job's own lock |
| Engines.Engine.LiveGuard | internal/migration/live.go:422-446 | success means the source alone is registered and runs on exactly the job's snapshot and the same deltas |
| Engines.Engine.AwaitDecision | internal/migration/engine.go:271-290 | a stop or the end of the context ends the wait; whatever is issued is allowed, so power is cut by force only as `Histories.ForcedOnOrder` says; nothing else moves |
| Engines.Engine.Shutdown | internal/migration/engine.go:233-296 | success means the source is off; nothing else moved; ends with the context |
| Engines.Engine.Observe | internal/migration/engine.go:313-356 | one poll: an exit is reported only for a marker that was read |
| Engines.Engine.Halt | internal/migration/engine.go:357-375 | a kill proves no exit; the stop deadline is set with the first kill and kept, and past it the wait does not go on |
| Engines.Engine.Watched | internal/migration/engine.go:306-380 | ends, whatever the host replies, by the clone deadline, and by the stop deadline after the first kill; a stop known at the start is sent in the first round |
| Engines.Engine.ReadSpace | internal/migration/engine.go:347-355 | the watch's cause to stop is what the space reads so far say (`CauseOf`) |
| Engines.CauseIsARead | internal/migration/engine.go:347-355 | there is a cause exactly when some read was below the minimum, or failed longer after the last good one than allowed |
| Engines.Engine.WaitClone | internal/migration/engine.go:298-381 | an exit is returned only when seen; no error if and only if it is 0, no stop was requested and no space read since the launch gave a cause; an exit not seen leaves the phase `Unknown`; both deadlines hold; nothing is launched |
| Engines.Engine.VerifyDisk | internal/migration/verify.go:13-48 | success means chain, thin standalone shape, capacity and extent size passed after the clone's good end |
| Engines.Engine.CopyFiles | internal/migration/verify.go:62-75 | success means every selected file has an equal copy; nothing is overwritten |
| Engines.Engine.Matches | internal/migration/verify.go:84-100 | comparing printed forms is comparing configurations; the disks and their names are as demanded |
| Engines.Engine.CopyConfig | internal/migration/verify.go:62-101 | success means the last read of the target VMX was exactly the configuration given, and every selected file has an equal copy |
| Engines.Engine.Leave | internal/migration/engine.go:433-448 | takes the source out; published registrations are true or open on return |
| Engines.Engine.Enter | internal/migration/engine.go:449-471 | registers the target, or puts the source back when the failure is confirmed |
| Engines.Engine.Commit | internal/migration/engine.go:419-487 | success only with the target alone registered and off; never both; published registrations true or open on every return; at most one unregister |
| Engines.Engine.PowerOn | internal/migration/engine.go:488-546 | a power-on is issued only when the inventory just showed the target and not the source; answers at most one question |
| Engines.Engine.Rollback | internal/migration/engine.go:547-598 | success ends with the source alone registered and the lock archived; a running target is refused; published registrations true or open; registrations change under the job's lock exactly if it was held; the snapshot trees stay; starts nothing |
| Engines.Engine.Rollbacks | internal/migration/engine.go:549-567 | over any sequence of calls the target is told to leave the inventory at most once, and under the lock exactly if it was held |
| Rollbacks.UnownedRollback | internal/migration/engine.go:547-598 | for every cold MOVE of one disk, a safe history, owned up to a switch and an archive whose reply is lost, in which a rollback then restores the source without the lock |
| Engines.MarkFailed | internal/migration/live.go:83-92 | an unknown outcome stays unknown |
| Cold.Lower | internal/migration/engine.go:72-90 | the source is down and the plan confirmed before any clone |
| Cold.Launch | internal/migration/engine.go:112-118 | one launch, then the wait; an exit not seen shows as `Unknown` |
| Cold.MakeDisks | internal/migration/engine.go:91-127 | every disk cloned once, ended with 0 and verified, or at most one exit not seen; none once a stop was accepted |
| Cold.PassStop | internal/migration/engine.go:128-133 | an accepted stop wins over the point of no return |
| Cold.Verify | internal/migration/engine.go:134-146 | the target counts as verified only when all its evidence is there |
| Cold.Deliver | internal/migration/engine.go:134-167 | completes only with the switch done, the target verified, the configuration files copied and the lock archived |
| Cold.Stopped | internal/migration/engine.go:35-48 | releases the lock only with every launched clone's exit seen |
| Cold.Run | internal/migration/engine.go:21-168 | over every run: all changes allowed and owned; `Unknown` exactly while an exit is awaited, lock kept; a stop never ends in `Completed` nor reaches the switch; published registrations stay true; completes on a reliable host |
| Live.Consolidate | internal/esxi/snapshot.go:59-78 | merges exactly the job's own snapshot and no other tree |
| Live.Merged | internal/migration/live.go:597-622 | success means no snapshot is left and the VMX names the base disks |
| Live.RestoreRegistration | internal/migration/live.go:636-658 | success means the source alone is registered, and is published so; a target that is not off stays registered and ends it |
| Live.MergeBack | internal/migration/live.go:659-679 | a tree that is neither empty nor exactly the job's snapshot is refused untouched |
| Live.RestoreSource | internal/migration/live.go:632-684 | success means the source as it was found: registered alone, no snapshot, its own disks, lock archived |
| Live.MakeDisks | internal/migration/live.go:173-208 | every base disk cloned, verified and with its content id kept, behind the job's snapshot; or one exit not seen, snapshot kept; none once a stop was accepted |
| Live.Shadow | internal/migration/live.go:163-217 | the source runs on the same deltas up to the point of no return |
| Live.CutoverIsReviewed | internal/migration/live.go:229-249 | the configuration the cutover writes is the reviewed one with each disk on its delta, key by key, and nothing else |
| Live.Cutover | internal/migration/live.go:212-264 | success means every piece of evidence for the target is there, all deltas and the metadata copied before they were compared, its VMX last read naming the copied deltas, which are the ones the source still runs on, the files copied, and the source off |
| Live.MergeCopy | internal/migration/live.go:318-349 | both merged and the copy unregistered, each only after the copy was read off; both registered only while off |
| Live.Move | internal/migration/live.go:272-291 | once the switch succeeded nothing is undone |
| Live.Recover | internal/migration/live.go:148-162 | with an exit not seen nothing is touched, otherwise the source is restored |
| Live.Run | internal/migration/live.go:94-316 | over every run: all changes allowed and owned; `Unknown` exactly while an exit is awaited, snapshot and lock kept; `RolledBack` leaves the source as found; a stop never ends in `Completed` nor reaches a registration command or the switch; after a switch the target stays alone and is published truly, also when the job fails later; completes on a reliable host |
| Sessions.Migrate | internal/migration/engine.go:21-33 | a whole migration is a safe history under the job's own lock; completed means verified and copied; what is published is true, live once the switch succeeded |
| Sessions.Session | internal/migration/engine.go:547-598 | and stays one through any number of rollbacks, which leave what is published true, and the job's snapshot where it is |
| Histories.PendingIsAwaited | internal/migration/live.go:189-200 | an exit is awaited exactly when a launch was issued and no marker was read since |
| Histories.EachStep | internal/migration/engine.go:49-168 | what a verdict over a whole trace says of each of its steps |
| Histories.GuardIsGuarded | internal/migration/engine.go:192-204 | a guard counts exactly while nothing has happened to the source since it passed |
| Histories.EachStepIsGuarded | internal/migration/engine.go:92-127 | every clone, shutdown, snapshot and delta copy comes right after a full check of the source; before a clone every earlier one ended well and passed its checks, and after the last of them it was asked and found that no stop was requested |
| Histories.SourceLeavesLast | internal/migration/engine.go:92-155 | the source is unregistered only when the last inventory showed it alone, after each disk's launch, exit 0, and checks that passed since the target VMX was last read as the reviewed one (live: each disk on the delta last read from the source VMX, deltas and metadata copied before they were compared), and a last power read of "off"; cold, right after a full check |
| Histories.OnlyTheTargetStarts | internal/migration/engine.go:488-500 | every power-on names the target, in a MOVE that asks for it, after a last inventory with the target and without the source, and with the source unregistered and off |
| Histories.RegistersWhatIsRead | internal/migration/live.go:321-333 | every register and unregister follows a last inventory that showed that VM missing, or there; the target is put in only verified; a VM is taken out only when its power was the last one read, off, with nothing started since |
| Histories.ListedIsTrue | internal/migration/engine.go:433-471 | what the last inventory said of the two VMs is still so, until a registration command |
| Histories.ForcedOnOrder | internal/migration/engine.go:271-290 | a forced power-off follows an order of force that is the last order received and not yet carried out, and a full check after it |
| Histories.NeverTwoVms | internal/migration/live.go:318-320 | once the lock is asked for, which happens only with no target registered: never both running, and both registered only in a live COPY, both off |
| Histories.ChangesAreAcquired | internal/migration/engine.go:62-64 | a job that did not hold the lock at first changes nothing before it asked for it |
| Histories.ChangesNeedNoTarget | internal/migration/analyzer.go:523-543 | a job that changes anything found no target registered when it began |
| Histories.LaunchedOnce | internal/migration/engine.go:112-116 | no disk is cloned twice |
| Histories.MergedAfterExits | internal/migration/live.go:144-156 | no merge and no archive is issued while an exit is awaited; only the job's snapshot is merged |
| Histories.AlwaysAccounted | internal/migration/live.go:25-27 | at every moment the clones on the host are launched ones, and those not awaited have ended |
| Histories.NoCloneWhenMerged | internal/migration/live.go:25-27 | when a merge or archive is issued, no clone is running on the host |
| Histories.FrozenWhileCloning | internal/esxi/snapshot.go:48-50 | while a clone runs, the source is off or on the job's snapshot, so its base disks cannot change |
| Histories.NothingAfterFinish | internal/migration/engine.go:157-167 | in a safe, owned history nothing is changed after the lock was archived |
| Histories.AcquiredOnce | internal/migration/engine.go:62-64 | the lock is never asked for after it was asked for or archived |
| Detached.StepKeepsInv | internal/esxi/detached.go:116-187 | every line of every script keeps the invariant of the marker files |
| Detached.StartsOnce | internal/esxi/detached.go:138-139 | however often the launch script runs, one clone at most |
| Detached.DoneIsTrue | internal/esxi/detached.go:160-179 | DONE n only after the clone ended with n, or a power refusal with n not 0 and no clone |
| Detached.OffBeforeClone | internal/esxi/detached.go:131-135 | a cold clone starts only after the check on the host said off |
| Detached.StopsSignalTheClone | internal/esxi/detached.go:144-159 | whatever a stop signals is the only clone ever started |
| Detached.LateSignals | internal/esxi/detached.go:144-159 | once the exit is published, a stop may still signal if and only if it tested for the marker before and has, or will find, the clone's process id |
| Detached.EarlyStopsMayBeLate | internal/esxi/detached.go:153-156 | a run in which such a stop signals after the exit was published |
| Detached.StepRefines | internal/esxi/detached.go:112-143 | seen through the markers the worker behaves as the clone of the host model |
| Locks.OneHolder | internal/esxi/detached.go:39-58 | with settled archives at most one job holds the lock and none archives another's |
| Locks.LooksMustSettle | internal/esxi/detached.go:47-58 | from every sound state, a look leads to no raid by settled jobs if and only if no archive of its own job is under way |
| Locks.UnsettledRaid | internal/esxi/detached.go:47-58 | a run in which two archives under way raid the next job's lock |
| Server.OneAtATime | internal/web/server.go:203-217 | one engine at most, no rollback beside it, one job per analysis |
| Server.KeepsFresh | internal/web/server.go:321-357 | a start uses the session's report up |
| Names.FreeName | internal/migration/external.go:42-65 | ends for any used names and gives the first candidate free with its data file, ignoring case |
| Names.ItoaIsInjective | internal/migration/external.go:62 | different numbers are printed differently |
| Names.FoldingKeepsNumbers | internal/migration/external.go:47-52 | every rune-by-rune case folding keeps numbered names apart, which the ending needs |
| Names.NameDisks | internal/migration/analyzer.go:206-262 | no collision is reported exactly when the VMX, disks and data files are pairwise distinct |
| Names.NameFiles | internal/migration/analyzer.go:336-364 | and with the configuration files too |
| Names.DeltasFit | internal/migration/live.go:400-418 | accepts exactly the deltas that share no name with those in use nor each other, ignoring case |
| Names.DeltasAreNew | internal/migration/live.go:400-418 | all deltas that pass keep clear of the reserved names if and only if each disk's data file has a name taken to be in use |
| Names.DescriptorsAreCovered | internal/migration/live.go:405 | which is so for disks with the extension .vmdk or none |
| Names.ExtentIsFlat | internal/migration/live.go:405 | the two readings of a data file's name agree exactly for .vmdk or no extension |
| Names.OtherExtension | internal/migration/analyzer.go:257 | and not for others: a delta that passes although the plan reserved its name |
| Chains.OtherChain | internal/migration/analyzer.go:578-632 | accepts exactly the isolated chains of at most 33 descriptors; a cycle ends |
| Chains.SharedCheck | internal/migration/analyzer.go:523-576 | passes exactly when every other registered VM is apart |
| Chains.NothingShared | internal/migration/analyzer.go:578-582 | then no file of the source is reachable from another VM through any number of parents |
| Space.Reserve | internal/migration/analyzer.go:34-39 | no step overflows where it accepts, and it accepts all that leaves room |
| Space.Totals | internal/migration/analyzer.go:294-306 | exact sums, refused exactly when they do not fit; allocated never exceeds provisioned |
| Space.NoLaterBlock | internal/migration/analyzer.go:418-441 | once the check passed no later guard fails on space while clones keep to their allocation |
| Space.OneByteMore | internal/migration/analyzer.go:418-436 | one byte more and it may |
| Plans.Report.Advised | internal/migration/types.go:127-144 | ready exactly when no row blocks; a problem is folded into its row, no row is lost |
| Plans.Rewrite | internal/vmx/analyzer.go:101-117 | fails exactly for a missing key; runtime paths are left out, the rest is kept or renamed |
| Plans.Classify | internal/migration/analyzer.go:377-390 | blocks exactly when an unclassified value names a datastore path |
| Plans.TargetIsLocal | internal/migration/analyzer.go:377-407 | in a classified plan only ISO keys keep a datastore path, because the exempt and the left-out keys agree |
| Plans.TargetIsSound | internal/vmx/analyzer.go:101-117 | no disk is left out with the runtime paths, and the keys stay legal: what `Sessions.Sensible` asks of a plan |
| Plans.MakePlan | internal/migration/analyzer.go:206-407 | a ready plan has every active disk once, in key order, and such a target |
| Vmx.Decode | internal/vmx/parser.go:65-86 | computes the decoding the round trip is about |
| Vmx.UnescapeEncoded | internal/vmx/parser.go:65-98 | decoding undoes encoding for every byte string |
| Vmx.Parse | internal/vmx/parser.go:19-64 | the scanner loop computes the specified parse |
| Vmx.String | internal/vmx/parser.go:99-110 | prints every key once, in order |
| Vmx.ParsedIsLegal | internal/vmx/parser.go:19-64 | every parse has legal lower-case keys, NUL-free UTF-8 values, a UTF-8 or absent encoding, and is not empty |
| Vmx.RoundTrip | internal/vmx/parser.go:19-110 | for any order of the keys, parsing the printed lines gives a legal configuration back exactly when they fit the scanner |
| Vmx.ParsePrint | internal/vmx/parser.go:19-110 | parsing what was printed gives every legal configuration back exactly when its lines fit the scanner; otherwise it is refused |
| Vmx.PrintedIsInjective | internal/vmx/parser.go:99-110 | equal printed forms come from equal configurations |
| Vmx.ComparePrints | internal/migration/verify.go:88-90 | comparing printed forms compares configurations, however long the lines |
| Devices.Analyze | internal/vmx/analyzer.go:29-99 | the sorted disks are exactly the active ones; no block exactly for a clean configuration |
| Vmdk.AddExtentIsExact | internal/vmdk/descriptor.go:40-47 | an extent is refused exactly when empty or when the size would not fit an int64 |
| Vmdk.ParseDescriptor | internal/vmdk/descriptor.go:29-88 | the size is exactly 512 bytes per sector, without overflow |
| Shell.Argv | internal/esxi/executor.go:71-80 | joins the quoted arguments |
| Shell.FeedQuote | internal/esxi/executor.go:71-72 | a quoted argument is read as one literal word, whatever it holds |
| Shell.ArgvRoundTrip | internal/esxi/executor.go:71-80 | the shell reads back exactly the arguments, for every list of them |
| Shell.LineDelivers | internal/esxi/detached.go:127-141 | a command line inside any script is read as its arguments, followed by exactly the tokens of what stands after it |
| Shell.NestedQuoting | internal/esxi/detached.go:127-141 | through both levels of the launch script the shell reads exactly the worker and exactly the clone's arguments: each command follows a newline; after the outer come exactly its three redirections, an ampersand and the end of the script, after the inner an ampersand |
| Audit.Log.Add | internal/esxi/executor.go:39-61 | the loop computes the specified fold, and keeps at most 500 entries |
| Audit.Conserved | internal/esxi/executor.go:39-61 | runs in the log and runs evicted add up to the commands added |
| Audit.LogIsFaithful | internal/esxi/executor.go:42-65 | each entry stands for all like commands of its stretch, none folded across a failure or another command; one entry per poll and stretch; ordered by latest command |

## Left out

- `inspect` as a whole: the engine sees it as one read, whose success says that source registration, snapshot tree,
  disk names, lock and target folder are as planned; its pieces are in Names, Chains, Space, Plans and Devices. The
  fingerprint is taken to be injective.
- The snapshot metadata (`liveMetadata`): its contents are one comparison read, and writing it is one of the copies.
- Which files a delta consists of: its copies are commands of their own, and its checks are reads of their own.
- Hosts.Host.StartClone: a launched clone is `Running` until its marker is there, also when the worker died; Detached
  says what the marker means.
- Hosts.Host.Inspect: does not model a report that changes while it is read.
- An effect that settles only after the next read, except in Locks; other actors on the host, except VMs that come and go.
- Chains.SharedCheck: does not model reads that fail one time and succeed another; a path is readable or not.
- Names.FreeName: does not fix the case folding; any that goes rune by rune will do.
- Shell.NestedQuoting: does not model expansions and operators of several characters; a word that has an expansion is
  marked as not literal, and an operator is read character by character. NUL does not occur in arguments.
- Vmx.Parse: does not model lower-casing beyond ASCII results, which no legal key contains.
- Devices.Analyze: does not list the controllers and the texts of the blocks, only whether there are any.
- Plans.Report.Advised: does not model the advice beyond its title.
- `inspectFolder` and `vmxUses`: which other files in a disk's folder block or warn.
- Detached, Locks and Server are transition systems and not classes: what counts there is how the lines interleave.
- Sessions.Migrate: begins on a host where the two VMs have different inventory ids; where a law says so
  (`Judge(..).first`), no clone of this job exists yet and the lock is not this job's, whose id is new.
- Progress, messages, logs, times and the downtime shown to the operator.
- SSH transport, host keys, TLS, login, cookies, the browser side, and the VMXF file's XML: input and output.
