# A model of the SR-IOV CNI plugin for RDMA pods

The plugin gives virtual functions (VFs) of SR-IOV network cards to pods. ADD moves one VF link per requested
interface into the pod's network namespace, sets the VF's rates and vlan, notes what it did in a scratch
directory, runs IPAM and prints one merged result; if something fails, closures it deferred undo part of it. DEL
brings links back. All ADD and DEL processes of a host share one lock file in shared memory.

## How the model is built

* `host.dfy`: the host. Its state is the links (index, namespace, name, up, address), the VFs (their links, vlan
  and rates), and the scratch files. `Exec` is every call a process makes outside itself. A `World` decides, call
  by call, whether the call works and what made-up answers it gives (the order of a listing, the table of the
  hardware query, the placements, the IPAM answer), so a theorem that holds for every `World` holds for every
  pattern of failures.
* `lifecycle.dfy`: one specification function per routine of `sriov/sriov.go`, call for call and branch for branch.
* `plugin.dfy`: the routines as they run, with loops, early returns, a host object and a configuration object
  changed in place, and a stack of closures that share `err`. Each method is proved equal to its function.
* `programs.dfy`: the same routines one call at a time, as what a process holds between two calls. Running such a
  program alone is proved to have the effect of the function.
* `lock.dfy`, `commands.dfy`: the lock protocol as a transition system over any number of such programs, with
  crashes, takeovers and unlinks of another process's file.
* `hostinvariant.dfy`, `everystate.dfy`: what holds of the host in every state of every run, whichever calls fail;
  `overlap.dfy`, `overlaprun.dfy`: what overlapping bodies can break, and a run from the start that breaks it.
* `placement.dfy`, `setuplaw.dfy`, `partial.dfy`, `progress.dfy`: what a setup does, exactly when it succeeds, how
  far one that fails has got, and what the placement loop has done after any number of turns.
* `anysetup.dfy`, `anyadd.dfy`, `exits.dfy`: what every routine answers, and what it leaves, in closed form for every
  pattern of failing calls; what ADD prints, and how ADD and DEL end.
* `rollback.dfy`, `allback.dfy`, `restore.dfy`: what a failed ADD undoes, when all links are back, and when the whole
  host is.
* `reclaim.dfy`, `panic.dfy`, `rescue.dfy`: what DEL does, when it panics, and what it loses when calls fail.
  `roundtrip.dfy`, `aftermath.dfy`: DEL after an ADD that succeeded, and after one that ended in any way.
  `scratch.dfy`: the scratch directory. `witness.dfy`: hosts and worlds that meet the premises, or break a promise.
* `cnitypes.dfy`, `conversionlaws.dfy`, `merge.dfy`: results of the CNI Specification 0.2.0 and 0.4.0, their
  conversions, and the fold that makes one answer out of one result per interface.
* `cniargs.dfy`, `text.dfy`: the `CNI_ARGS` loop, decimal text, interface names and file names.

Main theorems: `Commands.CommandsSerialize`, `Commands.CommandsOverlap`, `Commands.CommandsRecover`,
`EveryState.InvariantAlways`, `EveryState.CoreAlways`, `EveryState.NobodyElsesVf`, `OverlapRun.InvariantCanBreak`,
`RoundTrip.AddThenDel`, `Aftermath.AnyAddThenDel`, `Reclaim.DelExact`, `Reclaim.DelTwice`, `Rescue.DelFortune`,
`Panic.DelPanics`, `Rollback.RollbackExact`, `Rollback.LastTurnUndone`, `Restore.RestoredIff`, `AllBack.HomeByTurn`,
`AllBack.EthTaken`, `AnySetup.SetupAny`, `AnyAdd.PrintsWhatIpamSaid`, `AnyAdd.AddExit`, `Exits.DelExit`,
`Exits.DelCrashes`, `Placement.ScanFirst`, `SetupLaw.SetupExact`, `Placement.IdentificationsAgree`,
`ConversionLaws.RoundTrip020`, `ConversionLaws.NormalFormIsFixed`, `Merge.MergeRefinement`, `CniArgs.ParseOfJoined`.

## What the premises mean

* `Inv`: names are unique in a namespace; in the initial namespace `dev<k>` is only worn by the link with index k;
  every VF has one link of its own, a number below its physical function's total, and a configuration. A link's
  index and address never change. `Inv` is kept by every command and every failure of its calls.
* `DevOk(.., Pod(p))`: the same discipline for `dev<k>` in a pod. It is kept too.
* `TempSafe`: if a VF's free link is called eth0, and so needs a temporary name, no link in the pod has a name of
  the form `sriov<n>` with n below 9999. Under it no setup names a wrong link (`Placement.SetupDone`); without it
  one can report success after doing so (`SetupLaw.SetupMistake`).
* `PfsApart`: a physical function's link is not the link of a VF.
* `AllOwned`: the links to reclaim are links of VFs, whose physical functions are in the initial namespace.
* `Faithful`: the hardware query lists every VF under its link's address and no address twice. `Cooperates`: all
  calls work, the listing lists the pod, and the table is faithful.
* Of the kernel: a net directory lists the VF's links that are in the initial namespace; a rename needs the link
  down and the name free; a move needs the name free in the target and takes the link down; a call that fails
  changes nothing.

## Where the code does less than its comments say

* `err` is one variable for all deferred closures, and a rollback that finds its interface clears it
  (`sriov/sriov.go:1020-1030`). So a failed ADD releases at most one interface, the last one in the pod, and drops
  the leases from there up (`Rollback.RollbackExact`). The comment at `sriov/sriov.go:1019` promises that any
  changes are rolled back. With calls that work, all links are back exactly if none was out, or one alone that the
  rollback finds and that has a record (`AllBack.AllBackIff`). Turn by turn (`AllBack.HomeByTurn`): an IPAM or
  configuration failure must hit the first interface; a setup that fails without having moved its link must be the
  first or the second, since it releases the interface before it (`AllBack.SetupFailedClean`).
* A setup sets the rates of its VF, and a vlan, before it moves the VF's link. If it fails in between, nothing resets
  them: with the first interface the rollback finds nothing to release and does nothing (`Restore.FirstSetupFails`),
  with the second it releases the first. `Witness.FailureLeavesMark` is a host on which that happens, with calls that
  all work. The promise for the whole host, links, configurations and records, is kept exactly if the links are back
  and, where the failing turn has moved none, it picked no VF or left no mark on it, and no eth0 with a record was in
  the pod before, which the rollback would release; every registered lease is dropped then (`Restore.RestoredIff`).
* Both releases remove a record before they bring the link back (`sriov/sriov.go:555`, `sriov/sriov.go:692`). If the
  removal works and the reading, or a later call up to the move, fails, no DEL takes the link back any more, even if
  all its calls work; nor does one if the removal fails and the move alone fails after the renaming. Otherwise the
  link is home or still reclaimable (`Rescue.DelFortune`, `Rescue.RollbackFortune`, `Rescue.LostForGood`).
* After an ADD in any world, a DEL whose calls work brings all links home unless a setup had failed after it moved its
  link, and left it without one of DEL's names or without a record, or the rollback's release had lost the link it
  found (`Aftermath.AnyAddThenDel`). `Witness.RollbackLosesLink` is a host on which the second happens.
* If eth<k> is taken in the pod by another link, the setup of turn k fails after moving its link, the rollback takes
  the other link for the interface, clears `err`, and leaves everything out (`AllBack.EthTaken`).
* A free link called eth0 gets a temporary name, and whether that worked is not checked. If the name is taken, and
  worn in the pod by a link that is down, the setup reports success for the wrong link (`SetupLaw.SetupMistake`;
  `Witness.MistakeHappens` is such a host).
* A missing IPv4 address and a failing print leave `err` nil, so nothing at all is undone
  (`Rollback.RollbackExact`).
* If saving the record is the call that fails, the VF is already in the pod and neither rollback nor DEL takes it
  back (`Rollback.LostWithoutRecord`).
* `resetVfVlan` takes any stat error other than absence for a hit, so it can reset the vlan of another VF
  (`Reclaim.LocateExact`, `Reclaim.LocateCanMiss`).
* A DEL that does not find the address of a link it reclaims dereferences a nil pointer when no vlan is configured,
  after moving the link and before resetting its rates; a failed query leaves no address to find. That happens in a
  goroutine of its own (`vendor/github.com/containernetworking/cni/pkg/ns/ns.go:280-288`), so the deferred unlock
  does not run and the lock file stays behind (`Panic.DelPanics`).
* The takeover after 300 failed creations does not check that the holder is dead, so bodies can overlap; how many
  is bounded by the takeovers so far (`Commands.CommandsOverlap`). A release looks its link up twice, so under an
  overlap a link can come back under the name that another link's index reserves (`Overlap.OverlapMixesNames`).
  Six commands get there from the start without a crash or a failing call (`OverlapRun.InvariantCanBreak`).
  A takeover from a dead holder is harmless (`EveryState.InvariantAlways`).
* A 0.2.0 result without an address converts up, and the outcome cannot be converted down
  (`ConversionLaws.DownAfterUp`).
* An ADD without interfaces prints a result without the configured DNS (`Merge.MergeRefinement`).
* DEL reports success although releases failed, and although the query for the addresses did (`Exits.DelExit`).

## Model

| member | source | states |
|---|---|---|
| Lock.AcquireShmMutex | sriov/sriov.go:920-943 | at most 301 opens: the first of 300 exclusive creations that works on an absent file enters; only if all are refused the 301st open takes the existing file over, or gives up if there is none or the call fails |
| Lock.EarlyOpen | sriov/sriov.go:922-932 | in a run, an open after fewer than 300 failures enters exactly if it works and there is no file, which it then creates |
| Lock.LastOpen | sriov/sriov.go:934-943 | the open after 300 failures enters on an existing file, or the process is gone |
| Lock.FileLaw | sriov/sriov.go:922-956 | the file goes only by an unlock that works and comes only by a creation; death leaves it and the host as they are |
| Lock.BoundedOverlap | sriov/sriov.go:920-956 | in every reachable state, with crashes, takeovers and unlinks of another's file, live bodies number at most the takeovers so far, plus one if the file exists |
| Lock.MutualExclusion | sriov/sriov.go:920-956 | a run without takeover has at most one live body, and only while the file exists |
| Lock.OverlapNeedsTakeover | sriov/sriov.go:934-943 | two live bodies at once mean that a takeover happened |
| Lock.Serializability | sriov/sriov.go:920-956 | every run without takeover is the bodies one after another in lock order, the last possibly in part; without a file all are complete |
| Lock.WaitOnStale | sriov/sriov.go:922-932 | against a file that nobody removes every open of a waiter up to its 300th failure fails and changes nothing else |
| Lock.TakeOver | sriov/sriov.go:934-943 | a waiter with f failures enters with its (301 - f)-th open, which counts as a takeover and leaves the host alone |
| Lock.StaleRecovery | sriov/sriov.go:920-956 | in any state with a file and a waiter that has failed f times: it enters with its (301 - f)-th open, completes its body on the host as it finds it, and its unlock lets another waiter's next creation succeed |
| Lock.UnlockAfter | sriov/sriov.go:945-956 | the unlock removes the file, does not touch the host, and lets a waiter in |
| Commands.CommandsSerialize | sriov/sriov.go:958-967 | any number of ADDs and DELs, any interleaving and crashes, no takeover: the host is their effects in lock order, at most the last one partial; once the file is gone every body, rollback included, is complete |
| Commands.CommandsOverlap | sriov/sriov.go:1202-1216 | the overlap bound with ADD and DEL as the bodies |
| Commands.CommandsRecover | sriov/sriov.go:920-956 | after any run of ADDs and DELs, crashes included, that left the file behind: a waiting command that does not die itself enters at its 301st open at the latest, does its whole work on the host as the dead left it, and frees the lock |
| Commands.FatalLeavesHost | sriov/sriov.go:961-991 | every log.Fatal of cmdAdd comes before the first change to the host |
| Commands.ProgramRuns | sriov/sriov.go:958-1257 | a command run alone call by call ends with its effect, before its unlock unless it died |
| Programs.AddRuns | sriov/sriov.go:958-1163 | the call-by-call ADD reaches its unlock with exactly the effect of the whole ADD, all deferred rollback included; it dies exactly on log.Fatal |
| Programs.DelRuns | sriov/sriov.go:1202-1258 | the call-by-call DEL reaches its end with exactly the effect of the whole DEL |
| Programs.UnwindRuns | sriov/sriov.go:967 | the unlock, registered first, runs after every other closure and nothing follows it |
| Programs.AddTame | sriov/sriov.go:958-1163 | whatever replies an ADD gets, after its unlock it makes no further call |
| Programs.DelTame | sriov/sriov.go:1202-1258 | whatever replies a DEL gets, after its unlock it makes no further call |
| EveryState.PrefixIsFailingBody | sriov/sriov.go:958-1258 | a body stopped after any number of calls left the host as the same body does in the same world with all calls failing from that moment on |
| EveryState.KeptHalfway | sriov/sriov.go:408-1068 | after any number of calls of an ADD, rollback or DEL the invariant holds and other pods, other links and other containers' records are as before |
| EveryState.InvariantAlways | sriov/sriov.go:408-956 | in every state of every run, with crashes and takeovers, in which no process enters while another body is live, the host invariant holds |
| EveryState.InvariantWithoutTakeover | sriov/sriov.go:408-802 | without a takeover nothing more is needed |
| EveryState.CoreAlways | sriov/sriov.go:408-956 | for any programs and any overlap: names stay unique, every VF keeps its one link, the links and their addresses stay the same |
| Overlap.OverlapMixesNames | sriov/sriov.go:613-638 | from five live bodies, three about to bring back one interface and two about to hand over a link, a run with all calls working after which a link lies in the initial namespace under the name dev<i> of another link i, so that the invariant fails |
| OverlapRun.AddReaches | sriov/sriov.go:958-1016 | with steady answers, an ADD that is offered a VF gets to the point where it hands over the VF's link, and has changed nothing but rates by then |
| OverlapRun.DelReaches | sriov/sriov.go:1218-1250 | a DEL of a pod with one recorded interface gets to the point where it has read the record and is about to remove it |
| OverlapRun.FiveInside | sriov/sriov.go:920-956 | from the start, with six requests, a calm run that brings five live bodies to where the overlap needs them |
| OverlapRun.InvariantCanBreak | sriov/sriov.go:920-956 | three DELs and two ADDs of one container and an ADD of another, all fresh, on a host with the invariant: a run without a crash and without a failing call that ends on a host without it |
| EveryState.OneHolder | sriov/sriov.go:408-454 | no VF is held by two pods and no link serves two VFs |
| EveryState.NobodyElsesVf | sriov/sriov.go:494-547 | a command for one pod neither takes from nor gives to another pod a VF, wherever it is stopped |
| HostInvariant.AddKeepsInvariant | sriov/sriov.go:958-1163 | ADD with its rollback, whichever calls fail, keeps the invariant, the set and addresses of links, all foreign links and all records of other containers |
| HostInvariant.DelKeepsInvariant | sriov/sriov.go:1202-1258 | the same for DEL |
| HostInvariant.SetupKept | sriov/sriov.go:390-548 | the same for setupVF, on every exit |
| HostInvariant.ReleaseKept | sriov/sriov.go:550-675 | the same for releaseVF, on every exit |
| HostInvariant.ReleaseCustomKept | sriov/sriov.go:677-840 | the same for releaseVFCustom, on every exit |
| HostInvariant.BringBackKept | sriov/sriov.go:619-638 | bringing a link back, however far it gets, keeps names unique and the name dev<k> with link k, and touches nothing foreign |
| HostInvariant.ScanFinds | sriov/sriov.go:408-450 | the scan changes only the rates of the VF it picks, whose directory it returns, with one or two links |
| Placement.ScanFirst | sriov/sriov.go:408-455 | with calls that work the scan succeeds exactly if the least VF with a non-empty directory has at most two links, and picks that VF |
| Placement.ScanSkips | sriov/sriov.go:410-430 | in any world, a visible VF is passed over only if a call of the scan failed |
| Placement.SetupDone | sriov/sriov.go:390-548 | a setup that reports success chose one free VF; unless that VF's link is called eth0 and the pod has a link with a temporary name, it took the link into the pod under the given name, set the VF's rates and a configured vlan, and saved its number; nothing else changed |
| Placement.HandDone | sriov/sriov.go:493-547 | the hand-over moves, renames and notes the link; the detour of a link called eth0 leaves no trace |
| Placement.RightLink | sriov/sriov.go:493-547 | in any world, a successful hand-over gave the interface's name to the link it moved exactly if that link was called as expected or no link of the pod was |
| SetupLaw.HandRestNeeds | sriov/sriov.go:511-547 | in any world, a hand-over of a link called as expected that succeeds found both names free in the pod |
| SetupLaw.HandExact | sriov/sriov.go:493-547 | with calls that work, the names in the two namespaces decide whether the hand-over succeeds and which link gets the interface's name; the detour of a link called eth0 included |
| SetupLaw.SetupExact | sriov/sriov.go:390-548 | with calls that work a setup reports success exactly if the physical function is there, a VF is visible, and the names allow the hand-over of the first one's link, or by mistake of another; the chosen link has the interface's name exactly in the first case |
| SetupLaw.SetupMistake | sriov/sriov.go:500-505 | the exact condition for success with the wrong link: the chosen link is called eth0, the temporary name drawn is taken, a link of the pod that is down has it, and eth0 and the interface's name are free there |
| Witness.MistakeHappens | sriov/sriov.go:500-505 | a host on which that happens |
| SetupLaw.SafeSetupExact | sriov/sriov.go:390-548 | where no link of the pod can have the temporary name, a setup with calls that work succeeds exactly if the offered link can be handed over, and then that link has the interface's name |
| AnySetup.ScanAny | sriov/sriov.go:408-455 | the scan in any world: it stops at the first number that the calls do not pass over, and what it answers there, the number handed on with an error included, is decided by the calls there |
| AnySetup.ScanOfAny | sriov/sriov.go:397-408 | the scan is reached exactly if the physical function is there and counted and both calls work, and then answers as above |
| AnySetup.HandRestAny | sriov/sriov.go:511-547 | the hand-over of a link called as expected, in any world: it succeeds exactly if its six calls work and both names are free; if not, how far link and record have got |
| AnySetup.HandAny | sriov/sriov.go:493-547 | the same with the detour of a link called eth0, where the pod has no temporary name |
| AnySetup.SetupAny | sriov/sriov.go:390-548 | setupVF in any world, in closed form: the VF number it hands on, success exactly if scan, vlan and hand-over succeed by the calls from their moments on, and the whole host after it on every exit |
| AnySetup.OneLinkOnly | sriov/sriov.go:457-464 | on any host a VF that shows two links is refused after the scan |
| Partial.SetupLeaves | sriov/sriov.go:390-548 | in any world a setup, however it ends, picks one free VF exactly if its scan ends well, moves at most that VF's link, changes no other link, sets that VF's rates, and its vlan exactly if one is asked for and that call works, and saves nothing unless it succeeds |
| Placement.IdentificationsAgree | sriov/sriov.go:408-450 | the scanned index, the VF found by address and the number found by the name scan of a returned link are one VF; the last exactly if no stat on a lower number fails |
| Placement.PlaceOneDone | sriov/sriov.go:1013-1068 | a turn past its setup gave one free VF away, registered its rollback with that VF's number, and, if complete, left the link up |
| SetupLaw.PlaceOneExact | sriov/sriov.go:1013-1068 | in a world where every call works a turn completes exactly if its setup can and IPAM gives an IPv4 address |
| AnyAdd.ConfigureAny | sriov/sriov.go:1060-1068 | the configuration of an interface succeeds exactly if the interface is there and its four calls work |
| AnyAdd.ConfiguresExactly | sriov/sriov.go:1060-1068 | after a setup that succeeded the interface is there, so that the calls alone decide |
| AnyAdd.TurnAny | sriov/sriov.go:1013-1068 | one turn in any world: which of five ways it ends, what it has deferred, and an answer that is what IPAM said at the moment the setup was through |
| AnyAdd.LoopAny | sriov/sriov.go:1013-1154 | the loop in any world: complete turns up to the last, the k-th answer is what IPAM said when turn k asked, and the end is that of the last turn |
| AnyAdd.AddExit | sriov/sriov.go:958-1162 | how ADD ends in any world: dead, early with an error, or by the loop and the print, each exactly when |
| AnyAdd.PrintsWhatIpamSaid | sriov/sriov.go:1011-1162 | what ADD prints: for each interface, in order, its name and the address, gateway and routes that IPAM gave when its turn asked, and the configured DNS |
| Progress.PlaceFromGave | sriov/sriov.go:1013-1068 | after k complete turns exactly k free VFs are in the pod as eth0 to eth(k-1) with records; other links, VFs and records are unchanged, and the registered rollbacks name those VFs |
| Rollback.PlaceFromLadder | sriov/sriov.go:1018-1057 | what is deferred: for each complete turn a rollback and a lease, and for the failing one a rollback, and a lease if its configuration failed |
| Rollback.UnwindExact | sriov/sriov.go:1020-1057 | unwinding with err drops leases downwards to the last interface found in the pod and releases that one; only a call that failed hides an interface |
| Rollback.RollbackExact | sriov/sriov.go:1013-1068 | for a failed ADD: leases at or above the last interface found are dropped, that interface alone is released at the moment the walk down the closures comes to it, all leases if none is found; with err nil nothing is done |
| Rollback.ReleaseOk | sriov/sriov.go:550-675 | releaseVF with calls that work: link back as dev<index> and down, rates 0, a configured vlan 0, record gone, nothing else changed |
| Rollback.LastTurnUndone | sriov/sriov.go:1018-1068 | failing in IPAM or configuration at turn k, the rollback restores turn k completely and leaves the host as the k turns before it left it |
| Rollback.AllBackIffFirst | sriov/sriov.go:1019 | after a failure past the setup every link is back exactly if the failing turn was the first |
| AllBack.ReleaseLinks | sriov/sriov.go:550-675 | a release whose calls work moves the link it finds exactly if there is a record, whatever VF number it was given |
| AllBack.RollbackLinks | sriov/sriov.go:1013-1068 | for every failure with err set and rollback calls that work: the actions, and the links after them |
| AllBack.AllBackIff | sriov/sriov.go:1019 | for every such failure: all links are back exactly if none was out, or one alone that has the name the rollback finds last and a record |
| AllBack.HomeByTurn | sriov/sriov.go:1013-1068 | the same turn by turn: k = 0, and the failing turn moved nothing or a link with name and record; or k = 1, it moved nothing and no eth1 is in the pod; never later |
| AllBack.SetupFailedClean | sriov/sriov.go:1018-1057 | a setup that fails at turn k without moving a link, eth<k> being free in the pod: lease and interface of turn k-1 are undone and nothing else, so all links are back exactly if k <= 1 |
| AllBack.TurnBeforeUndone | sriov/sriov.go:1018-1057 | the whole effect of that rollback: the VF of turn k-1 is freed, and nothing else on the host changes |
| AllBack.StopsAtTaken | sriov/sriov.go:1013-1033 | a taken eth<k> ends the loop at turn k at the latest |
| AllBack.EthTaken | sriov/sriov.go:1020-1030 | at that turn only a setup can fail with err; the rollback releases the other link, or nothing without a record, and all links the ADD has taken stay in the pod, the moved one under another name |
| Restore.RestoredIff | sriov/sriov.go:1019 | for every failure with err set and rollback calls that work: the whole host is restored (links in place or released, every VF's configuration as before or reset, no record new or changed) exactly if the links are back by turn and, where the failing turn moved none, it picked no VF or its request left no mark, and no foreign eth0 with a record was there; then all registered leases are dropped |
| Restore.NoMarkExact | sriov/sriov.go:440-474 | which requests leave a VF's configuration as it was or as a release would |
| Restore.FirstSetupFails | sriov/sriov.go:436-471 | a first setup that fails without having moved its link: the rollback does nothing, and the VF picked keeps the rates, and the vlan if it was set |
| Restore.NothingMoved | sriov/sriov.go:1020-1030 | the rollback of such a turn changes nothing, unless it finds a foreign eth0 with a record, which it takes out of the pod |
| Witness.FailureLeavesMark | sriov/sriov.go:1019 | a host and a world of working calls in which an ADD fails, the links are home, and rates and vlan stay on the VF |
| Rollback.OneInterfaceUndone | sriov/sriov.go:1018-1068 | with one interface the rollback is complete |
| Rollback.NoRecordNoRollback | sriov/sriov.go:555-557 | releaseVF without a record changes nothing, in any world |
| Rollback.LostWithoutRecord | sriov/sriov.go:543-545 | if saving the record fails, the link stays in the pod: the rollback and DEL leave it there |
| Reclaim.FindMacFinds | sriov/sriov.go:695-707 | with a faithful table the search by address finds the VF that owns the link |
| Reclaim.FindMacFirst | sriov/sriov.go:695-703 | the search by address takes the first entry with it, in the order of the table |
| Reclaim.OnlyOwnDir | sriov/sriov.go:857-862 | the name of a returned link is in the net directory of its own VF and no other |
| Reclaim.LocateExact | sriov/sriov.go:853-862 | the name scan finds the link's VF exactly if no stat on a lower number fails; else it takes the number of such a failure |
| Reclaim.LocateCanMiss | sriov/sriov.go:858 | a failing stat on number 0 makes the scan answer 0 for another VF's link |
| Exits.LocateAny | sriov/sriov.go:853-862 | the name scan in any world: it stops at the first number whose stat fails or finds the name |
| Exits.ResetVlanAny | sriov/sriov.go:842-877 | resetVfVlan in any world: when it succeeds, which VF's vlan it has reset, and that nothing else changes |
| Reclaim.DevFreeInInit | sriov/sriov.go:635-638 | the name of a link on its way back is free in the initial namespace |
| Reclaim.BringBackOk | sriov/sriov.go:777-802 | with calls that work the link comes back, down, as dev<index> |
| Reclaim.NoRecordNoRelease | sriov/sriov.go:692-694 | releaseVFCustom without a record changes nothing, in any world |
| Reclaim.ReleaseCustomOk | sriov/sriov.go:677-840 | one release: the link, its VF and its record, and nothing else |
| Reclaim.DelLoopExact | sriov/sriov.go:1243-1255 | the loop over any part of the snapshot reclaims exactly the reclaimable links in it; releasing one leaves the others' state as it was |
| Reclaim.DelExact | sriov/sriov.go:1202-1258 | DEL reclaims exactly the pod's links named eth<integer> that have a record of this container; no other link, VF or record changes |
| Reclaim.DelIdle | sriov/sriov.go:1202-1258 | with nothing to reclaim DEL changes nothing and never panics, in any world |
| Reclaim.DelTwice | sriov/sriov.go:1202-1258 | a second DEL changes neither links nor VFs nor records, in any world |
| Reclaim.DelAfterAnyAdd | sriov/sriov.go:1243-1255 | DEL after an ADD that ended in any way reclaims all links that have both the name and the record |
| Rescue.ReleaseFortune | sriov/sriov.go:677-802 | one release of a reclaimable link by DEL, in any world: home, still reclaimable, or lost, decided by the ten calls from its start |
| Rescue.RollbackFortune | sriov/sriov.go:550-638 | the same for the rollback's release, decided by nine calls |
| Exits.ReleaseAny | sriov/sriov.go:550-675 | releaseVF in any world: it succeeds exactly if the link comes back and the resets asked for work; what each of its exits leaves configured |
| Exits.ReleaseCustomAny | sriov/sriov.go:677-840 | the same for releaseVFCustom, with its panic |
| Rescue.ReleaseSpares | sriov/sriov.go:677-840 | in any world a release leaves every link alone that does not have the name it is about |
| Rescue.DelFortune | sriov/sriov.go:1218-1255 | the same for every reclaimable link in a whole DEL, by the ten calls from the moment at which the run comes to that link; a DEL that does not come to it leaves it reclaimable, and has failed before or panicked |
| Rescue.LostForGood | sriov/sriov.go:1243-1255 | a link that is not reclaimable is left as it is by every DEL in every world, and is not reclaimable after it |
| Panic.UnknownAddress | sriov/sriov.go:704-820 | one release, whatever the table: link back and record gone; a panic exactly if no vlan is configured and the address is not in the table, and then no VF is reset |
| Panic.DelPanics | sriov/sriov.go:1238-1255 | DEL with calls that work panics exactly if no vlan is configured and some link it reclaims has an address the table does not have; with a failed query that is any link it reclaims |
| Exits.DelExit | sriov/sriov.go:1218-1257 | DEL fails, in any world, exactly if the lease call or the listing does; without a namespace it succeeds once the lease is gone; what becomes of releases and of the query is not reported |
| Exits.DelCrashes | sriov/sriov.go:1238-1255 | DEL panics, in any world, exactly if one of the links it could take back has an unknown address, no vlan is configured, and the calls of its release up to the rates work |
| RoundTrip.AddDone | sriov/sriov.go:1013-1162 | a successful ADD undid nothing and gave away one VF per interface |
| RoundTrip.GivenIsReclaimable | sriov/sriov.go:1245-1250 | what DEL will reclaim after ADD is exactly what ADD gave away |
| RoundTrip.AddThenDel | sriov/sriov.go:958-1258 | a successful ADD of any number of interfaces, then DEL: their links are back, rates 0, a configured vlan 0, their records gone, everything else as before the pair |
| Aftermath.HomeAfterDel | sriov/sriov.go:958-1258 | any ADD in any world, then a DEL whose calls work: all links are home exactly if every link that is out has one of DEL's names and a record |
| Aftermath.HomeAfterAnyDel | sriov/sriov.go:958-1258 | any ADD in any world, then DEL in any world: all links are home exactly if each link that is out is reclaimable and the calls of its release bring it home |
| Aftermath.ClaimsAfterRollback | sriov/sriov.go:1020-1030 | in any world, what is out after the rollback is reclaimable exactly if it was before it and the rollback does not lose the link it finds |
| Aftermath.AnyAddThenDel | sriov/sriov.go:1013-1255 | for every world of the ADD, rollback included, and of the DEL: what is out is reclaimable exactly unless a setup failed whose moved link has no such name or no record, or the rollback's release lost its link; DEL's own calls decide the rest, and a DEL whose calls work brings all links home exactly if neither happened |
| Witness.RollbackLosesLink | sriov/sriov.go:555-638 | a host and a world in which an ADD fails in its configuration, a call of its rollback fails, and no DEL in any world brings the link home |
| Witness.PairHappens | sriov/sriov.go:958-1258 | a host, a world and a request for which ADD succeeds and DEL's calls work, so that the theorem about the pair applies |
| Scratch.SaveThenGet | sriov/sriov.go:152-210 | what was saved is read back once and gone |
| Scratch.OthersUnaffected | sriov/sriov.go:152-210 | saving and getting leave the record of every other container and interface alone |
| Scratch.KeysCanCoincide | sriov/sriov.go:185-186 | two interfaces share a file if their names are not of the eth kind |
| Text.KeyInjective | sriov/sriov.go:185-186 | the joined file name determines container and eth-name, also if the id holds dashes |
| Text.EthIsEthName | sriov/sriov.go:1245-1249 | DEL's filter accepts the name of interface i exactly if i fits an int |
| Text.EthNameExact | sriov/sriov.go:1245-1249 | the filter accepts exactly eth, a sign or none, and digits whose value fits 64 bits |
| Text.AtoiExact | sriov/sriov.go:1246 | what parses as an int, and as which |
| Text.NamesSpelled | sriov/sriov.go:1016 | some interface, device, temporary and file names letter by letter |
| Text.AtoiOfItoa | sriov/sriov.go:1246 | parsing undoes printing exactly for numbers that fit an int |
| Text.SplitOfJoin | sriov/sriov.go:971-972 | splitting undoes joining if no part holds the separator |
| Text.SplitParts | sriov/sriov.go:971-972 | joining undoes splitting for every string, and no part of a split holds the separator |
| CniArgs.ParseArgs | sriov/sriov.go:969-980 | however the text is taken to pieces at its semicolons, pod namespace and name are the values of the last piece that binds the key K8S_POD_NAMESPACE or K8S_POD_NAME, and empty without one |
| CniArgs.OnePieces | sriov/sriov.go:971 | a text is taken to pieces at its semicolons in one way, that of the split |
| CniArgs.BindsExact | sriov/sriov.go:972-977 | a piece binds a key exactly if it is the key, one equals sign, and a value without another |
| CniArgs.ParseOfJoined | sriov/sriov.go:969-980 | on joined clean pairs this is the value of the last pair with the key |
| Plugin.Machine.Call | sriov/sriov.go:1260-1276 | a call on the host object has the effect and the reply of the host's specification |
| Plugin.Machine.ChangeLink | sriov/sriov.go:1260-1276 | raising, lowering, renaming and moving a link in place, refused where the name is taken |
| Plugin.RenameLink | sriov/sriov.go:1260-1267 | look up by name, then rename what was found |
| Plugin.ScanVfs | sriov/sriov.go:408-450 | the loop with its carried directory and last-index exits computes the scan |
| Plugin.HandOver | sriov/sriov.go:493-547 | the in-place hand-over equals its specification, with the record as the configuration object holds it |
| Plugin.SetupVF | sriov/sriov.go:390-548 | setupVF equals its specification, on every exit |
| Plugin.GetNetConf | sriov/sriov.go:196-210 | the record is read and its file removed even if the read failed |
| Plugin.ReleaseVF | sriov/sriov.go:550-675 | releaseVF equals its specification, on every exit |
| Plugin.FindFunction | sriov/sriov.go:695-703 | the loop over the table returns the first entry with the address |
| Plugin.ResetVfVlan | sriov/sriov.go:842-877 | resetVfVlan equals its specification, on every exit |
| Plugin.ReleaseVFCustom | sriov/sriov.go:677-840 | releaseVFCustom equals its specification, on every exit and in its panic |
| Plugin.CmdDel | sriov/sriov.go:1218-1258 | cmdDel under the lock equals its specification, whose exits `Exits.DelExit` and `Exits.DelCrashes` fix |
| Plugin.RunClosure | sriov/sriov.go:1020-1057 | one deferred closure reads and overwrites the shared err as specified |
| Plugin.RunDeferred | sriov/sriov.go:1020-1057 | popping the closures equals the unwinding |
| Plugin.PlaceInterface | sriov/sriov.go:1016-1068 | setup, IPAM and configuration of one interface, with the closures registered on the way |
| Plugin.TakeTurn | sriov/sriov.go:1013-1153 | one turn, and the result grows by the answer of that turn |
| Plugin.PlaceAll | sriov/sriov.go:1013-1154 | the loop equals its specification and its result is the accumulation of the answers |
| Plugin.CmdAdd | sriov/sriov.go:982-1163 | cmdAdd under the lock equals its specification; what it prints is what IPAM said when each turn asked, interface by interface |
| Types020.Result.GetAsVersion | sriov/cni/types/types020/types.go:68-76 | a supported version is stamped on the receiver, another leaves it unchanged |
| Current.Result.ConvertTo020 | sriov/cni/types/current/current.go:136-182 | the early-exit loop selects the first address of each version, with its family's routes; an error exactly if there is none |
| Current.Result.GetAsVersion | sriov/cni/types/current/current.go:188-197 | current versions stamp the receiver, old ones convert, others fail |
| Current.GetResult020 | sriov/cni/types/types020/types.go:43-54 | an old object is handed back stamped in place, a current one is converted |
| Current.GetResult | sriov/cni/types/current/current.go:42-52 | only current objects can be had as 0.4.0 |
| Current.ConvertFrom020 | sriov/cni/types/current/current.go:62-103 | a new object with the addresses and routes of both families one after the other |
| Current.ConvertFrom030 | sriov/cni/types/current/current.go:105-112 | a current object comes back itself, stamped |
| Current.NewResultFromResult | sriov/cni/types/current/current.go:114-124 | conversion to the current version never fails on these two types |
| ConversionLaws.DownAfterUp | sriov/cni/types/current/current.go:62-182 | the effect of up and then down on any 0.2.0 value; without an address the way down fails |
| ConversionLaws.RoundTrip020 | sriov/cni/types/current/current.go:62-182 | a 0.2.0 value survives exactly if it has an address and its routes sit with their family |
| ConversionLaws.DownIsRetraction | sriov/cni/types/current/current.go:62-182 | down, up and down again is down |
| ConversionLaws.Normalisation | sriov/cni/types/current/current.go:62-182 | one trip down and up yields a normal form, and a second changes nothing |
| ConversionLaws.NormalFormIsFixed | sriov/cni/types/current/current.go:62-182 | normal forms are exactly the results that the trip leaves alone |
| ConversionLaws.RouteConservation | sriov/cni/types/current/current.go:162-175 | each family keeps its routes in order; nothing is lost exactly if no family with routes lacks an address |
| ConversionLaws.RoutesByDestination | sriov/cni/types/current/current.go:162-175 | with an IPv4 address a route is kept with it, as often as it occurs, exactly if its destination is an IPv4 address in either form; with an IPv6 address exactly if it is not |
| CniTypes.Is4Exact | sriov/cni/types/current/current.go:163 | the family test holds exactly of four bytes and of the twelve-byte prefix with four bytes behind it |
| ConversionLaws.FirstOfIsFirst | sriov/cni/types/current/current.go:142-160 | the address kept for a version is the first of that version, absent only if there is none |
| Merge.MergeResult | sriov/sriov.go:1073-1152 | one turn of the accumulation on the result object it grows: one address, the routes of the answer and the interface's name appended to what was there; the conversion never fails, so the skip at line 1108 is not reached |
| Merge.MergeRefinement | sriov/sriov.go:1011-1162 | the printed result, whole: interfaces eth0 to eth(k-1), the addresses and gateways of the answers in order, all their routes one answer after another, and the configured DNS |
| Merge.InterfacesInStep | sriov/sriov.go:1116-1151 | the i-th address is that of the i-th answer and stands beside eth<i> |
| Merge.OneConverted | sriov/sriov.go:1103-1112 | for one interface that is the converted answer with the interface's name |

## Left out

- DPDK mode: binding to drivers by an external tool, and the release branches for it. ADD refuses it once it has an interface (`sriov/sriov.go:1037-1039`).
- L2 mode, for the same reason.
- Shared VFs with two links: only the scan knows them; a setup that meets one fails, as L2 mode is off. The flag that such a setup leaves set in the configuration makes a later rollback of the same ADD look for a second interface `eth<i>d1`; that second look is not modelled.
- The Kubernetes client, the hardware query, the knapsack placement, IPAM and netlink themselves: their answers come from the `World`, with no promise but that a placement is in bounds and a listing lists the namespace.
- The reading of the interfaces of a pod (`sriov/sriov.go:1165-1200`) is one call, and going back to the old namespace afterwards is taken to work.
- The command that sets rates runs in the background; the model lets it take effect at once.
- The plugin switches the namespace of its thread: that a command keeps its thread, and that `releaseVF` does not go back to the old namespace, is not modelled; nothing that depends on it runs after a release.
- A DEL whose configuration does not parse: it returns before it takes the lock.
- A write that fails halfway through: a failing call changes nothing.
- What the kernel does with links when a pod's namespace disappears.
- Container ids with a path separator: the file name is taken as it is.
- JSON, CIDR text, printing, logging, environment variables, the check of the configured interface name, and the `fixipam` tool.
- `getPFs`, `getOrderedPF`, `configSriov` and `validateSriovEnabled`, which no command calls.
- EveryState.InvariantAlways: not for runs in which a process enters while another body is live, because it is false there (`OverlapRun.InvariantCanBreak`); `EveryState.CoreAlways` says what holds in them.
- Reclaim.DelExact: for calls that all work; with failing calls `Rescue.DelFortune` says what becomes of each link, and `HostInvariant.DelKeepsInvariant` what is kept.
