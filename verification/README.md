# Moonlight OS: leases, updates, USB sharing and settings, verified

This project models the parts of Moonlight OS whose correctness is about runs rather than single calls,
and proves what they promise.

| file | what it models |
|---|---|
| `Basics.dfy` | shared vocabulary: optional values, lists as sets, two text helpers |
| `UsbLease.dfy` | USB exports owned by client connections: reference counts, journal, recovery |
| `DiskLease.dfy` | the read-only system disk lease, command by command, with kills anywhere |
| `UpdateSlots.dfy` | the A/B updater, the boot menu script, GRUB's one-shot entry, the 90 second confirmation |
| `UsbipTool.dfy` | the host's port table: attach, detach, `Sync`, `DetachBusID`, `DetachAll` |
| `SyncProtocol.dfy` | sequences of delivered offers from many peers |
| `Agent.dfy` | `opSync` and the janitor over the shared counters |
| `DevicePolicy.dfy` | which USB devices may be handed over |
| `Watcher.dfy` | the appliance's watcher: the pass, the change gate, releasing, back-off |
| `EndToEnd.dfy` | policy, watcher and host together |
| `ConfMerge.dfy` | the awk merge of two settings files |
| `KeyMerge.dfy` | the merge of two authorized_keys files |
| `ConfFile.dfy` | the `KEY="value"` file: one writer, two readers |
| `PortParser.dfy` | the parser of `usbip port` |
| `Displays.dfy` | common mode, preferred mode, extended placement |
| `Utf16.dfy` | UTF-16LE encoding against RFC 2781 |

Code that changes state is a class whose methods update its fields; each method is proved equal to a
function of the old state, and the theorems are lemmas about that function over all runs. Where a kill or
power loss may fall between two commands, a ghost `history` records every state passed through and the
specification lists those states.

## Assumptions about the environment

- USB lease: `bind` and `unbind` may fail but return; other programs change the exports only between lease
  steps; the helper is killed only between USB operations (binds come before the journal write).
- Disk lease: commands may fail at any point and may leave things half made; an answer "removed" or "not
  found" means the mapping is gone; the journal file is written and unlinked atomically.
- Updater: commands take effect in order; the `pending` file and GRUB's files are replaced atomically; GRUB
  clears the one-shot entry when it uses it; nobody picks an entry by hand. Crash safety needs one more thing,
  stated by `UpdateSlots.Patient`: no update starts before the 90 second timer of its boot has fired.
  `DefaultStaysBootableIff` says exactly when later patience is enough, and `EarlyUpdateCanEraseTheDefault` shows
  an early update lose the default.
- Host: reading the port table succeeds, a failing command leaves it unchanged, attaching may renumber every
  port, and no device of one host sits on two ports. Host names are compared with ASCII letter folding.

## Where the code and its documentation differ

- "Manual shares survive" a closing connection (`moonlight-helper:1313-1315`) unless the device was shared by
  hand while the lease held it and the connection is its only owner: `UsbLease.ManualShareSurvivesClose`,
  `UsbLease.ManualShareLostInARun`.
- "Reach the host PC before binding anything" (`moonlight-usb-auto:157-165`) fails for the first pass after
  auto-share is turned off and on again, because handing back keeps the `reachable` mark. The exact condition is
  `Watcher.BindsUnaskedIff`, a run that meets it `Watcher.FirstBindAfterHandBackDoesNotKnock`; it never happens
  while auto-share stays on: `Watcher.MarkIsRightWhileEnabled`, `Watcher.KnocksBeforeBinding`.
- "It only unbinds its own" (`moonlight-usb-auto:49`) holds of its bind calls, not of shares: `bind` also answers
  success for a device somebody else exports (`mlos_host.py:527-531`), and releasing takes that share away:
  `Watcher.ForeignSharesTaken`.
- The list the watcher sends is what it holds, with one exception: handing back sends the empty list before it
  releases what is held (`moonlight-usb-auto:217-224`). `Watcher.NoHostages` states both.
- The cheap gate hides a settings change until the next heartbeat when nothing is plugged or unplugged:
  `Watcher.GateShowsIffOfferChanged`, `Watcher.GateShowsInARun`.
- "Compared on the key material" and "both survive" (`moonlight-backup:207-210`, `README.md:622-624`) hold for keys
  without options in files that end in a newline: `KeyMerge.BareKeysSurvive`. A key with options is compared by
  another word, and a shipped file without a final newline joins its last line to the first archived one. The exact
  condition, for all files of keys and either ending, is `KeyMerge.EverybodySurvivesIff`; inputs that fail it are
  `KeyMerge.SecondRestrictedKeyIsLost` and `KeyMerge.UnendedFileJoinsTwoKeys`.
- `write_conf` on a file whose last line has no newline joins that line and the first update, unless there is no
  update or the last line is one of those replaced (`ConfFile.Clean`). Then the update is lost and reads as its
  default: `ConfFile.WriteIsAMapUpdateIff`, `ConfFile.UnterminatedLineSwallowsTheUpdate`. A write of any
  update leaves the file terminated.

## Model

| member | source | states |
|---|---|---|
| UsbLease.Helper.Sync | config/includes.chroot/usr/local/bin/moonlight-helper:1331-1376 | one sync drops every claim not offered, then claims what is counted already or free and bindable; the reply lists exactly the devices that stayed unexported |
| UsbLease.Helper.DropClaims | config/includes.chroot/usr/local/bin/moonlight-helper:1335-1342 | giving up claims lowers each count by one and unbinds exactly the ids whose last claim ends |
| UsbLease.Helper.Offer | config/includes.chroot/usr/local/bin/moonlight-helper:1350-1375 | one device's turn: repair an owned export, join a counted one, leave a manual share alone, or bind and own |
| UsbLease.AcquireInTurn | config/includes.chroot/usr/local/bin/moonlight-helper:1350-1375 | offering distinct devices one after the other equals offering them together |
| UsbLease.Helper.Close | config/includes.chroot/usr/local/bin/moonlight-helper:1384-1402 | a closing connection gives up all its claims |
| UsbLease.Helper.Restart | config/includes.chroot/usr/local/bin/moonlight-helper:1418-1439 | a restarted helper hands back exactly the journalled exports |
| UsbLease.CountingHolds | config/includes.chroot/usr/local/bin/moonlight-helper:1331-1415 | over every run each count equals the number of owning connections and the journal equals the counted set |
| UsbLease.OutsideLedger | config/includes.chroot/usr/local/bin/moonlight-helper:1312-1315 | one step: exports outside the lease change only by what others do and by failed unbinds |
| UsbLease.RunLedger | config/includes.chroot/usr/local/bin/moonlight-helper:1304-1439 | the same ledger over every run |
| UsbLease.Conservation | config/includes.chroot/usr/local/bin/moonlight-helper:2528-2533 | once nobody owns anything the exported set is what it was before the lease began |
| UsbLease.LeavesWithLastOwner | config/includes.chroot/usr/local/bin/moonlight-helper:1393-1402 | a device leaves the exports only with its last owner |
| UsbLease.SyncOwnership | config/includes.chroot/usr/local/bin/moonlight-helper:1335-1375 | after a sync a connection owns exactly the offered devices somebody owned already or that were free and bindable; others keep theirs |
| UsbLease.SyncWithoutDaemon | config/includes.chroot/usr/local/bin/moonlight-helper:1345-1346 | without the daemon a sync only gives up what is not offered |
| UsbLease.SyncTouchesOnlyItsOwn | config/includes.chroot/usr/local/bin/moonlight-helper:1335-1375 | a sync adds only offered devices and takes away exactly those the connection owned alone and is no longer offered |
| UsbLease.FailuresAreUnexported | config/includes.chroot/usr/local/bin/moonlight-helper:1349-1380 | the devices reported are exactly those the connection needed a bind for and that are still not exported |
| UsbLease.CloseHandsBack | config/includes.chroot/usr/local/bin/moonlight-helper:1384-1402 | a close forgets the connection and hands back exactly what it owned alone |
| UsbLease.ManualShareSurvivesClose | config/includes.chroot/usr/local/bin/moonlight-helper:1313-1315 | exactly when a manual share survives a close |
| UsbLease.ManualShareLostInARun | config/includes.chroot/usr/local/bin/moonlight-helper:1313-1315 | a run from a fresh helper in which a manual share does not survive |
| DiskLease.Helper.TargetRemove | config/includes.chroot/usr/local/bin/moonlight-helper:1482-1504 | the micro-steps of a removal and when it counts as complete |
| DiskLease.Helper.TargetCreate | config/includes.chroot/usr/local/bin/moonlight-helper:1507-1526 | the micro-steps of a build; it is only ever called with nothing left over |
| DiskLease.Helper.AcquireDisk | config/includes.chroot/usr/local/bin/moonlight-helper:1539-1574 | state, micro-steps and answer of an acquire; granted exactly when held already or built |
| DiskLease.Helper.CloseConnection | config/includes.chroot/usr/local/bin/moonlight-helper:1577-1589 | state and micro-steps of a release; the count is never clamped |
| DiskLease.Helper.StartHelper | config/includes.chroot/usr/local/bin/moonlight-helper:1592-1601 | state and micro-steps of recovery |
| DiskLease.EveryMicroStepIsSafe | config/includes.chroot/usr/local/bin/moonlight-helper:1482-1601 | at every micro-step whatever exists is journalled |
| DiskLease.DiskLeaseIsSound | config/includes.chroot/usr/local/bin/moonlight-helper:1546-1601 | over every run with kills anywhere: journal first, count equals owners, positive count means live target and recorded info |
| DiskLease.FailedRemovalIsRetriedFirst | config/includes.chroot/usr/local/bin/moonlight-helper:1548-1553 | the next acquire or restart first repeats a failed removal and grants nothing before it succeeds |
| DiskLease.BuildStartsEmpty | config/includes.chroot/usr/local/bin/moonlight-helper:1549-1559 | a mapping only ever appears on an empty, journalled disk |
| DiskLease.RestartCleansUp | config/includes.chroot/usr/local/bin/moonlight-helper:1592-1599 | a restart whose removal works leaves nothing |
| DiskLease.LastCloseTakesDown | config/includes.chroot/usr/local/bin/moonlight-helper:1577-1589 | the last close takes the target down and forgets it, or leaves it journalled |
| DiskLease.OtherCloseLeavesTarget | config/includes.chroot/usr/local/bin/moonlight-helper:1577-1589 | any other close leaves the target as it is |
| DiskLease.FirstAcquireBuilds | config/includes.chroot/usr/local/bin/moonlight-helper:1546-1574 | the first acquire is granted when nothing fails: live target, one reference, the measured geometry |
| DiskLease.SecondAcquireJoins | config/includes.chroot/usr/local/bin/moonlight-helper:1545-1574 | another connection joins without touching the target |
| DiskLease.FailedAcquireGrantsNothing | config/includes.chroot/usr/local/bin/moonlight-helper:1561-1566 | a failed acquire grants nothing and, when undoing works, leaves nothing |
| DiskLease.LayersStayInOrder | config/includes.chroot/usr/local/bin/moonlight-helper:1482-1526 | mapping, backstore and target are built from the bottom up and removed from the top down |
| UpdateSlots.Machine.PrepareTarget | config/includes.chroot/usr/local/sbin/moonlight-update:320-419 | wherever an update stops, it went through exactly the scripted states, each of them safe |
| UpdateSlots.Machine.UpdateMenu | config/includes.chroot/etc/grub.d/09_moonlight_slots:6-49 | no entries without a slots.conf; each entry carries the root and boot UUIDs its labels have now, or else the recorded ones |
| UpdateSlots.Machine.MenuEntry | config/includes.chroot/etc/grub.d/09_moonlight_slots:30-46 | a slot has an entry exactly when a root UUID and both boot files are there |
| UpdateSlots.Machine.ConfirmBoot | config/includes.chroot/usr/local/sbin/moonlight-update:421-440 | the states a confirmation goes through, up to any stop |
| UpdateSlots.UpdateMicroSteps | config/includes.chroot/usr/local/sbin/moonlight-update:344-418 | after any number of commands the machine is safe and the default slot untouched |
| UpdateSlots.LabelsOverrideRecords | config/includes.chroot/etc/grub.d/09_moonlight_slots:11-49 | for any root the menu is built in: a label that is found beats the record, and an entry needs a UUID and both files |
| UpdateSlots.UpdateEnds | config/includes.chroot/usr/local/sbin/moonlight-update:344-418 | what a refused, an unfinished and a finished update leave behind |
| UpdateSlots.RefusedUpdateLeavesNoMark | config/includes.chroot/usr/local/sbin/moonlight-update:412-415 | after grub-reboot refuses nothing is pending or scheduled and the status is as before |
| UpdateSlots.FinishedUpdateIsInstalled | config/includes.chroot/usr/local/sbin/moonlight-update:407-440 | a finished update is tried at the next boot and, if that stays up, is the default and reported installed |
| UpdateSlots.FailedTrialIsRolledBack | config/includes.chroot/usr/local/sbin/moonlight-update:421-440 | a trial that does not come up is not repeated and is reported rolled back |
| UpdateSlots.OneUpdateAtATime | config/includes.chroot/usr/local/sbin/moonlight-update:494-500 | no update starts while another waits for its boot |
| UpdateSlots.Scheduling | config/includes.chroot/etc/grub.d/09_moonlight_slots:23-49 | the rebuilt menu has both entries right whether or not blkid finds the labels |
| UpdateSlots.DefaultAlwaysBoots | config/includes.chroot/usr/local/sbin/moonlight-update:320-440 | over every run with power loss anywhere, the saved default and GRUB's choice are complete, intact and correctly listed |
| UpdateSlots.HealthyBootSettles | config/includes.chroot/usr/local/sbin/moonlight-update:421-440 | one healthy boot from any state: running slot is the default, nothing pending, status installed exactly for the staged slot |
| UpdateSlots.BoundedRecovery | config/includes.chroot/usr/local/sbin/moonlight-update:407-440 | with an update pending two boots suffice, whatever happens to the first, crashes inside the confirmation included |
| UpdateSlots.TickIsSafeIffNothingScheduled | config/includes.chroot/usr/local/sbin/moonlight-update:421-438 | the confirmation keeps the machine safe exactly when no one-shot entry is set |
| UpdateSlots.DefaultStaysBootableIff | config/includes.chroot/usr/local/sbin/moonlight-update:421-438 | the default stays bootable over every patient run exactly when no one-shot entry is set in a boot whose timer is still to fire |
| UpdateSlots.EarlyUpdateCanEraseTheDefault | config/includes.chroot/usr/local/sbin/moonlight-update:491-515 | an update staged before the timer fires can lead to erasing the saved default |
| UpdateSlots.FreshMachineIsValid | config/includes.chroot/usr/local/bin/moonlight-install:398-410 | a freshly installed machine satisfies the invariant, settles at its first boot, and can lose its only system to an update that does not wait |
| UsbipTool.Tool.Sync | host-utils/usbip.go:165-233 | contents, attached, detached and failed sets for any order, any renumbering and any failures; wanted and foreign devices are present at every moment |
| UsbipTool.Tool.AttachMissing | host-utils/usbip.go:188-199 | the attaching loop |
| UsbipTool.Tool.DetachExtra | host-utils/usbip.go:211-222 | the detaching loop, by port |
| UsbipTool.Tool.AttachedFrom | host-utils/usbip.go:136-158 | the ports of one host's devices and no others; every port when no host is named |
| UsbipTool.Tool.ByBusId | host-utils/usbip.go:176-179 | those ports by bus id, each exactly once |
| UsbipTool.Tool.DetachBusId | host-utils/usbip.go:235-249 | removes the one device if it is there |
| UsbipTool.Tool.DetachAll | host-utils/usbip.go:251-268 | the table and the answer after detaching one host's devices, or all devices when no host is named |
| UsbipTool.PurgedContent | host-utils/usbip.go:136-138 | what DetachAll leaves: other hosts' devices, and its own that cannot be detached |
| UsbipTool.BracketsDoNotMatter | host-utils/usbip.go:156-158 | brackets around a host make no difference |
| UsbipTool.SameHostIff | host-utils/usbip.go:156-158 | otherwise hosts are the same exactly when their letters are, whatever the case |
| UsbipTool.StalePortsDetachTheWrongDevice | host-utils/usbip.go:201-210 | without the second read a wanted device would go and an unwanted one stay |
| SyncProtocol.SyncedBusIds | host-utils/usbip.go:160-233 | the result of a sync is (have + attached) - detached |
| SyncProtocol.OthersSurvive | host-utils/usbip.go:136-138 | a sync never touches another host's devices |
| SyncProtocol.SecondSyncDoesNothing | host-utils/usbip.go:160-233 | with no failures a second equal sync attaches and detaches nothing and changes nothing |
| SyncProtocol.LastOfferDecides | host-utils/protocol.go:65-76 | after any deliveries a peer has exactly what it offered last |
| SyncProtocol.LossAndReplayAreHarmless | host-utils/protocol.go:73-76 | hosts with different pasts agree once they executed the same last offer |
| SyncProtocol.ResendIsHarmless | config/includes.chroot/usr/local/lib/moonlight-os/mlos_host.py:126-161 | a request executed without a reply and sent again counts once, whatever other peers did between |
| Agent.CountersAreStreaks | host-utils/agent.go:338-396 | in any interleaving each counter is the number of failed probes since the server was last known good |
| Agent.JanitorIsPatient | host-utils/agent.go:368-395 | detaching is decided exactly at a failed probe that two failed probes precede with nothing between that showed the server alive, synced, absent or detached |
| Agent.DecidesAtThree | host-utils/agent.go:379-387 | the same by streaks: at the third failed probe and at no other moment |
| Agent.CountersBetweenTicks | host-utils/agent.go:379-395 | between ticks every counter is at most two |
| Agent.SyncBuysTime | host-utils/agent.go:252-254 | a recorded sync can happen at any moment and starts the streak again |
| Agent.WhatMovesACounter | host-utils/agent.go:338-396 | the effect of every event on a counter: cleared, one more, or untouched |
| Agent.HostAgent.OpSync | host-utils/agent.go:229-257 | the sync runs, and the counter of its server is reset, exactly when the client is usable |
| Agent.HostAgent.ForgetAbsent | host-utils/agent.go:355-366 | the Tick step of the runs: servers without devices lose their counters |
| Agent.HostAgent.RecordProbe | host-utils/agent.go:368-387 | the Probed step of the runs, and whether to give up |
| Agent.HostAgent.DetachDeadServer | host-utils/agent.go:388-394 | the dead server's devices go, others stay; for the counters, the Detached step |
| Agent.HostAgent.JanitorTick | host-utils/agent.go:343-395 | a whole tick: every listed server asked once and its answer recorded, exactly which counters result and exactly which servers lose their devices |
| Agent.HostAgent.ProbeServer | host-utils/agent.go:368-394 | one server's turn |
| DevicePolicy.Devices | config/includes.chroot/usr/local/lib/moonlight-os/mlos_host.py:402-474 | the order of checks amounts to one rule: nothing protected, nothing on the never list, included or allowed by policy |
| DevicePolicy.Survey | config/includes.chroot/usr/local/lib/moonlight-os/mlos_host.py:477-479 | the offer is the judged list without reasons |
| DevicePolicy.OfferIsExact | config/includes.chroot/usr/local/lib/moonlight-os/mlos_host.py:410-418 | a device is offered if and only if it is plugged in and the rule allows it |
| DevicePolicy.WhatThePoliciesHandOver | config/includes.chroot/usr/local/lib/moonlight-os/mlos_host.py:402-474 | both policies spelled out; never-share beats include, and include beats the policy |
| DevicePolicy.ListsIgnoreCase | config/includes.chroot/usr/local/lib/moonlight-os/mlos_host.py:420-421 | ids are compared without regard to case |
| DevicePolicy.OfferOfBoth | config/includes.chroot/usr/local/lib/moonlight-os/mlos_host.py:477-479 | the offer keeps the order of the survey |
| Watcher.Watcher.PassOnce | config/includes.chroot/usr/local/bin/moonlight-usb-auto:127-206 | state, answer and calls of a pass |
| Watcher.Watcher.BindAll | config/includes.chroot/usr/local/bin/moonlight-usb-auto:85-105 | binds what is offered and not held, answers what is usable |
| Watcher.Watcher.BindAndSend | config/includes.chroot/usr/local/bin/moonlight-usb-auto:181-206 | binds, unbinds what is gone, sends, and reacts to the answer |
| Watcher.Watcher.HandBackAll | config/includes.chroot/usr/local/bin/moonlight-usb-auto:217-224 | releases everything at both ends |
| Watcher.Watcher.RunUntilStopped | config/includes.chroot/usr/local/bin/moonlight-usb-auto:227-249 | the loop: lawful calls, nothing held at the end, back-off as specified |
| Watcher.NoHostages | config/includes.chroot/usr/local/bin/moonlight-usb-auto:85-114 | over every run each unbind is of devices the watcher's own bind call answered success for and that it has not released; each list sent is what it holds, or is empty and the next call releases everything held |
| Watcher.ForeignSharesTaken | config/includes.chroot/usr/local/bin/moonlight-usb-auto:49-49 | after any run and the hand-back, of what was exported before exactly the devices the watcher bound with success are gone |
| Watcher.FailedPassHoldsNothing | config/includes.chroot/usr/local/bin/moonlight-usb-auto:166-192 | after a pass that could not reach a paired host nothing is held |
| Watcher.ActsIff | config/includes.chroot/usr/local/bin/moonlight-usb-auto:135-151 | what makes a pass act |
| Watcher.FailedPassIsRetried | config/includes.chroot/usr/local/bin/moonlight-usb-auto:194-198 | a failed pass acts again at the next tick with nothing changed |
| Watcher.ActingPassSends | config/includes.chroot/usr/local/bin/moonlight-usb-auto:153-198 | a pass that reaches everything sends and holds exactly what is offered and could be bound, and remembers it |
| Watcher.RefusedPass | config/includes.chroot/usr/local/bin/moonlight-usb-auto:185-192 | what a refusal and what a lost host leave behind |
| Watcher.UnansweredPass | config/includes.chroot/usr/local/bin/moonlight-usb-auto:166-179 | without an answer everything is let go and nothing else is done |
| Watcher.DaemonDownPass | config/includes.chroot/usr/local/bin/moonlight-usb-auto:153-155 | with the daemon down the pass fails and does nothing |
| Watcher.IdlePass | config/includes.chroot/usr/local/bin/moonlight-usb-auto:138-151 | a pass with nothing due calls nobody |
| Watcher.QuietUntilHeartbeat | config/includes.chroot/usr/local/bin/moonlight-usb-auto:138-151 | after a success nothing is due until a change or the heartbeat |
| Watcher.DisabledPass | config/includes.chroot/usr/local/bin/moonlight-usb-auto:127-133 | turned off, everything held is handed back |
| Watcher.HandBackLetsGo | config/includes.chroot/usr/local/bin/moonlight-usb-auto:217-224 | what a hand-back leaves |
| Watcher.BindsWhatIsMissing | config/includes.chroot/usr/local/bin/moonlight-usb-auto:85-105 | a bind is tried for exactly the offered devices not held |
| Watcher.GateIsInvisible | config/includes.chroot/usr/local/bin/moonlight-usb-auto:135-151 | with fixed settings the gated watcher behaves, tick by tick, like one that always surveys |
| Watcher.GateShowsIffOfferChanged | config/includes.chroot/usr/local/bin/moonlight-usb-auto:135-151 | a closed gate changes a pass exactly when the offer differs from the last one sent |
| Watcher.GateShowsInARun | config/includes.chroot/usr/local/bin/moonlight-usb-auto:135-151 | a run from the start in which the gated watcher keeps a device an ungated one would give back |
| Watcher.ReachableMeansConnected | config/includes.chroot/usr/local/bin/moonlight-usb-auto:217-224 | the mark stays true to its meaning in every pass but a hand-back |
| Watcher.KnocksBeforeBinding | config/includes.chroot/usr/local/bin/moonlight-usb-auto:157-170 | where the mark is right every bind follows this pass's answered ping, or the host was known to answer on the open connection |
| Watcher.BindsUnaskedIff | config/includes.chroot/usr/local/bin/moonlight-usb-auto:157-181 | exactly when a pass binds with neither |
| Watcher.MarkIsRightWhileEnabled | config/includes.chroot/usr/local/bin/moonlight-usb-auto:51-51 | the mark is right after every run in which auto-share stays on |
| Watcher.SharedThenOff | config/includes.chroot/usr/local/bin/moonlight-usb-auto:130-134 | a run from the start that leaves the mark without its connection |
| Watcher.FirstBindAfterHandBackDoesNotKnock | config/includes.chroot/usr/local/bin/moonlight-usb-auto:157-170 | one pass later: all calls of the run, the second bind without a ping |
| Watcher.BackoffIsBounded | config/includes.chroot/usr/local/bin/moonlight-usb-auto:234-238 | the back-off stays within 30 and never shrinks while passes fail |
| Watcher.BackoffDoubles | config/includes.chroot/usr/local/bin/moonlight-usb-auto:234-238 | after k failures it is the poll interval doubled k times, up to the limit |
| EndToEnd.HostHasWhatTheWatcherHolds | config/includes.chroot/usr/local/bin/moonlight-usb-auto:181-198 | after a successful sync the host's set for this peer is the watcher's `bound`, within the offer |
| EndToEnd.SyncIsADelivery | host-utils/usbip.go:176-199 | the host's sync of a list is the delivery of the bus ids in it |
| EndToEnd.SentListArrives | config/includes.chroot/usr/local/bin/moonlight-usb-auto:181-198 | the list a successful pass sent leaves the host with what the watcher holds, and other peers as they were |
| EndToEnd.NothingForbiddenIsHeld | config/includes.chroot/usr/local/lib/moonlight-os/mlos_host.py:416-418 | nothing critical, no hub and nothing on the never list is held then |
| BackupMerge.MergeConf | config/includes.chroot/usr/local/bin/moonlight-backup:173-205 | the awk program computes the merge and refuses empty files |
| BackupMerge.AssignsIff | config/includes.chroot/usr/local/bin/moonlight-backup:178-192 | exactly the lines that begin with an identifier and '=' assign it |
| ConfMerge.ReadArchived | config/includes.chroot/usr/local/bin/moonlight-backup:178-185 | the first loop: last line and first-seen order of each key |
| ConfMerge.PrintShipped | config/includes.chroot/usr/local/bin/moonlight-backup:186-192 | the second loop: shipped lines with archived assignments in place |
| ConfMerge.PrintCarried | config/includes.chroot/usr/local/bin/moonlight-backup:193-203 | the END loop: the rest under the note |
| ConfMerge.MergeIsOverlay | config/includes.chroot/usr/local/bin/moonlight-backup:164-172 | reading the merge gives the shipped settings overridden by the archived ones; prose survives in order |
| ConfMerge.LastAssignmentWins | config/includes.chroot/usr/local/bin/moonlight-backup:178-185 | reading takes the last line of each key |
| ConfMerge.MergedLine | config/includes.chroot/usr/local/bin/moonlight-backup:186-192 | line by line: each shipped line in its place, or the archive's line for its key |
| ConfMerge.NoteOnlyWhenNeeded | config/includes.chroot/usr/local/bin/moonlight-backup:193-203 | nothing is appended when the archive sets no key of its own |
| ConfMerge.OldOnlyKeys | config/includes.chroot/usr/local/bin/moonlight-backup:170-172 | the carried keys are exactly those only the archive sets, each once |
| ConfMerge.OrderIsFirstSeen | config/includes.chroot/usr/local/bin/moonlight-backup:178-185 | the keys are in the order of their first lines |
| ConfMerge.CarriedAreFirstSeen | config/includes.chroot/usr/local/bin/moonlight-backup:194-203 | the carried keys are in the order of their first lines in the archive |
| ConfMerge.AppendedInOrder | config/includes.chroot/usr/local/bin/moonlight-backup:194-203 | the carried lines follow everything shipped and the note, one a key, in the order of those keys |
| ConfMerge.MergeAgainChangesNothing | config/includes.chroot/usr/local/bin/moonlight-backup:173-205 | merging the same archive again changes nothing |
| BackupMerge.MergeConfIsOverlay | config/includes.chroot/usr/local/bin/moonlight-backup:164-205 | all of this for the awk program's notion of an assignment |
| KeyMerge.MergeKeys | config/includes.chroot/usr/local/bin/moonlight-backup:211-218 | the awk loop prints every line that is the first with its mark, over both files run together |
| KeyMerge.KeptIffFirst | config/includes.chroot/usr/local/bin/moonlight-backup:213-216 | a line is printed if and only if no earlier line has its mark |
| KeyMerge.RestoreKeys | config/includes.chroot/usr/local/bin/moonlight-backup:300-310 | the file after a restore, empty files included |
| KeyMerge.RecordsOfBoth | config/includes.chroot/usr/local/bin/moonlight-backup:212-212 | `cat` keeps the two files' lines apart exactly when the first ends in a newline, and otherwise makes one line of two |
| KeyMerge.MarkOfKey | config/includes.chroot/usr/local/bin/moonlight-backup:214-214 | a key without options is compared by its material, one with options by another word |
| KeyMerge.BlankAndCommentLines | config/includes.chroot/usr/local/bin/moonlight-backup:213-213 | exactly blank lines and comments are passed over |
| KeyMerge.WhatLinesAreComparedBy | config/includes.chroot/usr/local/bin/moonlight-backup:214-214 | a line of one word is compared as a whole, any other by its second word |
| KeyMerge.NothingToMerge | config/includes.chroot/usr/local/bin/moonlight-backup:301-305 | nothing shipped, or nothing to print: the archived file stays |
| KeyMerge.RestoredKeepsEveryMark | config/includes.chroot/usr/local/bin/moonlight-backup:207-210 | a terminated shipped file: one line for everything either file's lines are compared by |
| KeyMerge.RestoredKeys | config/includes.chroot/usr/local/bin/moonlight-backup:207-218 | the restored file is the shipped keys, then the archived ones, each unless an earlier one compares equal |
| KeyMerge.BareKeysSurvive | config/includes.chroot/usr/local/bin/moonlight-backup:207-210 | keys without options: every key of both files, each once |
| KeyMerge.RestoredRead | config/includes.chroot/usr/local/bin/moonlight-backup:207-218 | the restored file for a shipped file with or without its final newline: the keys read, each unless an earlier one compares equal |
| KeyMerge.EverybodySurvivesIff | config/includes.chroot/usr/local/bin/moonlight-backup:207-210 | "both survive": exactly when the material of every key of both files is in the restored file, for all files of keys and either ending |
| KeyMerge.EveryLineKeptIff | config/includes.chroot/usr/local/bin/moonlight-backup:207-218 | exactly when every line of both files is kept |
| KeyMerge.SecondRestrictedKeyIsLost | config/includes.chroot/usr/local/bin/moonlight-backup:214-215 | of two keys of one kind with one word of options the archived one is lost |
| KeyMerge.UnendedFileJoinsTwoKeys | config/includes.chroot/usr/local/bin/moonlight-backup:212-214 | without a final newline in the shipped file, whatever else is in both: its last key and the first archived one become one key |
| KeyMerge.JoinedKeySurvivesIff | config/includes.chroot/usr/local/bin/moonlight-backup:207-218 | exactly when the swallowed key's material survives, and what is left where no key has options |
| KeyMerge.RestoringAgainChangesNothing | config/includes.chroot/usr/local/bin/moonlight-backup:300-310 | restoring the same archive again changes nothing, given a terminated shipped file and some key |
| ConfFile.SettingsFile.WriteConf | config/includes.chroot/usr/local/bin/moonlight-helper:305-331 | the file after a write, for any file before, missing included |
| ConfFile.SettingsFile.ConfValues | config/includes.chroot/usr/local/bin/moonlight-helper:195-205 | the defaults overridden by the last matching line of each known key |
| ConfFile.WrittenLines | config/includes.chroot/usr/local/bin/moonlight-helper:314-316 | after a clean write: unrelated lines unchanged and in order, then one line an update; the file is terminated |
| ConfFile.SettingsFileIsAMap | config/includes.chroot/usr/local/bin/moonlight-helper:195-331 | conf_values after a clean write_conf(u) is conf_values before, overridden by u |
| ConfFile.WriteIsAMapUpdateIff | config/includes.chroot/usr/local/bin/moonlight-helper:195-331 | for every file: exactly when that equation holds |
| ConfFile.ValueComesBackIff | config/includes.chroot/usr/local/bin/moonlight-helper:234-239 | for every file: a value reads back exactly when it holds no line break and the write is clean, or it is the default |
| ConfFile.BothReadersAgree | config/includes.chroot/usr/local/lib/moonlight-os/mlos_host.py:37-57 | load_conf reads every written key as conf_values does |
| ConfFile.WriterFormIsLoaded | config/includes.chroot/usr/local/lib/moonlight-os/mlos_host.py:43-54 | load_conf understands a line in the writer's form |
| ConfFile.WriterFormIsParsed | config/includes.chroot/usr/local/bin/moonlight-helper:200-202 | conf_values understands a line in the writer's form |
| ConfFile.ParsesIff | config/includes.chroot/usr/local/bin/moonlight-helper:200-202 | exactly the lines conf_values takes for a setting |
| ConfFile.LoadsTrimmed | config/includes.chroot/usr/local/lib/moonlight-os/mlos_host.py:43-54 | white space and one pair of quotes come off |
| ConfFile.LoadsEmpty | config/includes.chroot/usr/local/lib/moonlight-os/mlos_host.py:43-54 | an empty value |
| ConfFile.LoadsNothing | config/includes.chroot/usr/local/lib/moonlight-os/mlos_host.py:44-46 | comments and lines without '=' set nothing |
| ConfFile.WhatQuotesComeOff | config/includes.chroot/usr/local/lib/moonlight-os/mlos_host.py:51-53 | one pair of either quote, and nothing else |
| ConfFile.EachLineStaysOrGoes | config/includes.chroot/usr/local/bin/moonlight-helper:313-315 | a line goes exactly when it starts with an updated key and '=', and otherwise stays in its place |
| ConfFile.OneLineAnUpdate | config/includes.chroot/usr/local/bin/moonlight-helper:316-316 | the appended lines, one an update, in order |
| ConfFile.RewriteReplaces | config/includes.chroot/usr/local/bin/moonlight-helper:314-316 | writing the same keys again replaces the earlier lines |
| ConfFile.UnterminatedLineSwallowsTheUpdate | config/includes.chroot/usr/local/bin/moonlight-helper:308-316 | every write that is not clean loses its first update, which reads as its default |
| ConfFile.SplicedLines | config/includes.chroot/usr/local/bin/moonlight-helper:308-316 | the lines after such a write: the last line and the first update are one |
| PortParser.ParsePortTable | host-utils/usbip.go:105-134 | the loop computes the scan of the lines |
| PortParser.ReadLine | host-utils/usbip.go:110-131 | the body of the loop is one step of the scan |
| PortParser.PrintedTableReadsBack | host-utils/usbip.go:81-134 | printing any well-formed entries in the documented layout and parsing gives them back |
| PortParser.AnyTableFollowsItsHeaders | host-utils/usbip.go:105-134 | on any input the result's ports are header ports, in order, at most one entry a header |
| PortParser.HeaderForms | host-utils/usbip.go:75-75 | every form of header line the pattern allows |
| PortParser.HugePortsAreClamped | host-utils/usbip.go:111-111 | a port too large for an int reads as the largest |
| PortParser.TailForms | host-utils/usbip.go:78-78 | the port number in an import line is optional |
| PortParser.HostForms | host-utils/usbip.go:78-78 | plain and bracketed hosts |
| PortParser.WhatIsATitle | host-utils/usbip.go:129-131 | titles are trimmed, and arrow lines are none |
| PortParser.WhenLinesCount | host-utils/usbip.go:110-127 | import lines count once, after a header; a header forgets the title |
| Displays.CommonMode | config/includes.chroot/usr/local/bin/moonlight-displays:236-244 | a largest mode all screens share, the first in sorting order; none exactly when no shared mode has an area |
| Displays.SharedIsIntersection | config/includes.chroot/usr/local/bin/moonlight-displays:239-242 | counting once per screen and keeping those counted n times is the intersection |
| Displays.CountedCounts | config/includes.chroot/usr/local/bin/moonlight-displays:241-241 | on sorted input uniq -c gives each mode once with its number |
| Displays.LargestArea | config/includes.chroot/usr/local/bin/moonlight-displays:243-243 | the first line of largest positive area |
| Displays.PreferredMode | config/includes.chroot/usr/local/bin/moonlight-displays:95-106 | the first row no other row is better than, by area and then rate |
| Displays.BestMeans | config/includes.chroot/usr/local/bin/moonlight-displays:95-106 | largest area, then highest rate, then first |
| Displays.BuildExtended | config/includes.chroot/usr/local/bin/moonlight-displays:278-330 | the positions the loop gives the screens |
| Displays.EachSideLies | config/includes.chroot/usr/local/bin/moonlight-displays:310-328 | on which side each screen lies and which way round it stands |
| Displays.MainScreenLies | config/includes.chroot/usr/local/bin/moonlight-displays:124-141 | the main screen stands the way it is turned |
| Displays.BesideTheMainScreen | config/includes.chroot/usr/local/bin/moonlight-displays:310-328 | every other screen touches the main one along an edge and never covers it |
| Displays.DifferentSidesOverlapOnlyAtTheCorner | config/includes.chroot/usr/local/bin/moonlight-displays:322-327 | screens on different sides overlap exactly when one right and one below both overhang |
| Utf16.Utf16LE | host-utils/platform_windows.go:598-611 | byte order mark followed by the encoding |
| Utf16.Units | host-utils/platform_windows.go:601-608 | one unit outside the surrogates, or a pair within D800-DBFF and DC00-DFFF that stands for the value (section 2.1 of RFC 2781) |
| Utf16.RoundTrip | host-utils/platform_windows.go:598-611 | decoding by section 2.2 of RFC 2781 gives the text back |
| Utf16.StartsWithByteOrderMark | host-utils/platform_windows.go:599-599 | the output begins with U+FEFF, low byte first, and decodes to that and the text |
| Utf16.Injective | host-utils/platform_windows.go:598-611 | different texts have different encodings |

## Left out

- Menus, audio, Bluetooth, Tailscale, telemetry, packaging and installation: input and output with little state.
- The external tools behind the models (`usbip`, `dmsetup`, rtslib, `mkfs`, `rsync`, `grub-*`, `blkid`): each is an abstract operation with a stated effect and possible failure.
- Download, signature and version checks of the updater: external tools that run before the first destructive command.
- Kills inside a USB lease step: binds come before the journal write, so recovery is claimed only for kills between steps.
- A `bind` or `unbind` that raises instead of returning, and a USB module that stops loading while a connection owns devices.
- The order of unbinds (sorted in the source): the loops take any order, and consecutive unbinds of the watcher are one record of its history.
- Unicode case folding of host names: ASCII letters only.
- UsbipTool.Tool.Sync and UsbipTool.Tool.DetachBusId: for a named host only; the agent always passes one, and only the uninstaller's DetachAll leaves it empty.
- Tables with one device of a host on two ports: `haveSet` collapses them, so uniqueness is required.
- `Client.call`'s socket handling: a request is delivered, lost, or executed without a reply, and may be sent again.
- `serve`'s connection limit and socket set-up, request parsing, and all other helper operations.
- The mode names of `common_mode` are pairs of numbers, and sort(1)'s collating order is any total order on them.
- `single` and `mirror` placement, stored overrides, `list_set` and `list_get`: string lists with easy laws. Screens without a mode are skipped by the source and are not passed to the model.
- The other steps of a restore.
- The whole-output trim in `Tool.run` before the port table is parsed.
