# CUL868 firmware flasher: a Dafny model

The CUL868 flasher is a Home Assistant add-on that replaces the firmware of a USB radio stick. A flash
reads the version `V`, writes a recovery record, sends `B01`, waits for the DFU bootloader, runs
`dfu-programmer` three times and reads `V` again, while the add-ons that use the stick are paused. Any of
these calls may fail and the process may die between any two of them. Beside it an HTTP server takes
uploads, a one-slot queue hands them to one worker, and a signal may stop everything at any time.

The project models that behaviour and proves what the add-on promises about it.

## How it is modelled

* **Effects that outlive a statement** (Supervisor requests, serial bytes, DFU commands, replacements of
  the state file) form a trace. `Protocol.Allowed` is the discipline each effect must obey. The classes in
  `Flasher.dfy` and `Supervisor.dfy` work on an `Environment.World` whose every answer (USB snapshots,
  replies, tool results, clocks, disk) comes from an arbitrary oracle, and prove that they only ever emit
  accepted traces. `TraceLaws.dfy` proves what accepted traces guarantee, `DescriptorLaws.dfy` what a
  changed or missing USB serial can do to a recovery, `DriftLaws.dfy` exactly when an erased serial can be lost.
  Accepted traces are closed under prefixes and a new `World` continues any crashed history with nothing but the file, so every law holds at every crash point
  of every sequence of startup, LED, diagnostic and flash runs.
* **What a run may do** is fixed when it begins: the `Begin` event holds the configured device, boot timeout,
  workaround and add-on list and, for a flash, the operator's consent. Every later event is judged by that.
* **Sessions** go to one place only: the TTY of the application a run settled on, by the `Bound` event through the
  configured path or by the `Located` event after the commands. Both carry the views they rest on; pauses and
  destructive commands make them void. A version counts for exactly that application (`Protocol.Reading`), and only
  that application is recorded as verified.
* **Answers** are tied to the calls that gave them. `World.log` holds every call with its answer, the n-th
  call getting the n-th answer of the oracle, what USB shows also depending on how many B01 and DFU calls were made
  before it, and the state of an add-on on whether the last request it took was to stop; the clock, the sleeps and the tool and alias calls are read off
  it. `SerialIo.Port.log` does the same for one session. Each event is stamped with the length of the log, and
  the USB views, clock readings, replies and states it rests on were asked for after the event before it
  (`Environment.Fresh`); `Freshness.dfy` proves what that means. Bounds on waits are counted from the clock
  reading the wait starts with.
* **Requests, reaper, worker and shutdown** form a step machine (`Admission.dfy`) with a program counter
  per thread and the sections between lock operations as steps. `AdmissionLaws.dfy`, `Ownership.dfy` and
  `Shutdown.dfy` prove its invariants, `InterleavingLaws.dfy` what they mean for every reachable state.
  `Operation.dfy` and `ArtifactRegistry.dfy` are the shared objects as classes over the same functions.
* **The Intel HEX parser** is the one-pass loop over an `array`, proved equal to a declarative memory
  image that knows nothing of the loop.
* `hide` statements keep definitions away from the solver where a proof only passes facts along.
* The planner, the state document, the USB lookups, the choice of add-ons (`Consumers.dfy`) and the serial
  loops are functions and methods with their own properties; the trace laws use them. What each of them answers
  is stated apart from its definition, over the listing, the JSON values or the characters, in both directions
  (the laws called `…Exactly`; for the state file in `StateLaws.dfy`, for HEX lines in `HexLaws.dfy`, for the
  sections of a request in `RequestLaws.dfy`).
* `Courses.dfy` says of the oracle alone when nothing stands in the way of a flash: where it begins (a recorded
  bootloader, a confirmed one, or the application behind the configured path), what the tool answers and what the new
  firmware shows, with devices that may move under the workaround and add-ons that stop and start when asked. `Flash`
  and `Run` are proved to get through there.
* `Witnesses.dfy` runs the methods in concrete worlds for the claims that the code does not meet.

## Where the code and its description part

* `README.md:246-250` lets an operation run only if it was claimed "before shutdown is observed". The
  event is read under a lock the signal handler does not take, so an operation can start after the event
  is set: exactly if the worker is between the check and the status change
  (`InterleavingLaws.LateStartExactly`, a run in `LateStartIsReachable`).
* `_run_dfu` turns a temporary file that cannot be created into the same error as a failed transfer, and
  that error is survived around `start`: a run can succeed with only erase and flash attempted, exactly if
  the call of `start` ended that way (`WriteFirmware`, `Flash`; `SuccessWithoutStart` returns from whole flashes that
  do). Success then still needs `V`.
* A missing USB serial matches every serial, so matching is not transitive, and after an erase a recovery
  may take a device with another serial than the one on record although no `V` was read and nobody consented
  (`RecoveriesDrift` does it in two flashes). The erased serial can be lost exactly if a later run can recover from
  the file, or the run itself accepted a bootloader without a serial and has a command left (`DriftsExactly`); while
  every bootloader shows a serial, exactly if the record names none and a command or such a run can follow
  (`DescribedDriftsExactly`). A waited-for
  bootloader always matches the record exactly if the planned one showed a serial or the record has none
  (`WaitedBootloadersMatchExactly`).
* `README.md:216-219` describes the moved USB path for the time after `B01`; the code also allows it for
  a recovery (`flasher.py:420-424`). The model follows the code.
* `save` does not check the 4096 bytes `load` accepts: a configured path of control characters is saved
  and lost (`SavedButNotLoaded`, with a version the serial code may return; exact condition in
  `SaveThenLoadExactly`).
* A HEX line of a colon and ten or more blanks raises IndexError instead of HexFileError
  (`IndexFaultExactly`); `HexImage` keeps the two outcomes apart.

## Model

| member | source | states |
|---|---|---|
| `TraceLaws.WriteAheadTrust` | cul868_flasher/app/state.py:93-126 | at every crash point of every sequence of runs, a stored version is one that exactly the recorded application gave on the TTY where its run had found it, with no B01 and no DFU command since (a record older than the trace counts as given at its start) |
| `TraceLaws.B01IsJustified` | cul868_flasher/app/flasher.py:916-955 | B01 at most once a run, in the session that gave V, the first one opened since its TTY was bound, where the configured path and the node both lead to the planned target, after a handoff-pending record of that target and device and after deciding to keep consumers stopped |
| `TraceLaws.SessionsLeadToApplications` | cul868_flasher/app/flasher.py:742-793 | every session, and every byte in it, goes to a TTY where this run found an application, by looks that no later pause and no later command has outdated |
| `TraceLaws.SessionsAfterCommandsAreLocated` | cul868_flasher/app/flasher.py:1069-1082 | once a DFU command was attempted sessions go only to an application found after the last one |
| `TraceLaws.LocationIsJustified` | cul868_flasher/app/flasher.py:1004-1049 | the application that is asked for V after the commands is the one where the accepted bootloader was, or elsewhere only under the configured workaround and as the only one visible, and its TTY is the one that leads to it |
| `TraceLaws.LedIsJustified` | cul868_flasher/app/flasher.py:1192-1225 | the LED command is sent at most once a run and only in an open session that gave V on a TTY bound through the configured path |
| `TraceLaws.CommandsAreInOrder` | cul868_flasher/app/flasher.py:438-451 | the DFU commands attempted so far are always a prefix of erase, flash, start |
| `TraceLaws.CommandIsJustified` | cul868_flasher/app/flasher.py:1227-1272 | each command goes to a 03eb:2ff4 device seen at the topology of the observed-bootloader record of the configured device, with a compatible serial, after the previous command returned 0 |
| `TraceLaws.AcceptanceIsJustified` | cul868_flasher/app/flasher.py:957-1002 | a bootloader is accepted at the planned topology, or elsewhere only if the run was started with the workaround and it is the only one visible; after B01 or with a serial compatible with the plan |
| `TraceLaws.PlansFollowTheSetup` | cul868_flasher/app/flasher.py:369-385 | every plan follows a successful check of the staged image in its run and is the planner's answer for the device, timeout and consent of that run; an unpaired bootloader is planned only for the consent given to this run, an automatic recovery only without one |
| `TraceLaws.RecordsNameTheDevice` | cul868_flasher/app/flasher.py:505-541 | every record that is saved names the configured device |
| `Freshness.CommandsLookAgain` | cul868_flasher/app/flasher.py:1227-1272 | the look that shows the target of a command comes after every earlier event of the process, so after the record, the acceptance and the previous exit, and the call of the tool follows it |
| `Freshness.AcceptanceLooksAgain` | cul868_flasher/app/flasher.py:957-1002 | a bootloader is accepted on a look taken after B01 or after consumers were kept stopped |
| `Freshness.BindingLooksAgain` | cul868_flasher/app/flasher.py:742-793 | an endpoint is bound on three looks taken after everything before |
| `Freshness.LocationLooksAgain` | cul868_flasher/app/flasher.py:1069-1078 | the application of the new firmware is located on two looks taken after everything before, so after the last command, and again before every session of the wait |
| `Freshness.RepliesAreNew` | cul868_flasher/app/serial.py:134-144 | a version that counts was given by the opened TTY after every earlier event, so after the last command |
| `Freshness.StatesAreNew` | cul868_flasher/app/supervisor.py:195-211 | an add-on counts as stopped or started only by an answer given after its request |
| `TraceLaws.StopIsJustified` | cul868_flasher/app/supervisor.py:106-231 | a stop request goes only to an add-on that the listing recorded in this run shows as a running consumer of the radio, by its options or by the list the run was started with, and never once the device may have left its application |
| `TraceLaws.RestartIsJustified` | cul868_flasher/app/supervisor.py:236-256 | a consumer is started only if this run stopped it and either sent nothing destructive or an application found by this run gave V after the last command and the body finished |
| `TraceLaws.SerialIsExclusive` | cul868_flasher/app/supervisor.py:213-256 | a session is opened, and bytes cross it, only after every matched consumer was seen stopped and before any is started again |
| `TraceLaws.RestartsFollowClosing` | cul868_flasher/app/supervisor.py:236-256 | whenever a consumer is started, every session of the run was closed before |
| `TraceLaws.SilenceAfterWrites` | cul868_flasher/app/flasher.py:916-955 | after B01 the run neither binds nor opens nor reads nor writes until it found a bootloader, after the LED command not at all |
| `DescriptorLaws.DescriptorTrustIsBounded` | cul868_flasher/app/flasher.py:815-853 | an unattended recovery is on the recorded topology; another serial is accepted only with 0 to max(boot timeout, 90) seconds of the handoff window left, at most 120; under an unchanged timeout that is the closed interval after the save of the run that opened it (a record older than the trace brings its own deadline) |
| `Freshness.TrustIsReadNow` | cul868_flasher/app/flasher.py:834-845 | another serial is accepted only on a wall clock reading taken in the run that plans, within the window of a record whose deadline counts from a reading taken in the run that saved it (or older than the trace) |
| `DescriptorLaws.ErasedDeviceStaysObserved` | cul868_flasher/app/flasher.py:426-439 | from a DFU command until the next V or consent, every automatic plan is compatible with the observed-bootloader record; no handoff window can reopen |
| `DescriptorLaws.WaitedBootloadersMatchExactly` | cul868_flasher/app/flasher.py:419-425 | in that time, a waiting recovery accepts only bootloaders compatible with the record if and only if the planned one showed a serial or the record names none; both directions over accepted continuations |
| `DescriptorLaws.FoundMatchesTheRecord` | cul868_flasher/app/flasher.py:957-1002 | so each bootloader found in that time is compatible with the observed record under this condition |
| `DescriptorLaws.CommandsMatchTheRecord` | cul868_flasher/app/flasher.py:1227-1272 | each command goes to a bootloader compatible with the record on disk, unconditionally |
| `Witnesses.RecoveriesDrift` | cul868_flasher/app/flasher.py:1135-1148 | on concrete oracles, for any two short serials, two whole flashes with a restart between them erase a bootloader with the first serial and then one with the second, with no V and no consent |
| `DescriptorLaws.DescribedBootloadersNeverDrift` | cul868_flasher/app/flasher.py:1135-1148 | with the record and every bootloader from the command on showing a serial, whatever is planned, found or written in that time shows the serial of that command |
| `DriftLaws.DescribedDriftsExactly` | cul868_flasher/app/flasher.py:1135-1148 | both directions, over all accepted continuations in which every bootloader shows a serial: that of the command is kept if and only if the record on disk names one, or no command is left and no later run can recover from the file |
| `DriftLaws.DriftsExactly` | cul868_flasher/app/flasher.py:1135-1148 | over all accepted continuations without V and consent, whatever they show: every bootloader accepted later may be the one of the command if and only if that one showed no serial, or no later run can recover from the file and the run accepted one with a serial or has no command left |
| `TraceLaws.VerifiedIsVouched` | cul868_flasher/app/flasher.py:455-483 | what a run counts as the verified version was given in that run by the application it is counted for, on the TTY where the run had found it, with nothing destructive after it |
| `TraceLaws.MonitorReflects` | cul868_flasher/app/flasher.py:369-503 | the monitor's flags are exactly the events of the present run |
| `Protocol.AcceptedPrefix` | cul868_flasher/app/flasher.py:369-503 | a crash at any point leaves an accepted trace, and each event was allowed when it happened |
| `Protocol.RebootedRunContinues` | cul868_flasher/app/state.py:57-91 | a run started from nothing but the surviving file continues any crashed history as an accepted trace |
| `Environment.World.constructor` | cul868_flasher/app/state.py:57-91 | a process starts from any crashed history with nothing but its file |
| `Environment.World.SaveState` | cul868_flasher/app/state.py:93-126 | the file is replaced by an allowed record, even if the call then raises, or nothing happened |
| `Flasher.Cul868Flasher.Flash` | cul868_flasher/app/flasher.py:369-503 | everything since the start is one run with the given options and consent, and a manual recovery in it is the confirmed one; normal return: erase and flash were called and returned 0, start was called and its answer decides whether it was attempted, the application reported is the one that gave V afterwards and that the record on disk verifies for the configured device, serial migration is exactly that the configured path is missing from the aliases found, the paused add-ons are exactly the running consumers of the recorded listing, and exactly the paused minus the retained ones were seen started in reverse order; failure after the uncertain transition restarts none; earlier failure leaves each stopped add-on restored or reported; failure after the body means only that some add-on was not restored; from a recorded or confirmed bootloader and through B01, with the workaround also where devices move, a flash that nothing stands in the way of pauses its consumers and attempts its commands, and it succeeds if the new firmware shows and answers, also after a start that timed out, broke or returned an error |
| `Flasher.Cul868Flasher.Run` | cul868_flasher/app/flasher.py:219-367 | one run with the given options: startup verification, LED and diagnostics send no B01 and no DFU command, only the LED run writes an LED command, only running consumers by options or list are paused, and every paused add-on is restored or reported; a returned version was given on the TTY bound after the pause and is on record for exactly that application; with the application in its place and nothing failing around it the run succeeds, consumers or not |
| `Flasher.Cul868Flasher.EnterBootloader` | cul868_flasher/app/flasher.py:916-955 | at most one B01 over three attempts, each with an endpoint and a session of its own (`TraceLaws.B01IsJustified`), and no further attempt after it (`TraceLaws.SilenceAfterWrites`); success means the run left the application with consumers kept stopped; it gives up without B01 only after all three attempts, a second between each two |
| `Flasher.Cul868Flasher.Handoff` | cul868_flasher/app/flasher.py:926-951 | one attempt: B01 may have left exactly if it is reported as requested, otherwise the run is as before |
| `Flasher.Cul868Flasher.BeginUncertainTransition` | cul868_flasher/app/flasher.py:529-551 | the pending record of the target and configured device, its deadline counted from a clock reading of this call, is on disk before consumers are kept stopped, and they are only then |
| `Flasher.Cul868Flasher.StoreObservedBootloader` | cul868_flasher/app/flasher.py:505-527 | success, exactly if the record can be saved and the replacement succeeds, means the DFU identity with the configured device is on disk in this run |
| `Flasher.Cul868Flasher.RunDfu` | cul868_flasher/app/flasher.py:1227-1272 | the command goes to a bootloader that a look of this very call showed; without tool or bootloader there is no call and it is FlashError; a call is clean exactly if it returned 0 and left its transcript, FlashError exactly if its directory or the tool was missing, and any other answer a transfer error; it counts as attempted unless its directory or output file could not be created |
| `Courses.ResultOfExactly` | cul868_flasher/app/flasher.py:1246-1272 | which of the three results each answer of the call becomes |
| `Flasher.Cul868Flasher.WriteFirmware` | cul868_flasher/app/flasher.py:438-450 | continues only after logged calls of erase and flash that returned 0 and one of start, attempted exactly unless its output file could not be created; where nothing but dfu-programmer fails, if and only if erase and flash return 0 and neither the directory nor the tool is missing at start |
| `Witnesses.SuccessWithoutStart` | cul868_flasher/app/flasher.py:438-483 | on a concrete oracle a whole flash, of a recorded bootloader or through B01, returns normally with only erase and flash attempted |
| `Flasher.Cul868Flasher.FlashBody` | cul868_flasher/app/flasher.py:391-489 | the pause is left for restore exactly while nothing destructive can have happened; retained add-ons are none or all; the installation that is returned names the version and the application of the record on disk, which gave it |
| `Flasher.Cul868Flasher.WaitForBootloader` | cul868_flasher/app/flasher.py:957-1002 | returns only a bootloader seen in this call, of the asked topology or a lone moved one, with the asked serial; gives up only at its limit or on a device it must not take; at most 4 polls a second of timeout, with one look each, two with the workaround, no sleep ending 0.25 s or more past its first clock reading plus the timeout; on a steady bus finds the bootloader at the topology, or with the workaround the only one that moved |
| `Flasher.Cul868Flasher.PollBootloader` | cul868_flasher/app/flasher.py:969-991 | one poll returns a bootloader exactly if its first look shows it at the topology, or with the workaround the first shows nothing there and the second shows it alone, with a serial that will do; it goes on waiting exactly if nothing is shown |
| `Flasher.SingleReenumeratedExactly` | cul868_flasher/app/flasher.py:1103-1148 | a moved device is chosen exactly if it is the only one listed and its serial will do; exactly an empty list passes without choice |
| `Flasher.Cul868Flasher.WaitForApplicationVersion` | cul868_flasher/app/flasher.py:1051-1101 | returns an application the run located and the version that its own TTY gave during this call; gives up only at its limit or where the applications cannot be told apart; no sleep ends after its first clock reading plus the timeout; succeeds on a steady bus that shows an answering one |
| `Flasher.Cul868Flasher.FindApplication` | cul868_flasher/app/flasher.py:1004-1049 | exactly the application and TTY that the looks of this call lead to: at the asked topology, or with the workaround and nothing usable there the only one listed with its own TTY; a mismatch exactly if then several or none can be listed |
| `Flasher.Cul868Flasher.WaitForSerialByIdAliases` | cul868_flasher/app/flasher.py:624-668 | returns the first non-empty answer of either source, or none after no less than 15 s; raises exactly if there is none and both sources failed at least once, and no sleep ends after its first clock reading plus 15 s |
| `Flasher.Cul868Flasher.ConfiguredEndpoint` | cul868_flasher/app/flasher.py:742-793 | an endpoint exactly if three looks of this call lead from the configured path to an application, to the TTY of its topology, and through the node back to the same stick, and to the expected one if one is given |
| `Flasher.Cul868Flasher.SetLedAfterVerification` | cul868_flasher/app/flasher.py:1192-1225 | the version is exactly the first reply within three attempts if the LED command after it was written; success means V was read and one LED command was sent; nothing is bound, opened or sent after the write began (`TraceLaws.SilenceAfterWrites`) |
| `Flasher.Cul868Flasher.ReadVersion` | cul868_flasher/app/flasher.py:1170-1190 | the version is exactly the first reply of an opened session within three attempts; it counts for the application the TTY leads to |
| `Flasher.Cul868Flasher.ManualSerialByIdMigration` | cul868_flasher/app/flasher.py:568-622 | every paused add-on is retained exactly if a serial-by-id path is configured and missing from the aliases found, else none |
| `Flasher.Cul868Flasher.MakePlan` | cul868_flasher/app/flasher.py:670-740 | the plan is what the planner makes of the record, the configured device and the probes of this call; a manual recovery only with the given consent |
| `Planner.StatusAgreesWithPreflight` | cul868_flasher/app/flasher.py:136-217 | on one snapshot, record and clock, the status is application, bootloader or unpaired exactly when preflight says application, recovery or manual recovery, unavailable exactly when it fails |
| `Planner.StatusExactly` | cul868_flasher/app/flasher.py:136-184 | for any probes: running exactly with an application behind the configured path, in the bootloader exactly with one at the place of the configured record and a serial that will do, unpaired exactly with neither and one bootloader alone, unavailable otherwise |
| `Planner.PreflightExactly` | cul868_flasher/app/flasher.py:186-217 | for any probes: admitted exactly with a plan, as its mode and place |
| `Planner.TwoBootloadersAreRefused` | cul868_flasher/app/flasher.py:855-871 | with two bootloaders listed and nothing else to plan for the preflight fails and the status is unavailable |
| `Planner.PlanExactly` | cul868_flasher/app/flasher.py:670-740 | for any probes and consent: each plan is made exactly under its conditions on the configured application, the record, its window, the confirmed target and the listing; otherwise planning raises |
| `Planner.PreflightIsReplayable` | cul868_flasher/app/flasher.py:670-740 | handing the preflight's target back to the planner gives the same mode and topology |
| `Planner.NoManualRecoveryWithoutConsent` | cul868_flasher/app/flasher.py:670-740 | a flash without consent never uses an unpaired bootloader |
| `Planner.RecoveryIsBound` | cul868_flasher/app/flasher.py:815-853 | a recovery plan is for the configured record's topology, compatible or inside its handoff window |
| `Planner.ManualRecoveryIsBound` | cul868_flasher/app/flasher.py:873-891 | a confirmed plan is for the confirmed topology and, strictly, the confirmed serial |
| `Planner.HandoffWindowExactly` | cul868_flasher/app/flasher.py:834-845 | under an unchanged timeout the window is the closed interval from the save |
| `UsbTopology.TargetsWithIdentity` | cul868_flasher/app/usb.py:189-201 | the loop lists one target per resolved device path with the identity |
| `UsbTopology.DeduplicatedByIdentity` | cul868_flasher/app/usb.py:189-224 | one entry per physical device and none lost |
| `UsbTopology.TtyForTopology` | cul868_flasher/app/usb.py:122-145 | the loop answers as `TtyFor`, whose answers `TtyForExactly` states |
| `UsbTopology.TtyForExactly` | cul868_flasher/app/usb.py:122-145 | a path is answered exactly if one listed TTY descends from an application at the topology and this is its node; raises exactly if two do, nothing exactly if none |
| `UsbTopology.ConfiguredApplicationExactly` | cul868_flasher/app/usb.py:78-89 | the answer is exactly the application of the first listed TTY with the name that the configured path resolves to; every other case raises |
| `UsbTopology.SingleAnswers` | cul868_flasher/app/usb.py:174-187 | a lookup answers only with a device of that identity at that topology |
| `UsbTopology.SingleExactly` | cul868_flasher/app/usb.py:174-187 | a device is answered exactly if it is the only listed one of that identity at the topology, nothing exactly if there is none; raises exactly if there are two or nothing could be listed |
| `UsbTopology.ListedAloneExactly` | cul868_flasher/app/usb.py:189-201 | the list has one member exactly if all listed devices of the identity are one physical device, and none exactly if there is none |
| `UsbTopology.ListedIsFound` | cul868_flasher/app/usb.py:174-201 | the only listed device is what the lookup by its topology returns |
| `UsbTopology.SingleFailsOnlyUnlisted` | cul868_flasher/app/usb.py:174-187 | in a coherent sysfs a lookup fails exactly when the directory cannot be listed |
| `DeviceState.NormalIsIdempotent` | cul868_flasher/app/state.py:93-126 | normalisation is idempotent, keeps acceptability, and a deadline survives exactly for a pending handoff |
| `DeviceState.SaveThenRead` | cul868_flasher/app/state.py:57-126 | every record save accepts reads back as its normal form |
| `StateLaws.ReadExactly` | cul868_flasher/app/state.py:57-91 | a document is read as a record exactly if its fields hold it: valid topology, printable texts within their lengths, a device path, a known binding (or none, migrated by the version), and a deadline exactly for a pending handoff |
| `StateLaws.TopologyExactly` | cul868_flasher/app/usb.py:58-61 | a topology is exactly a bus number, a dash and port numbers with dots between them, none with a leading zero |
| `StateLaws.DevicePathExactly` | cul868_flasher/app/state.py:137-145 | a device path is kept exactly if it is absolute in the POSIX sense, its first piece is dev and no piece steps up |
| `StateLaws.SizeIsTextLength` | cul868_flasher/app/state.py:93-115 | the size that decides loading is the length of the JSON text that is written |
| `DeviceState.SaveThenLoadExactly` | cul868_flasher/app/state.py:57-126 | load returns it exactly if the escaped text fits 4096 bytes |
| `DeviceState.PrintableRecordsFit` | cul868_flasher/app/state.py:57-126 | printable paths and topologies up to 512 characters always fit |
| `DeviceState.SavedButNotLoaded` | cul868_flasher/app/state.py:57-126 | a record that is saved and does not come back, with a version that passes the check on V replies and a path of two components of 253 characters |
| `Supervisor.SupervisorClient.MatchesAmong` | cul868_flasher/app/supervisor.py:106-154 | each kind of add-on exactly by its listed state or by its info and options, the operator's list first; fails exactly if an add-on of a known kind that is not on that list has no info |
| `Consumers.ContributionExactly` | cul868_flasher/app/supervisor.py:127-148 | what one entry of the listing adds to which kind, and when it fails the whole |
| `Supervisor.SupervisorClient.EnterPause` | cul868_flasher/app/supervisor.py:213-244 | success stops exactly the running consumers of the listing the Supervisor gave in this call, each under its kind, all seen stopped; a failed stop phase stopped only such add-ons and restores or reports exactly those whose stop was accepted; where every add-on is listed with its info and stops when asked it succeeds |
| `Supervisor.SupervisorClient.StopOne` | cul868_flasher/app/supervisor.py:221-227 | an add-on counts as stopped by this run exactly if its request was accepted, whether or not it is then seen stopped; one that stops when asked is |
| `Supervisor.SupervisorClient.LeavePause` | cul868_flasher/app/supervisor.py:236-256 | restores paused minus retained after success, after failure only if still allowed; raises exactly if the body failed or one is left; where every add-on starts when asked none is left |
| `Supervisor.SupervisorClient.Restore` | cul868_flasher/app/supervisor.py:258-279 | every slug once in reverse order, restored or listed as failure, never both |
| `Supervisor.SupervisorClient.RestoreOne` | cul868_flasher/app/supervisor.py:258-279 | at most three start requests; success only after the add-on was observed started; given up only after three attempts that each had no answer, a refused start or 30 s without the state; an add-on that starts when asked is restored |
| `Supervisor.SupervisorClient.Attempt` | cul868_flasher/app/supervisor.py:263-273 | an attempt requests a start exactly if the first answer is a state other than started |
| `Supervisor.SupervisorClient.WaitForState` | cul868_flasher/app/supervisor.py:195-211 | returns only after the state was observed during the call, or error where stopped is wanted; gives up only after 30 s or a failed request, and never after an answer that would do |
| `Supervisor.RetainedAndRestorablePartition` | cul868_flasher/app/supervisor.py:66-86 | retained and restorable add-ons partition the paused ones |
| `Supervisor.StoppedAreSettled` | cul868_flasher/app/supervisor.py:258-279 | each stopped add-on is restored or failed, none both |
| `HexImage.ParseHex` | cul868_flasher/app/hexfile.py:89-162 | accepts exactly the declarative images; data bytes, highest and lowest address are size, maximum and minimum of the covered set; IndexError exactly at a blank record reached |
| `HexImage.ParseLines` | cul868_flasher/app/hexfile.py:96-148 | the loop over lines decides the image on every list of decoded records |
| `HexImage.PlaceData` | cul868_flasher/app/hexfile.py:115-135 | a data record is placed exactly if its range is non-empty, inside the flash and free, and then the bitmap, count and bounds describe the larger set |
| `HexImage.AppendSound` | cul868_flasher/app/hexfile.py:104-148 | one more record keeps a sound prefix sound exactly if it is admissible |
| `HexImage.NoWrap` | cul868_flasher/app/hexfile.py:115-124 | data of a sound file lies at its 16-bit address, without wrap and below 0x7000 |
| `HexImage.ImageHoldsEveryByte` | cul868_flasher/app/hexfile.py:115-135 | each payload byte sits at its linear address in the image |
| `HexImage.ImageHoldsNothingElse` | cul868_flasher/app/hexfile.py:115-135 | and each byte of the image comes from one record |
| `HexLaws.LinesExactly` | cul868_flasher/app/hexfile.py:89-103 | the lines and their boundaries are the text, no line holds a boundary and CR LF is one |
| `HexLaws.LinesAreOnly` | cul868_flasher/app/hexfile.py:89-103 | and no other lines are |
| `HexRecord.EncodeThenParse` | cul868_flasher/app/hexfile.py:165-179 | parsing inverts the record encoder for all addresses, types and payloads |
| `HexRecord.ParseThenEncode` | cul868_flasher/app/hexfile.py:165-179 | re-encoding an accepted blank-free line gives it back up to letter case |
| `HexRecord.SingleByteChangeIsRejected` | cul868_flasher/app/hexfile.py:165-179 | any single changed byte of an accepted record is rejected, however spelled |
| `HexRecord.IndexFaultExactly` | cul868_flasher/app/hexfile.py:168-175 | exactly which lines raise IndexError |
| `HexLaws.RecordExactly` | cul868_flasher/app/hexfile.py:165-179 | a line is a record exactly if after the colon stand at least ten characters, evenly many, that spell its bytes in either letter case with white space between pairs at most, and the bytes fit their count and sum to zero |
| `Upload.WriteUpload` | cul868_flasher/app/hexfile.py:39-66 | succeeds exactly for streams that deliver the declared length, and the file is their concatenation |
| `SerialIo.ReadLine` | cul868_flasher/app/serial.py:199-231 | over the calls of the port with the answers of its device: each read asks for 1 to 256 bytes and never over 2048 in all; a line is the first matching segment of the shortest received prefix that has one; an error has its reason in the log |
| `SerialIo.WriteAll` | cul868_flasher/app/serial.py:233-247 | over the calls of the port with the answers of its device: each write offers exactly the missing rest, success is exactly that the kernel took all of it, failure that the last call made no progress |
| `SerialIo.Version` | cul868_flasher/app/serial.py:134-144 | reads only after all of the request was taken; a version is exactly the line these reads end in, if it is ASCII and names a firmware with the LED command; otherwise an error with its reason in the log |
| `SerialIo.PrefixedExactly` | cul868_flasher/app/serial.py:38-48 | the filter of the request is the prefix test of the check |
| `SerialIo.SegmentsHoldTheLines` | cul868_flasher/app/serial.py:222-224 | segments contain no line end and joined again are the buffer with CR read as LF |
| `Operation.BoundedLogRefinesHistory` | cul868_flasher/app/operation.py:180-182 | after any calls the controller equals the one with unbounded log, cut to the last 32 entries |
| `Operation.ProgressNeverFalls` | cul868_flasher/app/operation.py:119-138 | while an operation stays current its progress never falls and is within 0 to 100; it cannot become current again |
| `Operation.OperationController.Submit` | cul868_flasher/app/operation.py:44-66 | refused exactly for a bad identifier or while another is pending, otherwise queued with progress 0 |
| `Operation.OperationController.ClaimForRun` | cul868_flasher/app/operation.py:101-117 | the current queued operation is claimed, or discarded when stopping; anything else is refused and changes nothing |
| `Operation.OperationController.Drain` | cul868_flasher/app/operation.py:74-86 | returns everything queued in order and discards the queued status only with it |
| `ArtifactRegistry.StagedArtifacts.Stage` | cul868_flasher/app/ingress.py:52-67 | replaces and unlinks whatever was staged, refused exactly while a live entry is claimed |
| `ArtifactRegistry.StagedArtifacts.Claim` | cul868_flasher/app/ingress.py:69-80 | granted exactly for a live unclaimed entry; expired ones and only those are unlinked |
| `ArtifactRegistry.StagedArtifacts.Close` | cul868_flasher/app/ingress.py:96-101 | unlinks every staged upload, claimed or not |
| `AdmissionLaws.CoreStep` | cul868_flasher/app/ingress.py:156-261 | every step of every thread keeps one operation at a time, a shelf of one upload claimed only by its claimer, and the closed gate |
| `RequestLaws.AdmissionExactly` | cul868_flasher/app/ingress.py:259-261 | a request that wants to change something is admitted exactly while neither stopping nor closed; otherwise it leaves with its upload to be unlinked |
| `RequestLaws.IdleExactly` | cul868_flasher/app/ingress.py:255-257 | uploads, LED and diagnostics go on exactly while no operation is queued or running |
| `RequestLaws.ConsentExactly` | cul868_flasher/app/ingress.py:193-213 | a flash is submitted exactly for a live, unclaimed upload, with the second confirmation exactly for one staged for manual recovery, and the operation carries that upload and mode |
| `RequestLaws.ClaimEndsExactly` | cul868_flasher/app/ingress.py:82-90 | a refused claim is free again, an accepted upload leaves the registry |
| `RequestLaws.StagedExactly` | cul868_flasher/app/ingress.py:52-67 | an upload is staged for 900 s and replaces what was staged |
| `RequestLaws.ExpiryExactly` | cul868_flasher/app/ingress.py:103-111 | the reaper removes and unlinks exactly what is unclaimed and due |
| `RequestLaws.FlasherIsExclusive` | cul868_flasher/app/flasher.py:228-255 | startup verification, errands and flashes never overlap, nor do the sections of the controller |
| `RequestLaws.OutcomeExactly` | cul868_flasher/app/main.py:66-112 | an operation ends succeeded with progress 100 or failed with its error, exactly as its flash returned |
| `Ownership.OwnedStep` | cul868_flasher/app/ingress.py:52-111 | every step keeps ownership of uploads a function, and unlinked uploads unowned |
| `Shutdown.TicketsStep` | cul868_flasher/app/main.py:55-117 | every step keeps the record of each operation in line with where the operation is |
| `InterleavingLaws.ExactlyOneOwner` | cul868_flasher/app/ingress.py:52-111 | each upload has exactly one owner until it is unlinked, once |
| `InterleavingLaws.OnlyOwnersUnlink` | cul868_flasher/app/ingress.py:103-111 | whoever unlinks an upload owns it |
| `InterleavingLaws.OpenOperationsKeepTheirUpload` | cul868_flasher/app/ingress.py:193-213 | the upload of a queued, claimed or running operation is never gone |
| `InterleavingLaws.NothingIsLeft` | cul868_flasher/app/main.py:112-117 | once run and all handlers finished, no upload remains and each was unlinked exactly once |
| `InterleavingLaws.OneOperationAtATime` | cul868_flasher/app/operation.py:44-72 | at most one queued operation, its head current and queued; flashing only with status running; no LED or diagnostic session beside it; the Full, ValueError and already-submitted branches are dead; the flasher's lock is free when the worker wants it |
| `InterleavingLaws.FatesMoveForward` | cul868_flasher/app/operation.py:101-149 | accepted to running to ended, or discarded, and discarded only while stopping |
| `InterleavingLaws.EverySubmissionSettles` | cul868_flasher/app/main.py:55-117 | when run has finished, every submitted operation has ended or was discarded and its upload is unlinked |
| `InterleavingLaws.StopDecidesFate` | cul868_flasher/app/main.py:55-117 | an operation still waiting when stop is requested ends discarded, unless the worker was just marking it; then it ends; its upload is unlinked once either way |
| `InterleavingLaws.NoLateStart` | cul868_flasher/app/operation.py:101-117 | after the stop event no operation starts running, unless its claim had already looked |
| `InterleavingLaws.LateStartExactly` | cul868_flasher/app/operation.py:109-117 | a late start is possible exactly at that point |
| `InterleavingLaws.LateStartIsReachable` | cul868_flasher/app/operation.py:109-117 | a run of requests, worker and signal that gets there |
| `InterleavingLaws.NeverStuck` | cul868_flasher/app/main.py:53-117 | no deadlock between the admission, controller and flasher locks |
| `InterleavingLaws.ShutdownCompletes` | cul868_flasher/app/main.py:112-117 | from every reachable stopping state run can finish by steps of the worker and of the request inside the admission lock alone |

## Left out

- HTTP server, headers, JSON requests, static files and the page: plumbing around the modelled calls.
- termios, CDC line coding, subprocess output, temporary files and fsync: each is one oracle answer; replacing the state file is one step that may also raise after it took effect.
- Text of messages and errors, and `_safe_message`: messages are passed as cleaned text.
- Percentages a flash reports: only that a report may raise; the controller's side is in `Operation.dfy`.
- Uptime and M-Bus replies of diagnostics: read-only and swallowed on failure, so only their session appears.
- SHA-256 and the revalidation of the staged file: one oracle answer.
- Order of `_targets_with_identity`: the list is in directory order, the code sorts it; only its size and sole element matter to callers.
- One USB probe reads one snapshot; the source reads several sysfs files one after another.
- Matching of add-on options and device paths in the Supervisor client: an oracle per add-on says what its options name.
- A stop request that raises after taking effect: the code does not record it either, the restore laws speak of accepted requests.
- The second look of `parse_hex_file` at the size of the file: the parser gets the bytes as uploaded.
- Failing unlink calls, and other processes editing the upload directory.
- Option parsing: a run gets its options as parsed, with the boot timeout within its bounds.
- Clocks: whole milliseconds, sleeps last at least as long as asked; the wall clock is arbitrary.
- InterleavingLaws.ShutdownCompletes: states that a schedule to the end exists, not that the scheduler is fair or a running flash ends.
- Upload.WriteUpload: does not model the file mode, fsync and chmod, only the bytes kept or discarded.
- Operation.OperationController.Get: does not model the timeout, an empty queue answers at once.
- Process start and the second and third closing of admission: without effect on the modelled state.
