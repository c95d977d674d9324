/**
 What a changed or missing USB serial can do to a recovery, over every accepted trace.
 */
module DescriptorLaws {
  import opened Common
  import opened DeviceState
  import opened UsbTopology
  import opened Planner
  import opened Protocol
  import opened TraceLaws

  ghost predicate SavedLastAt(trace: seq<Event>, j: nat)
  {
    j < |trace| && trace[j].Saved? && forall k :: j < k < |trace| ==> !trace[k].Saved?
  }

  lemma {:induction false} LastSave(file: File, trace: seq<Event>)
    ensures (DiskAfter(file, trace) == file && forall k :: 0 <= k < |trace| ==> !trace[k].Saved?)
            || exists j: nat :: SavedLastAt(trace, j) && trace[j].file == DiskAfter(file, trace)
  {
    if trace != [] {
      var init, e := Split(trace);
      LastSave(file, init);
      if e.Saved? {
        assert SavedLastAt(trace, |init|);
      } else if exists j: nat :: SavedLastAt(init, j) && init[j].file == DiskAfter(file, init) {
        var j: nat :| SavedLastAt(init, j) && init[j].file == DiskAfter(file, init);
        assert SavedLastAt(trace, j);
      }
    }
  }

  /** The save at `j` opened the handoff window of its own run. */
  ghost predicate OpenedHandoff(trace: seq<Event>, j: nat, record: KnownDevice)
  {
    && j < |trace| && trace[j].Saved? && RecordIn(trace[j].file) == Some(record) && record.binding == HandoffPending
    && record.deadline == Some(trace[j].at + SetupOf(trace[..j]).Window())
  }

  /**
   A recovery accepted without consent is on the recorded topology, and shows another serial only inside
   the handoff window: 0 <= deadline - now <= max(boot timeout, 90), never more than 120 seconds. Under an
   unchanged timeout that is the closed interval after the save of the record, which the run that saved it
   opened (or which was on disk before the trace).
   */
  lemma DescriptorTrustIsBounded(file: File, trace: seq<Event>, i: nat)
    requires Accepted(Boot(file), trace) && i < |trace| && trace[i].Planned? && trace[i].plan.Recovery?
    ensures var record, b := trace[i].plan.record, trace[i].plan.bootloader;
            var disk, now, setup := DiskAfter(file, trace[..i]), trace[i].views.now, SetupOf(trace[..i]);
            var window := setup.Window();
            && Load(disk) == Some(record) && setup.consent.None? && MatchesConfiguration(record, setup.device)
            && IsBootloader(b) && b.topology == record.topology
            && (!Compatible(record.serial, b.serial) ==>
                  && record.binding == HandoffPending && record.deadline.Some?
                  && 0 <= record.deadline.value - now <= window <= 120
                  && (disk == file || exists j: nat :: j < i && OpenedHandoff(trace, j, record)
                                       && (SetupOf(trace[..j]).Window() == window ==>
                                             trace[j].at <= now <= trace[j].at + window)))
  {
    AcceptedPrefix(Boot(file), trace, i);
    var before, e := trace[..i], trace[i];
    FileIsLastSaved(file, before);
    SetupIsConfigured(file, before);
    var setup := SetupOf(before);
    assert PlannedBy(setup, e) && e.known == Load(DiskAfter(file, before));
    RecoveryIsBound(e.views, e.known, setup.device, setup.Window(), setup.consent);
    LoadIsRecord(DiskAfter(file, before));
    var record := e.plan.record;
    if !Compatible(record.serial, e.plan.bootloader.serial) && DiskAfter(file, before) != file {
      hide Accepted, Allowed, PlanFor, RecordIn;
      HandoffWasOpened(file, trace, i, record);
    }
  }

  /** A pending record on disk was written in the trace, with the window of its run, or was there before. */
  lemma HandoffWasOpened(file: File, trace: seq<Event>, i: nat, record: KnownDevice)
    requires Accepted(Boot(file), trace) && i <= |trace| && DiskAfter(file, trace[..i]) != file
    requires RecordIn(DiskAfter(file, trace[..i])) == Some(record) && record.binding == HandoffPending
    ensures exists j: nat :: j < i && OpenedHandoff(trace, j, record)
  {
    var before := trace[..i];
    LastSave(file, before);
    var j: nat :| SavedLastAt(before, j) && before[j].file == DiskAfter(file, before);
    AcceptedPrefix(Boot(file), trace, j);
    SetupIsConfigured(file, trace[..j]);
    assert MaySave(After(Boot(file), trace[..j]), trace[j]);
    hide Accepted, Allowed;
    assert OpenedHandoff(trace, j, record);
  }

  /** The descriptor can be told apart: sysfs shows a serial, and one the record can hold. */
  predicate Described(t: Target) { t.serial.Some? && SafeText(t.serial, 128) == t.serial }

  /** Bootloaders this event accepts without asking the operator. */
  function AutomaticallyAccepted(e: Event): Option<Target>
  {
    match e
    case Planned(Recovery(_, b), _, _) => Some(b)
    case Found(t, _, _) => Some(t)
    case Ran(_, t, _) => Some(t)
    case _ => None
  }

  ghost predicate DescribedFrom(trace: seq<Event>, i: nat)
  {
    forall k :: i <= k < |trace| ==>
      var t := AutomaticallyAccepted(trace[k]); t.Some? ==> Described(t.value)
  }

  /** No version reply and no confirmed plan after `i`. */
  ghost predicate Unattended(trace: seq<Event>, i: nat)
  {
    forall k :: i < k < |trace| ==> !trace[k].Replied? && !(trace[k].Planned? && trace[k].plan.ManualRecovery?)
  }

  /**
   What a DFU command leaves behind until the device speaks or the operator confirms; with
   `serial` given, also that every bootloader involved showed this serial.
   */
  ghost predicate Pinned(m: Monitor, serial: Option<string>)
  {
    && m.verified.None? && m.spoke.None?
    && RecordIn(m.file).Some? && RecordIn(m.file).value.binding == ObservedBootloader
    && (m.b01 ==> m.boot.Some?)
    && (m.plan.Some? && m.plan.value.ManualRecovery? ==> m.boot.Some?)
    && (m.plan.Some? && m.plan.value.Recovery? && m.boot.None? ==>
          RecordIn(m.file) == Some(m.plan.value.record)
          && Compatible(m.plan.value.record.serial, m.plan.value.bootloader.serial))
    && (serial.Some? ==>
          && RecordIn(m.file).value.serial == serial
          && (m.boot.Some? ==> m.boot.value.serial == serial)
          && (m.plan.Some? && m.plan.value.Recovery? && m.boot.None? ==> m.plan.value.bootloader.serial == serial))
  }

  lemma LoadIsRecord(file: File)
    ensures Load(file).Some? ==> Load(file) == RecordIn(file)
  {
  }

  /** An automatic plan under `Pinned` is compatible with the observed record, never a handoff. */
  lemma PinnedPlans(m: Monitor, e: Event, serial: Option<string>)
    requires Pinned(m, serial) && e.Planned? && MayPlan(m, e) && e.plan.Recovery?
    ensures RecordIn(m.file) == Some(e.plan.record) && Compatible(e.plan.record.serial, e.plan.bootloader.serial)
  {
    LoadIsRecord(m.file);
    RecoveryIsBound(e.views, e.known, m.setup.device, m.setup.Window(), m.setup.consent);
  }

  lemma PinnedAccepts(m: Monitor, e: Event, serial: Option<string>)
    requires Pinned(m, serial) && serial.Some? && Allowed(m, e)
    requires !(e.Planned? && e.plan.ManualRecovery?)
    requires var t := AutomaticallyAccepted(e); t.Some? ==> Described(t.value)
    ensures var t := AutomaticallyAccepted(e); t.Some? ==> t.value.serial == serial
  {
    if e.Planned? && e.plan.Recovery? {
      PinnedPlans(m, e, serial);
    }
  }

  lemma PinnedStep(m: Monitor, e: Event, serial: Option<string>)
    requires Pinned(m, serial) && Allowed(m, e)
    requires !e.Replied? && !(e.Planned? && e.plan.ManualRecovery?)
    requires serial.Some? ==> SafeText(serial, 128) == serial
    requires serial.Some? && AutomaticallyAccepted(e).Some? ==> AutomaticallyAccepted(e).value.serial == serial
    ensures Pinned(Step(m, e), serial)
  {
    hide MayPlan, MaySave, EndpointOf, BootloaderFor, BootloaderTargets, MayBind, MayMatch, MayLocate,
      Before, Pinned, Step;
    if e.Planned? {
      StepPlans(m, e);
      PinnedPlanned(m, e, serial);
    } else if e.Saved? {
      StepSaves(m, e);
      PinnedSaved(m, e, serial);
    } else if e.Found? || e.Ran? || e.SentB01? || e.Begin? {
      PinnedMoves(m, e, serial);
    } else {
      PinnedKept(m, e, serial);
    }
  }

  lemma StepPlans(m: Monitor, e: Event)
    requires e.Planned?
    ensures Step(m, e) == m.(plan := Some(e.plan)) && (Allowed(m, e) ==> MayPlan(m, e))
  {
    hide MayPlan;
  }

  lemma StepSaves(m: Monitor, e: Event)
    requires e.Saved?
    ensures Step(m, e) == m.(file := e.file, wrote := true) && (Allowed(m, e) ==> MaySave(m, e))
  {
    hide MaySave;
  }

  lemma PinnedMoves(m: Monitor, e: Event, serial: Option<string>)
    requires Pinned(m, serial) && Allowed(m, e) && (e.Found? || e.Ran? || e.SentB01? || e.Begin?)
    requires serial.Some? && AutomaticallyAccepted(e).Some? ==> AutomaticallyAccepted(e).value.serial == serial
    ensures Pinned(Step(m, e), serial)
  {
    hide BootloaderFor, BootloaderTargets, ObservedFor, PendingFor;
  }

  /** What the record, the versions and the plan are made of stays. */
  lemma PinnedKept(m: Monitor, e: Event, serial: Option<string>)
    requires Pinned(m, serial) && !e.Planned? && !e.Saved? && !e.Found? && !e.Ran? && !e.SentB01? && !e.Begin?
    requires !e.Replied?
    ensures Pinned(Step(m, e), serial)
  {
    hide Pinned;
    NothingMoves(m, e);
    PinnedAgrees(m, Step(m, e), serial);
  }

  lemma NothingMoves(m: Monitor, e: Event)
    requires !e.Planned? && !e.Saved? && !e.Found? && !e.Ran? && !e.SentB01? && !e.Begin? && !e.Replied?
    ensures var n := Step(m, e);
            && n.verified == m.verified && (n.spoke == m.spoke || n.spoke.None?) && n.file == m.file && n.b01 == m.b01
            && n.boot == m.boot && n.plan == m.plan
  {
    hide Step, Allowed;
    FileStep(m, e);
    B01Change(m, e);
    OriginChange(m, e);
    VerifiedChange(m, e);
    SpokeChange(m, e);
  }

  lemma SpokeChange(m: Monitor, e: Event)
    ensures Step(m, e).spoke ==
            if e.Replied? then Some(e.version)
            else if e.Begin? || e.Opened? || e.Closed? || IsDestructive(e) then None else m.spoke
  {
  }

  lemma PinnedAgrees(m: Monitor, n: Monitor, serial: Option<string>)
    requires Pinned(m, serial) && n.verified == m.verified && (n.spoke == m.spoke || n.spoke.None?) && n.file == m.file
    requires n.b01 == m.b01 && n.boot == m.boot && n.plan == m.plan
    ensures Pinned(n, serial)
  {
  }

  lemma PinnedPlanned(m: Monitor, e: Event, serial: Option<string>)
    requires Pinned(m, serial) && e.Planned? && MayPlan(m, e) && !e.plan.ManualRecovery?
    requires serial.Some? && e.plan.Recovery? ==> e.plan.bootloader.serial == serial
    ensures Pinned(m.(plan := Some(e.plan)), serial)
  {
    hide PlanFor, RecordIn, PlannedBy, Load;
    if e.plan.Recovery? {
      PinnedPlans(m, e, serial);
    }
  }

  lemma PinnedSaved(m: Monitor, e: Event, serial: Option<string>)
    requires Pinned(m, serial) && e.Saved? && MaySave(m, e)
    requires serial.Some? ==> SafeText(serial, 128) == serial
    ensures Pinned(m.(file := e.file, wrote := true), serial)
  {
    assert m.boot.Some? && ObservedFor(e.file, m.boot.value, m.setup.device);
  }

  lemma RanIsAllowed(m: Monitor, e: Event)
    requires Allowed(m, e) && e.Ran?
    ensures MayRun(m, e)
  {
  }

  lemma RanPins(m: Monitor, e: Event, described: bool)
    requires e.Ran? && MayRun(m, e)
    requires described ==> RecordIn(m.file).value.serial.Some? && Described(e.target)
    ensures Pinned(Step(m, e), if described then e.target.serial else None)
  {
  }

  lemma {:induction false} PinnedSince(file: File, trace: seq<Event>, i: nat)
    requires Accepted(Boot(file), trace) && i < |trace| && trace[i].Ran? && Unattended(trace, i)
    ensures Pinned(After(Boot(file), trace), None)
  {
    hide Step, Pinned;
    var init, e := Split(trace);
    assert forall k :: 0 <= k < |init| ==> init[k] == trace[k];
    if i == |init| {
      RanPins(After(Boot(file), init), e, false);
    } else {
      assert Unattended(init, i) && trace[|init|] == e;
      PinnedSince(file, init, i);
      PinnedStep(After(Boot(file), init), e, None);
    }
  }

  lemma {:induction false} SerialPinnedSince(file: File, trace: seq<Event>, i: nat)
    requires Accepted(Boot(file), trace) && i < |trace| && trace[i].Ran? && Unattended(trace, i)
    requires DescribedFrom(trace, i) && RecordNamesSerial(file, trace[..i])
    ensures Pinned(After(Boot(file), trace), trace[i].target.serial)
  {
    hide Step, Pinned, Allowed, RecordIn;
    var init, e := Split(trace);
    assert forall k :: 0 <= k < |init| ==> init[k] == trace[k];
    assert AutomaticallyAccepted(trace[i]) == Some(trace[i].target) && Described(trace[i].target);
    if i == |init| {
      FileIsLastSaved(file, init);
      RanIsAllowed(After(Boot(file), init), e);
      RanPins(After(Boot(file), init), e, true);
    } else {
      assert Unattended(init, i) && DescribedFrom(init, i) && trace[|init|] == e && init[..i] == trace[..i];
      SerialPinnedSince(file, init, i);
      hide RecordIn, DescribedFrom, Unattended;
      PinnedAccepts(After(Boot(file), init), e, trace[i].target.serial);
      PinnedStep(After(Boot(file), init), e, trace[i].target.serial);
    }
  }

  /** The record on disk names a serial. */
  ghost predicate RecordNamesSerial(file: File, trace: seq<Event>)
  {
    var r := RecordIn(DiskAfter(file, trace));
    r.Some? && r.value.serial.Some?
  }

  /** The monitor after a DFU command nobody attended to, and the record it left. */
  lemma PinnedAt(file: File, trace: seq<Event>, i: nat, j: nat)
    requires Accepted(Boot(file), trace) && i < j <= |trace| && trace[i].Ran? && Unattended(trace[..j], i)
    ensures Accepted(Boot(file), trace[..j])
    ensures Pinned(After(Boot(file), trace[..j]), None)
    ensures After(Boot(file), trace[..j]).file == DiskAfter(file, trace[..j])
    ensures j < |trace| ==> Allowed(After(Boot(file), trace[..j]), trace[j])
  {
    AcceptedPrefix(Boot(file), trace, j);
    FileIsLastSaved(file, trace[..j]);
    assert trace[..j][i] == trace[i];
    PinnedSince(file, trace[..j], i);
  }

  /**
   Once a DFU command was attempted, and until the device gives a version or the operator confirms,
   every automatic recovery plan is compatible with the observed bootloader on record. No handoff
   window can be reopened in between.
   */
  lemma ErasedDeviceStaysObserved(file: File, trace: seq<Event>, i: nat, j: nat)
    requires Accepted(Boot(file), trace) && i < j < |trace| && trace[i].Ran? && Unattended(trace[..j], i)
    requires trace[j].Planned? && trace[j].plan.Recovery?
    ensures var record := RecordIn(DiskAfter(file, trace[..j]));
            && record == Some(trace[j].plan.record) && record.value.binding == ObservedBootloader
            && Compatible(record.value.serial, trace[j].plan.bootloader.serial)
  {
    PinnedAt(file, trace, i, j);
    PinnedPlans(After(Boot(file), trace[..j]), trace[j], None);
  }

  /** Each command goes to a bootloader compatible with the observed record, in whatever state the rest is. */
  lemma CommandsMatchTheRecord(file: File, trace: seq<Event>, j: nat)
    requires Accepted(Boot(file), trace) && j < |trace| && trace[j].Ran?
    ensures var record := RecordIn(DiskAfter(file, trace[..j]));
            && record.Some? && record.value.binding == ObservedBootloader
            && Compatible(record.value.serial, trace[j].target.serial)
  {
    AcceptedPrefix(Boot(file), trace, j);
    FileIsLastSaved(file, trace[..j]);
    assert MayRun(After(Boot(file), trace[..j]), trace[j]);
  }

  // ---------------------------------------------------------------- the bootloader a recovery waits for

  /** A run that recovers a bootloader and is waiting for it to show. */
  predicate AwaitsRecovery(m: Monitor) { m.plan.Some? && m.plan.value.Recovery? && m.boot.None? && m.kept }

  /** A snapshot with one device. */
  function Alone(t: Target): Snapshot { Snapshot(Some([Entry(t.topology, t.topology, Some(t))]), None, map[]) }

  lemma AloneIsFound(t: Target)
    requires IsBootloader(t)
    ensures BootloaderFor(Alone(t), t.topology) == Ok(Some(t))
  {
    var entry := Entry(t.topology, t.topology, Some(t));
    assert [entry][1..] == [];
    assert AtTopology([entry], t.topology, "03eb", "2ff4") == [t];
  }

  function Unlike(serial: string): Target { Target("", "03eb", "2ff4", 1, 1, Some(serial + "'")) }

  /**
   In such a state every acceptable bootloader matches the record exactly if the planned one showed
   a serial, or the record names none.
   */
  lemma AcceptedMatchesExactly(m: Monitor)
    requires Pinned(m, None) && AwaitsRecovery(m)
    ensures (forall e: Event :: e.Found? && Allowed(m, e) ==>
               Compatible(RecordIn(m.file).value.serial, e.target.serial))
            <==> m.plan.value.bootloader.serial.Some? || RecordIn(m.file).value.serial.None?
  {
    var record, planned := RecordIn(m.file).value, m.plan.value.bootloader.serial;
    WaitedBootloaderMatchesRecordExactly(record.serial, planned);
    if planned.None? && record.serial.Some? {
      var t := Unlike(record.serial.value).(topology := m.plan.value.Topology());
      AloneIsFound(t);
      var e := Found(t, Alone(t), false);
      assert MayFind(m, e);
      assert Allowed(m, e) && !Compatible(record.serial, t.serial);
    }
  }

  /**
   After a DFU command nobody attended to, a waiting recovery accepts only bootloaders compatible with the
   observed record exactly if the bootloader it planned for showed a serial or the record names none; where
   it does not, an accepted continuation takes one with another serial.
   */
  lemma WaitedBootloadersMatchExactly(file: File, trace: seq<Event>, i: nat)
    requires Accepted(Boot(file), trace) && i < |trace| && trace[i].Ran? && Unattended(trace, i)
    requires AwaitsRecovery(After(Boot(file), trace))
    ensures var record := RecordIn(DiskAfter(file, trace));
            && record.Some?
            && ((forall e: Event :: e.Found? && Accepted(Boot(file), trace + [e]) ==>
                   Compatible(record.value.serial, e.target.serial))
                <==> After(Boot(file), trace).plan.value.bootloader.serial.Some? || record.value.serial.None?)
  {
    assert trace[..|trace|] == trace;
    PinnedAt(file, trace, i, |trace|);
    AcceptedMatchesExactly(After(Boot(file), trace));
    forall e: Event ensures Accepted(Boot(file), trace + [e]) <==> Allowed(After(Boot(file), trace), e) {
      AcceptedLast(Boot(file), trace, e);
    }
    hide Accepted, Allowed, Pinned;
  }

  /** So each bootloader found in that time matches the record, unless the plan had seen one without a serial. */
  lemma FoundMatchesTheRecord(file: File, trace: seq<Event>, i: nat, j: nat)
    requires Accepted(Boot(file), trace) && i < j < |trace| && trace[i].Ran? && Unattended(trace[..j], i)
             && trace[j].Found?
    ensures var record := RecordIn(DiskAfter(file, trace[..j]));
            && record.Some? && record.value.binding == ObservedBootloader
            && exists k: nat, plan: Plan ::
                 && PlannedAt(Current(trace[..j]), k, plan) && plan.Recovery?
                 && (plan.bootloader.serial.Some? || record.value.serial.None? ==>
                       Compatible(record.value.serial, trace[j].target.serial))
  {
    PinnedAt(file, trace, i, j);
    var m := After(Boot(file), trace[..j]);
    MonitorOriginates(file, trace[..j]);
    assert MayFind(m, trace[j]) && AwaitsRecovery(m);
    AcceptedMatchesExactly(m);
    hide Accepted, Allowed, Pinned;
  }

  /**
   Lenient matching does not drift while the observed record names a serial and every bootloader from the
   command on shows one: whatever is planned, found or written carries the serial of that command.
   */
  lemma DescribedBootloadersNeverDrift(file: File, trace: seq<Event>, i: nat, j: nat)
    requires Accepted(Boot(file), trace) && i < j < |trace| && trace[i].Ran? && Unattended(trace[..j + 1], i)
    requires RecordNamesSerial(file, trace[..i]) && DescribedFrom(trace[..j + 1], i)
             && AutomaticallyAccepted(trace[j]).Some?
    ensures AutomaticallyAccepted(trace[j]).value.serial == trace[i].target.serial
  {
    hide Accepted, Allowed, Pinned, Described, Compatible, Boot, Step, RecordIn;
    AcceptedPrefix(Boot(file), trace, j);
    WindowBefore(trace, i, j);
    assert trace[..j][..i] == trace[..i];
    assert trace[i].target.serial.Some? by { DescribedShows(trace[i].target); }
    hide RecordNamesSerial, DescribedFrom, Unattended, After;
    SerialPinnedSince(file, trace[..j], i);
    PinnedAccepts(After(Boot(file), trace[..j]), trace[j], trace[i].target.serial);
  }

  lemma DescribedShows(t: Target)
    ensures Described(t) ==> t.serial.Some?
  {
  }

  lemma WindowBefore(trace: seq<Event>, i: nat, j: nat)
    requires i < j < |trace| && Unattended(trace[..j + 1], i) && DescribedFrom(trace[..j + 1], i)
    ensures trace[..j][i] == trace[i] && Unattended(trace[..j], i) && DescribedFrom(trace[..j], i)
    ensures trace[i].Ran? ==> Described(trace[i].target)
    ensures !(trace[j].Planned? && trace[j].plan.ManualRecovery?)
    ensures var t := AutomaticallyAccepted(trace[j]); t.Some? ==> Described(t.value)
  {
    var window := trace[..j + 1];
    assert forall k :: 0 <= k < j ==> trace[..j][k] == window[k];
    assert window[j] == trace[j] && window[i] == trace[i];
    assert trace[i].Ran? ==> AutomaticallyAccepted(window[i]) == Some(trace[i].target);
  }
}
