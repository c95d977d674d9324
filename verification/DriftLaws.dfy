/**
 When the serial of an erased bootloader can be lost: the exact conditions, over every continuation of an
 accepted trace in which the device gives no version and the operator confirms nothing.
 */
module DriftLaws {
  import opened Common
  import opened DeviceState
  import opened UsbTopology
  import opened Planner
  import opened Protocol
  import opened TraceLaws
  import opened DescriptorLaws

  predicate Attends(e: Event) { e.Replied? || (e.Planned? && e.plan.ManualRecovery?) }

  /** More events, in this run or in later ones, without a version and without consent. */
  ghost predicate Continues(file: File, trace: seq<Event>, more: seq<Event>)
  {
    Accepted(Boot(file), trace + more) && forall k :: 0 <= k < |more| ==> !Attends(more[k])
  }

  /** Each bootloader these events accept may be the one with this serial. */
  ghost predicate Keeps(more: seq<Event>, serial: Option<string>)
  {
    forall k :: 0 <= k < |more| ==> Fits(more[k], serial)
  }

  predicate Fits(e: Event, serial: Option<string>)
  {
    var t := AutomaticallyAccepted(e);
    t.Some? ==> Compatible(serial, t.value.serial)
  }

  /** Later runs can recover from this file. */
  predicate Resumable(file: File) { Load(file).Some? && Load(file).value.configured.Some? }

  /** The bootloader that was accepted showed no serial, and there are commands left to send. */
  predicate Loose(m: Monitor, command: Command) { !command.Start? && m.boot.Some? && m.boot.value.serial.None? }

  // ---------------------------------------------------------------- where the serial stays

  /** No bootloader but one like the accepted one can be taken any more. */
  ghost predicate Confined(m: Monitor, serial: Option<string>)
  {
    && m.verified.None? && m.spoke.None? && !Resumable(m.file)
    && (m.plan.Some? && !m.plan.value.Application? ==> m.boot.Some?)
    && (m.b01 ==> m.boot.Some?)
    && (m.boot.Some? ==> m.ran != [] && (m.ran == [Erase, FlashImage, Start] || m.boot.value.serial == serial))
  }

  lemma PlansNeedTheRecord(m: Monitor, e: Event)
    requires e.Planned? && MayPlan(m, e) && e.plan.Recovery?
    ensures Resumable(m.file)
  {
    RecoveryIsBound(e.views, e.known, m.setup.device, m.setup.Window(), m.setup.consent);
  }

  lemma ConfinedStep(m: Monitor, e: Event, serial: Option<string>)
    requires Confined(m, serial) && serial.Some? && Allowed(m, e) && !Attends(e)
    ensures Confined(Step(m, e), serial) && Fits(e, serial)
  {
    hide MayPlan, EndpointOf, BootloaderFor, BootloaderTargets, MayBind, MayMatch, MayLocate, Resumable,
      ObservedFor, PendingFor, VerifiedFor;
    if e.Planned? && e.plan.Recovery? {
      PlansNeedTheRecord(m, e);
    }
  }

  lemma {:induction false} StaysConfined(file: File, trace: seq<Event>, more: seq<Event>, serial: Option<string>)
    requires Continues(file, trace, more) && serial.Some? && Confined(After(Boot(file), trace), serial)
    ensures Confined(After(Boot(file), trace + more), serial) && Keeps(more, serial)
  {
    hide Step, Allowed, Confined, Attends, Fits;
    if more == [] {
      assert trace + more == trace;
    } else {
      var init, e := more[..|more| - 1], more[|more| - 1];
      assert trace + more == (trace + init) + [e];
      AcceptedLast(Boot(file), trace + init, e);
      assert forall k :: 0 <= k < |init| ==> init[k] == more[k];
      StaysConfined(file, trace, init, serial);
      ConfinedStep(After(Boot(file), trace + init), e, serial);
    }
  }

  lemma CommandConfines(m: Monitor, e: Event)
    requires e.Ran? && MayRun(m, e) && e.target.serial.Some? && !Resumable(m.file) && !Loose(m, e.command)
    ensures Confined(Step(m, e), e.target.serial)
  {
  }

  // ---------------------------------------------------------------- where it is lost

  /** Another serial, which a record can hold. */
  function Other(serial: string): string { if serial == "1" then "2" else "1" }

  lemma OtherIsDescribed(serial: string)
    ensures Other(serial) != serial && SafeText(Some(Other(serial)), 128) == Some(Other(serial))
  {
  }

  function Stick(topology: string, serial: Option<string>): Target
  {
    Target(topology, "03eb", "2ff4", 1, 1, serial)
  }

  /** A later run plans for a bootloader that shows `planned` and finds one that shows `found`. */
  function Resumed(record: KnownDevice, planned: Option<string>, found: Option<string>): seq<Event>
    requires record.configured.Some?
  {
    var b, f := Stick(record.topology, planned), Stick(record.topology, found);
    [Begin(Setup(record.configured.value, MIN_TIMEOUT, false, {}, None)), Revalidated,
     Planned(Recovery(record, b), Fixed(Alone(b), 0), Some(record)), KeptStopped, Found(f, Alone(f), false)]
  }

  lemma Resumes(file: File, trace: seq<Event>, planned: Option<string>, found: Option<string>)
    requires Accepted(Boot(file), trace) && Resumable(After(Boot(file), trace).file)
    requires var record := Load(After(Boot(file), trace).file).value;
             Compatible(record.serial, planned) && Compatible(planned, found)
    ensures Continues(file, trace, Resumed(Load(After(Boot(file), trace).file).value, planned, found))
  {
    hide Accepted, After, Allowed, Step, Boot, Load, Resumed, Compatible, Attends;
    var disk := After(Boot(file), trace).file;
    var record := Load(disk).value;
    var more := Resumed(record, planned, found);
    ResumedIsQuiet(record, planned, found);
    ResumesAfresh(disk, planned, found);
    RebootedRunContinues(Boot(file), trace, more);
  }

  lemma ResumedIsQuiet(record: KnownDevice, planned: Option<string>, found: Option<string>)
    requires record.configured.Some?
    ensures var more := Resumed(record, planned, found);
            |more| == 5 && more[0].Begin? && forall k :: 0 <= k < |more| ==> !Attends(more[k])
  {
  }

  lemma OneMore(boot: Monitor, before: seq<Event>, e: Event, m: Monitor)
    requires Accepted(boot, before) && After(boot, before) == m && Allowed(m, e)
    ensures Accepted(boot, before + [e]) && After(boot, before + [e]) == Step(m, e)
  {
    hide *;
    AcceptedLast(boot, before, e);
  }

  lemma ResumesAfresh(disk: File, planned: Option<string>, found: Option<string>)
    requires Resumable(disk) && Compatible(Load(disk).value.serial, planned) && Compatible(planned, found)
    ensures Accepted(Boot(disk), Resumed(Load(disk).value, planned, found))
  {
    var record := Load(disk).value;
    var more, m := Resumed(record, planned, found), Boot(disk);
    var begun := m.(setup := more[0].setup);
    var ready := begun.(checked := true, plan := Some(more[2].plan));
    RunBegins(m, record, planned, found);
    BootForgets(disk);
    assert Accepted(m, []);
    hide *;
    OneMore(m, [], more[0], m);
    OneMore(m, [] + [more[0]], more[1], begun);
    OneMore(m, [] + [more[0]] + [more[1]], more[2], begun.(checked := true));
    OneMore(m, [] + [more[0]] + [more[1]] + [more[2]], more[3], ready);
    OneMore(m, [] + [more[0]] + [more[1]] + [more[2]] + [more[3]], more[4], ready.(kept := true));
    assert |more| == 5;
    assert more == [] + [more[0]] + [more[1]] + [more[2]] + [more[3]] + [more[4]];
  }

  lemma RunBegins(m: Monitor, record: KnownDevice, planned: Option<string>, found: Option<string>)
    requires Load(m.file) == Some(record) && record.configured.Some? && m == Boot(m.file)
    requires Compatible(record.serial, planned) && Compatible(planned, found)
    ensures var more := Resumed(record, planned, found);
            var begun := m.(setup := more[0].setup);
            var checked := begun.(checked := true);
            var ready := checked.(plan := Some(more[2].plan));
            && Allowed(m, more[0]) && Step(m, more[0]) == begun
            && Allowed(begun, more[1]) && Step(begun, more[1]) == checked
            && Allowed(checked, more[2]) && Step(checked, more[2]) == ready
            && Allowed(ready, more[3]) && Step(ready, more[3]) == ready.(kept := true)
            && Allowed(ready.(kept := true), more[4])
  {
    hide Alone, BootloaderFor, PlanFor, Compatible;
    RecoveryIsPlanned(record, planned);
    RecoveryIsFound(m, record, planned, found);
  }

  lemma RecoveryIsFound(m: Monitor, record: KnownDevice, planned: Option<string>, found: Option<string>)
    requires record.configured.Some? && m == Boot(m.file) && Compatible(planned, found)
    ensures var more := Resumed(record, planned, found);
            Allowed(m.(setup := more[0].setup).(checked := true).(plan := Some(more[2].plan)).(kept := true), more[4])
  {
    hide Alone, BootloaderFor;
    AloneIsFound(Stick(record.topology, found));
  }

  lemma RecoveryIsPlanned(record: KnownDevice, planned: Option<string>)
    requires record.configured.Some? && Compatible(record.serial, planned)
    ensures var b := Stick(record.topology, planned);
            var setup := Setup(record.configured.value, MIN_TIMEOUT, false, {}, None);
            PlanFor(Fixed(Alone(b), 0), Some(record), setup.device, setup.Window(), None, false)
            == Ok(Recovery(record, b))
  {
    AloneIsFound(Stick(record.topology, planned));
  }

  function Following(command: Command): Command { if command.Erase? then FlashImage else Start }

  /** The command returns 0 and the next one goes to a bootloader that shows `found`. */
  function GoneOn(command: Command, topology: string, found: Option<string>): seq<Event>
  {
    var f := Stick(topology, found);
    [Exited(command), Ran(Following(command), f, Alone(f))]
  }

  lemma GoesOn(file: File, trace: seq<Event>, e: Event, found: Option<string>)
    requires Accepted(Boot(file), trace + [e]) && e.Ran? && Loose(After(Boot(file), trace), e.command)
    ensures Continues(file, trace + [e], GoneOn(e.command, After(Boot(file), trace).boot.value.topology, found))
  {
    hide Accepted, After, Allowed, Step, Boot, GoneOn, MayRun, Attends;
    var m := After(Boot(file), trace);
    var more := GoneOn(e.command, m.boot.value.topology, found);
    AcceptedLast(Boot(file), trace, e);
    RanIsAllowed(m, e);
    CommandGoesOn(m, e, found);
    OneMore(Boot(file), trace + [e], more[0], Step(m, e));
    OneMore(Boot(file), trace + [e] + [more[0]], more[1], Step(m, e).(clean := true));
    assert trace + [e] + more == trace + [e] + [more[0]] + [more[1]];
  }

  lemma CommandGoesOn(m: Monitor, e: Event, found: Option<string>)
    requires e.Ran? && MayRun(m, e) && Loose(m, e.command)
    ensures var more := GoneOn(e.command, m.boot.value.topology, found);
            && |more| == 2 && !Attends(more[0]) && !Attends(more[1])
            && Allowed(Step(m, e), more[0]) && Step(Step(m, e), more[0]) == Step(m, e).(clean := true)
            && Allowed(Step(m, e).(clean := true), more[1])
            && AutomaticallyAccepted(more[1]) == Some(Stick(m.boot.value.topology, found))
            && AutomaticallyAccepted(more[0]) == None
  {
    hide MayRun;
    NextIsAllowed(m, e, found);
  }

  lemma NextIsAllowed(m: Monitor, e: Event, found: Option<string>)
    requires e.Ran? && MayRun(m, e) && Loose(m, e.command)
    ensures m.ran == Before(e.command)
    ensures MayRun(Step(m, e).(clean := true), GoneOn(e.command, m.boot.value.topology, found)[1])
  {
    hide Alone, BootloaderFor, ObservedFor;
    AloneIsFound(Stick(m.boot.value.topology, found));
  }

  // ---------------------------------------------------------------- the exact conditions

  /**
   After a command to a bootloader that shows a serial, every later acceptance may be that bootloader exactly
   if no later run can recover from the file, and the run itself accepted a bootloader with a serial or has
   no command left. Where that fails, an accepted continuation takes another serial.
   */
  lemma DriftsExactly(file: File, trace: seq<Event>, e: Event)
    requires Accepted(Boot(file), trace + [e]) && e.Ran?
    ensures var m := After(Boot(file), trace);
            (forall more :: Continues(file, trace + [e], more) ==> Keeps(more, e.target.serial))
            <==> e.target.serial.None? || (!Resumable(DiskAfter(file, trace)) && !Loose(m, e.command))
  {
    if e.target.serial.None? {
      return;
    }
    var m, all, serial := After(Boot(file), trace), trace + [e], e.target.serial;
    AcceptedLast(Boot(file), trace, e);
    RanIsAllowed(m, e);
    FileIsLastSaved(file, trace);
    FileStep(m, e);
    var found := Some(Other(serial.value));
    OtherIsDescribed(serial.value);
    if Resumable(m.file) {
      Resumes(file, all, None, found);
      Displaces(Load(m.file).value, None, found, serial);
    } else if Loose(m, e.command) {
      GoesOn(file, trace, e, found);
      CommandGoesOn(m, e, found);
    } else {
      CommandConfines(m, e);
      forall more | Continues(file, all, more) ensures Keeps(more, serial) {
        StaysConfined(file, all, more, serial);
      }
    }
  }

  lemma Displaces(record: KnownDevice, planned: Option<string>, found: Option<string>, serial: Option<string>)
    requires record.configured.Some? && !Compatible(serial, found)
    ensures !Keeps(Resumed(record, planned, found), serial)
  {
    assert !Fits(Resumed(record, planned, found)[4], serial);
  }

  lemma GoneOnDisplaces(command: Command, topology: string, found: Option<string>, serial: Option<string>)
    requires !Compatible(serial, found) && SafeText(found, 128) == found
    ensures !Keeps(GoneOn(command, topology, found), serial) && DescribedFrom(GoneOn(command, topology, found), 0)
  {
    assert !Fits(GoneOn(command, topology, found)[1], serial);
  }

  lemma ResumedIsDescribed(record: KnownDevice, planned: Option<string>, found: Option<string>)
    requires record.configured.Some? && planned.Some? && SafeText(planned, 128) == planned
    requires found.Some? && SafeText(found, 128) == found
    ensures DescribedFrom(Resumed(record, planned, found), 0)
  {
  }

  /**
   Among continuations in which every bootloader shows a serial, the one of the command is kept exactly if
   the record written before it names a serial, or nothing can follow: no command is left in the run, and no
   later run can recover from the file.
   */
  lemma DescribedDriftsExactly(file: File, trace: seq<Event>, e: Event)
    requires Accepted(Boot(file), trace + [e]) && e.Ran? && Described(e.target)
    ensures (forall more :: Continues(file, trace + [e], more) && DescribedFrom(more, 0) ==>
               Keeps(more, e.target.serial))
            <==> RecordNamesSerial(file, trace) || (e.command.Start? && !Resumable(DiskAfter(file, trace)))
  {
    hide Accepted, After, Allowed, Step, Boot, Load, MayRun, Attends, Keeps, Continues, IsPrintable, Other, Resumed,
      GoneOn, RecordIn, DescribedFrom;
    var m, all, serial := After(Boot(file), trace), trace + [e], e.target.serial;
    AcceptedLast(Boot(file), trace, e);
    RanIsAllowed(m, e);
    FileIsLastSaved(file, trace);
    FileStep(m, e);
    var found := Some(Other(serial.value));
    OtherIsDescribed(serial.value);
    if RecordNamesSerial(file, trace) {
      forall more | Continues(file, all, more) && DescribedFrom(more, 0) ensures Keeps(more, serial) {
        NamedSerialIsKept(file, trace, e, more);
      }
    } else {
      UnnamedIsLoose(m, e);
      if Resumable(m.file) {
        Resumes(file, all, found, found);
        Displaces(Load(m.file).value, found, found, serial);
        ResumedIsDescribed(Load(m.file).value, found, found);
      } else if !e.command.Start? {
        GoesOn(file, trace, e, found);
        GoneOnDisplaces(e.command, m.boot.value.topology, found, serial);
      } else {
        DriftsExactly(file, trace, e);
      }
    }
  }

  /** Without a serial on record the accepted bootloader showed none, if the command went to one that did. */
  lemma UnnamedIsLoose(m: Monitor, e: Event)
    requires e.Ran? && MayRun(m, e) && Described(e.target)
    requires RecordIn(m.file).Some? ==> RecordIn(m.file).value.serial.None?
    ensures Loose(m, e.command) <==> !e.command.Start?
    ensures Resumable(m.file) ==> Load(m.file).value.serial.None?
  {
    LoadIsRecord(m.file);
  }

  lemma NamedSerialIsKept(file: File, trace: seq<Event>, e: Event, more: seq<Event>)
    requires Continues(file, trace + [e], more) && e.Ran? && Described(e.target)
    requires RecordNamesSerial(file, trace) && DescribedFrom(more, 0)
    ensures Keeps(more, e.target.serial)
  {
    hide Described, RecordNamesSerial, Accepted, DescribedFrom, Unattended;
    var all := trace + [e] + more;
    forall k | 0 <= k < |more| ensures Fits(more[k], e.target.serial) {
      var i, j := |trace|, |trace| + 1 + k;
      QuietWindow(trace, e, more, k);
      if AutomaticallyAccepted(more[k]).Some? {
        DescribedBootloadersNeverDrift(file, all, i, j);
      }
    }
  }

  lemma QuietWindow(trace: seq<Event>, e: Event, more: seq<Event>, k: nat)
    requires forall n :: 0 <= n < |more| ==> !Attends(more[n])
    requires e.Ran? && Described(e.target) && DescribedFrom(more, 0) && k < |more|
    ensures var all, j := trace + [e] + more, |trace| + 1 + k;
            && all[|trace|] == e && all[j] == more[k] && all[..|trace|] == trace
            && Unattended(all[..j + 1], |trace|) && DescribedFrom(all[..j + 1], |trace|)
  {
    hide Described;
    var all, j := trace + [e] + more, |trace| + 1 + k;
    assert all[..j + 1] == trace + [e] + more[..k + 1];
  }
}
