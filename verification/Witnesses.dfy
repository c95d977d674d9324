/**
 The methods of the flasher in concrete worlds, where two expectations about it fail: an unattended recovery
 ends on another device than it erased first, and a flash succeeds without ever attempting `start`.
 */
module Witnesses {
  import opened Common
  import opened DeviceState
  import opened UsbTopology
  import opened Planner
  import opened Protocol
  import opened TraceLaws
  import opened DescriptorLaws
  import DriftLaws
  import opened Environment
  import opened Freshness
  import opened Courses
  import opened Flasher
  import SerialIo

  const DEVICE: Path := "/dev/serial/cul"
  const PLACE := "1-1"
  const TTY: Path := "/dev/ttyACM0"
  const VERSION := "V 1.67 CUL868"
  const SETTINGS := Settings(DEVICE, 15, false, {}, false)

  function Dfu(serial: Option<string>): Target { Target(PLACE, "03eb", "2ff4", 1, 1, serial) }

  function Stick(serial: Option<string>): Target { Target(PLACE, "03eb", "204b", 1, 1, serial) }

  /** The record of an observed bootloader with this serial. */
  function Observed(serial: Option<string>): KnownDevice { ObservedRecord(Dfu(serial), DEVICE) }

  predicate Short(serial: Option<string>)
  {
    serial.Some? ==> serial.value != "" && |serial.value| <= 8 && IsPrintable(serial.value)
  }

  lemma PlaceIsValid()
    ensures ValidTopology(PLACE) && IsPrintable(DEVICE) && SafeDevicePath(Some(DEVICE)) == Some(DEVICE)
  {
    hide Parts;
    SmallTopology();
    PartsOfThree("dev", "serial", "cul");
    assert DEVICE == "/" + ("dev" + "/" + ("serial" + "/" + "cul"));
    DeviceIsAbsolute();
  }

  lemma DeviceIsAbsolute()
    ensures "/" <= DEVICE && !("//" <= DEVICE) && IsAscii(DEVICE) && |DEVICE| <= 512
    ensures ".." !in ["dev", "serial", "cul"]
  {
    assert DEVICE[1] == 'd';
    assert |"dev"| == 3;
  }

  lemma ObservedIsKept(serial: Option<string>)
    requires Short(serial)
    ensures Savable(Observed(serial)) && Normal(Observed(serial)) == Observed(serial)
    ensures Load(FileOf(Observed(serial))) == RecordIn(FileOf(Observed(serial))) == Some(Observed(serial))
  {
    ObservedIsNormal(serial);
    assert PLACE == "1-1";
    hide Normal, Savable, Observed, DocumentOf, Read, SizeOf;
    SaveThenRead(Observed(serial));
    PrintableRecordsFit(Observed(serial));
    LoadIsRecord(FileOf(Observed(serial)));
  }

  lemma ObservedIsNormal(serial: Option<string>)
    requires Short(serial)
    ensures Savable(Observed(serial)) && Normal(Observed(serial)) == Observed(serial)
    ensures var r := Observed(serial); |r.topology| <= 512 && r.configured.Some? && IsPrintable(r.configured.value)
  {
    PlaceIsValid();
    hide ValidTopology, SafeDevicePath;
  }

  // ---------------------------------------------------------------- a world

  /** The stick runs its firmware, alone and behind the configured path. */
  function Running(serial: Option<string>): Snapshot
  {
    var t := Stick(serial);
    Snapshot(Some([Entry(PLACE, PLACE, Some(t))]), Some([TtyEntry("ttyACM0", Some(t))]),
             map[DEVICE := "ttyACM0", TTY := "ttyACM0"])
  }

  lemma RunningIsFound(serial: Option<string>)
    ensures Appears(Running(serial), Stick(serial), TTY, Stick(serial), DEVICE)
    ensures Runs(Ending(Running(serial), Stick(serial), TTY), PLACE, false)
  {
    var t := Stick(serial);
    var entry, tty := Entry(PLACE, PLACE, Some(t)), TtyEntry("ttyACM0", Some(t));
    assert [entry][1..] == [] && [tty][1..] == [];
    assert AtTopology([entry], PLACE, "03eb", "204b") == [t];
    assert TtysAt([tty], PLACE) == ["ttyACM0"];
    assert TTY == "/dev/" + "ttyACM0";
  }

  /** Everything works at once, save for what USB shows, what the stick replies and how `start` ends. */
  function Working(usb: (nat, nat) -> Snapshot, reply: Option<string>, start: ToolAnswer): Oracle
  {
    Oracle(
      usb, _ => 0, _ => 0, _ => true, _ => Replaced, _ => true, _ => true, _ => true,
      _ => reply, _ => true, _ => true, (_, c) => if c == Start then start else Completed(0, true),
      _ => Some([]), (_, _) => true, (_, _, stopped) => Some(if stopped then "stopped" else "started"),
      _ => Some([]), _ => Some([]))
  }

  lemma WorkingHelps(usb: (nat, nat) -> Snapshot, reply: Option<string>, start: ToolAnswer)
    ensures Helpful(Working(usb, reply, start), 0)
    ensures reply == Some(VERSION) ==> Talkative(Working(usb, reply, start), 0)
    ensures reply.None? ==> Mute(Working(usb, reply, start), 0)
  {
    VersionIsSupported();
  }

  lemma VersionIsSupported()
    ensures SerialIo.SupportsCulLedControl(VERSION)
  {
    assert VERSION[7..13] == "CUL868";
    assert SerialIo.StartsAt(VERSION, 7, "CUL868");
  }

  lemma WorkingWrites(usb: (nat, nat) -> Snapshot, reply: Option<string>, b: Option<string>, script: Script)
    requires script.view == Alone(Dfu(b)) && script.erase == script.flash == Completed(0, true)
    requires forall t: nat, c: nat :: t >= PLANNING && script.first <= c < script.first + 3 ==> usb(t, c) == script.view
    ensures Cooperative(Working(usb, reply, script.start), PLANNING, Dfu(b), script)
  {
    hide Alone;
    AloneIsFound(Dfu(b));
  }

  // ---------------------------------------------------------------- one flash in such a world

  /** Nothing stands in the way of this course of the flasher with these settings. */
  ghost predicate Promising(world: World, aim: Aim)
    reads world
  {
    && world.Valid() && world.log == [] && world.commands == 0 && ConsentOf(aim).None?
    && Helpful(world.env, 0) && Writable(world.env, PLANNING, aim)
    && Begins(world.env, 0, 0, world.disk, DEVICE, false, PostDfuTimeout(SETTINGS.bootTimeout), aim)
  }

  method FlashOnce(world: World, ghost aim: Aim) returns (flasher: Cul868Flasher, outcome: Outcome)
    requires Promising(world, aim)
    modifies world
    ensures flasher.world == world && world.Valid() && world.mon.ran == AttemptedWith(aim.script.start)
    ensures old(world.trace) + [Begin(SETTINGS.With(None))] <= world.trace
    ensures Current(world.trace) == world.trace[|old(world.trace)| + 1..]
    ensures forall e :: e in Current(world.trace) && e.Planned? ==> !e.plan.ManualRecovery?
    ensures Ends(world.env, 0, false, aim) ==>
              outcome.Installed? && outcome.installation.application == aim.end.application
    ensures Mute(world.env, 0) ==> world.disk == FileOf(ObservedRecord(aim.b, DEVICE))
  {
    hide Helpful, Writable, Begins, World.Valid, AttemptedWith, Ends, Mute, FileOf, VerifiedOnDisk, Written, Current;
    flasher := new Cul868Flasher(SETTINGS, world);
    outcome := flasher.Flash(None, aim);
  }

  // ---------------------------------------------------------------- success without `start`

  /** The output file of `start` cannot be created; after the attempt the new firmware runs. */
  function Course(first: nat, serial: Option<string>): Aim
  {
    Aim(if first == 0 then Recovering(Alone(Dfu(serial)), Observed(serial), Dfu(serial))
        else Replacing(Running(serial), Stick(serial), TTY, Stick(serial)),
        Dfu(serial), Script(first, Alone(Dfu(serial)), Completed(0, true), Completed(0, true), OutputUnavailable),
        Ending(Running(serial), Stick(serial), TTY))
  }

  function Switching(first: nat, serial: Option<string>): (nat, nat) -> Snapshot
  {
    (_, c) => if first <= c < first + 3 then Alone(Dfu(serial)) else Running(serial)
  }

  function CourseWorld(first: nat, serial: Option<string>): Oracle
  {
    Working(Switching(first, serial), Some(VERSION), OutputUnavailable)
  }

  /** What is on record: the bootloader of an interrupted flash, or nothing. */
  function CourseFile(first: nat, serial: Option<string>): File
  {
    if first == 0 then FileOf(Observed(serial)) else Missing
  }

  lemma CourseIsWritable(first: nat, serial: Option<string>)
    ensures Helpful(CourseWorld(first, serial), 0)
    ensures Writable(CourseWorld(first, serial), PLANNING, Course(first, serial))
  {
    hide Helpful, Cooperative, Alone, Running, ValidTopology, Switching, Working, SafeDevicePath, IsPrintable;
    WorkingHelps(Switching(first, serial), Some(VERSION), OutputUnavailable);
    HelpfulAt(CourseWorld(first, serial), 0, PLANNING);
    SwitchingShows(first, serial);
    WorkingWrites(Switching(first, serial), Some(VERSION), serial, Course(first, serial).script);
    PlaceIsValid();
  }

  lemma SwitchingShows(first: nat, serial: Option<string>)
    ensures forall t: nat, c: nat :: Switching(first, serial)(t, c) ==
              if first <= c < first + 3 then Alone(Dfu(serial)) else Running(serial)
  {
    hide Alone, Running;
  }

  lemma CourseEnds(first: nat, serial: Option<string>)
    ensures Ends(CourseWorld(first, serial), 0, false, Course(first, serial))
  {
    hide Alone, Running, Talkative, Runs, Switching, ValidTopology, SafeDevicePath, IsPrintable;
    WorkingHelps(Switching(first, serial), Some(VERSION), OutputUnavailable);
    SwitchingShows(first, serial);
    RunningIsFound(serial);
    PlaceIsValid();
  }

  lemma WorkingShows(usb: (nat, nat) -> Snapshot, reply: Option<string>, start: ToolAnswer)
    ensures Working(usb, reply, start).usb == usb && forall t :: Working(usb, reply, start).delay(t) == 0
  {
  }

  lemma CourseBegins(first: nat, serial: Option<string>)
    requires first <= 1 && Short(serial)
    ensures Begins(CourseWorld(first, serial), 0, 0, CourseFile(first, serial), DEVICE, false,
                   PostDfuTimeout(SETTINGS.bootTimeout), Course(first, serial))
  {
    hide Alone, Running, Load, FileOf, ConfiguredApplication, BootloaderFor, Appears, Normal, Savable,
      Switching, Working, Handing, RecordIn, ValidTopology, SafeDevicePath, IsPrintable;
    WorkingShows(Switching(first, serial), Some(VERSION), OutputUnavailable);
    SwitchingShows(first, serial);
    AloneIsFound(Dfu(serial));
    PlaceIsValid();
    if first == 0 {
      ObservedIsKept(serial);
      NoApplication(Dfu(serial), DEVICE);
    } else {
      RunningIsFound(serial);
      CourseHands(first, serial);
    }
  }

  lemma CourseHands(first: nat, serial: Option<string>)
    ensures Handing(CourseWorld(first, serial), PLANNING, PostDfuTimeout(SETTINGS.bootTimeout))
  {
    hide Alone, Running, SerialIo.SupportsCulLedControl;
    VersionIsSupported();
  }

  lemma NoApplication(b: Target, device: Path)
    ensures ConfiguredApplication(Alone(b), device).Err?
  {
  }

  lemma NothingYet(boot: Monitor)
    ensures Accepted(boot, [])
  {
  }

  /** A whole flash, of a recorded bootloader or through `B01`, succeeds with erase and flash alone. */
  method SuccessWithoutStart(serial: Option<string>, throughB01: bool)
    returns (flasher: Cul868Flasher, outcome: Outcome)
    requires Short(serial)
    ensures flasher.world.Valid() && flasher.world.mon.ran == [Erase, FlashImage]
    ensures outcome.Installed? && outcome.installation.application == Stick(serial)
  {
    hide Promising, World.Valid, Accepted, After, Ends, Current, CourseWorld, CourseFile, Course, AttemptedWith, Short,
      Boot, FileOf;
    var first := if throughB01 then 1 else 0;
    var file := CourseFile(first, serial);
    BootForgets(file);
    NothingYet(Boot(file));
    var world := new World(CourseWorld(first, serial), file, file, []);
    CourseIsPromising(world, first, serial);
    flasher, outcome := FlashOnce(world, Course(first, serial));
  }

  lemma CourseIsPromising(world: World, first: nat, serial: Option<string>)
    requires first <= 1 && Short(serial) && world.Valid() && world.log == [] && world.commands == 0
    requires world.env == CourseWorld(first, serial) && world.disk == CourseFile(first, serial)
    ensures Promising(world, Course(first, serial)) && Ends(world.env, 0, false, Course(first, serial))
    ensures AttemptedWith(Course(first, serial).script.start) == [Erase, FlashImage]
    ensures Course(first, serial).end.application == Stick(serial)
  {
    hide Helpful, Writable, Begins, World.Valid, Ends, CourseWorld, CourseFile;
    CourseIsWritable(first, serial);
    CourseEnds(first, serial);
    CourseBegins(first, serial);
  }

  // ---------------------------------------------------------------- recoveries that drift

  /** A bootloader whose serial changes once a plan is made. */
  function Drifting(planned: Option<string>, found: Option<string>): (nat, nat) -> Snapshot
  {
    (n, _) => if n < PLANNING - 1 then Alone(Dfu(planned)) else Alone(Dfu(found))
  }

  /** Every command succeeds, and the device never gives a version. */
  function DriftWorld(planned: Option<string>, found: Option<string>): Oracle
  {
    Working(Drifting(planned, found), None, Completed(0, true))
  }

  function DriftCourse(known: Option<string>, planned: Option<string>, found: Option<string>): Aim
  {
    Aim(Recovering(Alone(Dfu(planned)), Observed(known), Dfu(planned)), Dfu(found),
        Script(0, Alone(Dfu(found)), Completed(0, true), Completed(0, true), Completed(0, true)),
        Ending(Running(found), Stick(found), TTY))
  }

  lemma DriftingShows(planned: Option<string>, found: Option<string>)
    ensures forall t: nat, c: nat :: Drifting(planned, found)(t, c) ==
              if t < PLANNING - 1 then Alone(Dfu(planned)) else Alone(Dfu(found))
  {
    hide Alone;
  }

  lemma DriftIsWritable(known: Option<string>, planned: Option<string>, found: Option<string>)
    ensures Helpful(DriftWorld(planned, found), 0) && Mute(DriftWorld(planned, found), 0)
    ensures Writable(DriftWorld(planned, found), PLANNING, DriftCourse(known, planned, found))
  {
    hide Helpful, Mute, Cooperative, Alone, Running, ValidTopology, Drifting, Working, SafeDevicePath, IsPrintable;
    WorkingHelps(Drifting(planned, found), None, Completed(0, true));
    HelpfulAt(DriftWorld(planned, found), 0, PLANNING);
    DriftingShows(planned, found);
    WorkingWrites(Drifting(planned, found), None, found, DriftCourse(known, planned, found).script);
    PlaceIsValid();
  }

  lemma DriftBegins(known: Option<string>, planned: Option<string>, found: Option<string>)
    requires Short(known) && Compatible(known, planned) && Compatible(planned, found)
    ensures Begins(DriftWorld(planned, found), 0, 0, FileOf(Observed(known)), DEVICE, false,
                   PostDfuTimeout(SETTINGS.bootTimeout), DriftCourse(known, planned, found))
  {
    hide Alone, Running, Load, FileOf, ConfiguredApplication, BootloaderFor, Normal, Savable, Drifting, Working,
      RecordIn, Compatible;
    WorkingShows(Drifting(planned, found), None, Completed(0, true));
    DriftingShows(planned, found);
    ObservedIsKept(known);
    AloneIsFound(Dfu(planned));
    AloneIsFound(Dfu(found));
    NoApplication(Dfu(planned), DEVICE);
  }

  lemma DriftIsPromising(world: World, known: Option<string>, planned: Option<string>, found: Option<string>)
    requires Short(known) && Compatible(known, planned) && Compatible(planned, found)
    requires world.Valid() && world.log == [] && world.commands == 0
    requires world.env == DriftWorld(planned, found) && world.disk == FileOf(Observed(known))
    ensures Promising(world, DriftCourse(known, planned, found)) && Mute(world.env, 0)
    ensures AttemptedWith(DriftCourse(known, planned, found).script.start) == [Erase, FlashImage, Start]
    ensures ObservedRecord(DriftCourse(known, planned, found).b, DEVICE) == Observed(found)
  {
    hide Helpful, Writable, Begins, World.Valid, DriftWorld, FileOf, Mute;
    DriftIsWritable(known, planned, found);
    DriftBegins(known, planned, found);
  }

  /** One flash of an observed bootloader; its record and its firmware go to the one that is found. */
  method FlashDrifting(world: World, ghost known: Option<string>, ghost planned: Option<string>,
                       ghost found: Option<string>)
    requires Short(known) && Compatible(known, planned) && Compatible(planned, found)
    requires world.Valid() && world.log == [] && world.commands == 0 && world.base == |world.trace|
    requires world.env == DriftWorld(planned, found) && world.disk == FileOf(Observed(known))
    modifies world
    ensures world.Valid() && old(world.trace) < world.trace && world.disk == FileOf(Observed(found))
    ensures exists j: nat :: |old(world.trace)| < j < |world.trace| && Erases(world.trace[j], found)
    ensures forall k :: |old(world.trace)| <= k < |world.trace| ==> !DriftLaws.Attends(world.trace[k])
  {
    hide Promising, World.Valid, Begins, Ends, Mute, AttemptedWith, DriftWorld, FileOf, DriftCourse, Observed,
      Short, Compatible, Current;
    DriftIsPromising(world, known, planned, found);
    var flasher, outcome := FlashOnce(world, DriftCourse(known, planned, found));
    ErasesTheFound(world, |old(world.trace)|, planned, found);
    NobodyAttends(world, |old(world.trace)|);
  }

  predicate Erases(e: Event, serial: Option<string>) { e.Ran? && e.command.Erase? && e.target.serial == serial }

  lemma NobodyAttends(world: World, past: nat)
    requires world.Valid() && Mute(world.env, 0) && world.base == past < |world.trace| && world.trace[past].Begin?
    requires Current(world.trace) == world.trace[past + 1..]
    requires forall e :: e in Current(world.trace) && e.Planned? ==> !e.plan.ManualRecovery?
    ensures forall k :: past <= k < |world.trace| ==> !DriftLaws.Attends(world.trace[k])
  {
    hide Accepted, After, Current, Fresh, Gives, CommandsIn;
    forall k | past <= k < |world.trace| ensures !DriftLaws.Attends(world.trace[k]) {
      var e := world.trace[k];
      if e.Replied? {
        NoReply(world.env, world.log, StampBefore(world.stamps, k), world.stamps[k], e);
      }
      if past < k {
        assert e == world.trace[past + 1..][k - past - 1];
      }
    }
  }

  lemma NoReply(env: Oracle, log: seq<Call>, since: nat, until: nat, e: Event)
    requires Genuine(env, log) && Mute(env, 0) && e.Replied?
    ensures !Fresh(log, since, until, e)
  {
  }

  lemma {:induction false} FirstCommand(c: seq<Event>) returns (k: nat)
    requires Commands(c) != []
    ensures k < |c| && c[k].Ran? && c[k].command == Commands(c)[0]
  {
    var init := c[..|c| - 1];
    if Commands(init) == [] {
      k := |init|;
    } else {
      k := FirstCommand(init);
    }
  }

  lemma ErasesTheFound(world: World, past: nat, planned: Option<string>, found: Option<string>)
    requires world.Valid() && world.env == DriftWorld(planned, found)
    requires world.base == past < |world.trace| && world.trace[past].Begin?
    requires Current(world.trace) == world.trace[past + 1..] && world.mon.ran == [Erase, FlashImage, Start]
    ensures exists j: nat :: past < j < |world.trace| && Erases(world.trace[j], found)
  {
    hide Accepted, After, Current, Fresh, Alone, DriftWorld, Genuine, Commands;
    MonitorReflects(world.origin, world.trace);
    var k := FirstCommand(Current(world.trace));
    var j := past + 1 + k;
    LooksLate(world.origin, world.log, world.base, world.trace, world.stamps, past, j);
    CommandIsJustified(world.origin, world.trace, j);
    ShowsFound(world.env, world.log, world.trace[j].view, planned, found);
    OnlyOneShows(world.trace[j].view, found);
    assert Erases(world.trace[j], found);
  }

  lemma ShowsFound(env: Oracle, log: seq<Call>, view: Snapshot, planned: Option<string>, found: Option<string>)
    requires env == DriftWorld(planned, found) && Genuine(env, log) && Saw(log, PLANNING - 1, |log|, view)
    ensures view == Alone(Dfu(found))
  {
    hide Alone, Drifting, CommandsIn;
    DriftingShows(planned, found);
    WorkingShows(Drifting(planned, found), None, Completed(0, true));
  }

  lemma OnlyOneShows(view: Snapshot, found: Option<string>)
    requires view == Alone(Dfu(found))
    ensures forall topology, t :: BootloaderFor(view, topology) == Ok(Some(t)) ==> t == Dfu(found)
  {
    assert view.usb.value[1..] == [];
  }

  /** A command is only sent to what a look after all probes of the plan showed. */
  lemma LooksLate(file: File, log: seq<Call>, base: nat, trace: seq<Event>, stamps: seq<nat>, past: nat, j: nat)
    requires Accepted(Boot(file), trace) && Witnessed(log, base, trace, stamps)
    requires base <= past < j < |trace| && trace[past].Begin? && trace[j].Ran?
    ensures Saw(log, PLANNING - 1, |log|, trace[j].view)
  {
    hide Accepted, Fresh, Current, Commands, Witnessed;
    CommandIsJustified(file, trace, j);
    var b :| RunJustified(file, trace[..j], trace[j], b);
    var k: nat :| FoundAt(Current(trace[..j]), k, b);
    var p := Position(trace, past, j, k);
    AcceptanceIsJustified(file, trace, p);
    var plan :| AcceptanceJustified(trace[..p], trace[p], plan);
    var l: nat :| PlannedAt(Current(trace[..p]), l, plan);
    var q := Position(trace, past, p, l);
    PlansFollowTheSetup(file, trace, q);
    var n :| 0 <= n < |Current(trace[..q])| && Current(trace[..q])[n].Revalidated?;
    var r := Position(trace, past, q, n);
    Passes(log, base, trace, stamps, r, q, 1);
    Passes(log, base, trace, stamps, q, p, 5);
    Passes(log, base, trace, stamps, p, j, 1);
    LaterLook(log, base, trace, stamps, j);
  }

  lemma LaterLook(log: seq<Call>, base: nat, trace: seq<Event>, stamps: seq<nat>, j: nat)
    requires Witnessed(log, base, trace, stamps) && base <= j < |trace| && trace[j].Ran?
    requires StampBefore(stamps, j) >= PLANNING - 1
    ensures Saw(log, PLANNING - 1, |log|, trace[j].view)
  {
    StampsAscend(log, base, trace, stamps, j, j);
    RanIsFresh(log, StampBefore(stamps, j), stamps[j], trace[j]);
  }

  /** How many calls an event rests on, at least. */
  function Rests(e: Event): nat
  {
    if e.Planned? then 5 else if e.Revalidated? || e.Found? then 1 else 0
  }

  lemma Passes(log: seq<Call>, base: nat, trace: seq<Event>, stamps: seq<nat>, k: nat, i: nat, calls: nat)
    requires Witnessed(log, base, trace, stamps) && base <= k < i < |trace| && calls == Rests(trace[k])
    ensures StampBefore(stamps, k) + calls <= StampBefore(stamps, i)
  {
    StampsAscend(log, base, trace, stamps, k, i - 1);
    if trace[k].Planned? {
      SurveyedParts(log, StampBefore(stamps, k), stamps[k], trace[k].views);
    }
  }

  lemma {:induction false} RunStarts(trace: seq<Event>, past: nat, n: nat)
    requires past < n <= |trace| && trace[past].Begin?
    ensures |Current(trace[..n])| <= n - past - 1
  {
    assert trace[..n][..n - 1] == trace[..n - 1];
    if past < n - 1 {
      RunStarts(trace, past, n - 1);
    }
  }

  /** Where an event of the present run is. */
  lemma Position(trace: seq<Event>, past: nat, n: nat, k: nat) returns (p: nat)
    requires past < n <= |trace| && trace[past].Begin? && k < |Current(trace[..n])|
    ensures past < p < n && trace[p] == Current(trace[..n])[k]
  {
    RunStarts(trace, past, n);
    CurrentIsSuffix(trace[..n]);
    p := n - |Current(trace[..n])| + k;
  }

  /**
   Two flashes, with a restart of the process between them, neither with a version nor with consent: the
   first erases a bootloader with one serial, the second one with another.
   */
  method RecoveriesDrift(s: string, t: string) returns (world: World, ghost i: nat, ghost j: nat)
    requires Short(Some(s)) && Short(Some(t))
    ensures world.Valid() && i < j < |world.trace| && Unattended(world.trace, i)
    ensures Erases(world.trace[i], Some(s)) && Erases(world.trace[j], Some(t))
  {
    hide World.Valid, Short, Accepted, After, FileOf, Boot, DriftWorld, Erases, DriftLaws.Attends;
    var file := FileOf(Observed(Some(s)));
    BootForgets(file);
    NothingYet(Boot(file));
    var first := new World(DriftWorld(Some(s), Some(s)), file, file, []);
    FlashDrifting(first, Some(s), Some(s), Some(s));
    ghost var past := first.trace;
    i :| 0 < i < |past| && Erases(past[i], Some(s));
    DiskIsKept(first);
    world := new World(DriftWorld(None, Some(t)), first.disk, first.origin, past);
    FlashDrifting(world, Some(s), None, Some(t));
    j :| |past| < j < |world.trace| && Erases(world.trace[j], Some(t));
    StaysUnattended(past, world.trace, i);
  }

  lemma DiskIsKept(world: World)
    requires world.Valid()
    ensures Accepted(Boot(world.origin), world.trace) && world.disk == After(Boot(world.origin), world.trace).file
  {
  }

  lemma StaysUnattended(past: seq<Event>, trace: seq<Event>, i: nat)
    requires past <= trace
    requires forall k :: 0 <= k < |past| ==> !DriftLaws.Attends(past[k])
    requires forall k :: |past| <= k < |trace| ==> !DriftLaws.Attends(trace[k])
    ensures Unattended(trace, i)
  {
    assert forall k :: 0 <= k < |past| ==> trace[k] == past[k];
  }
}
