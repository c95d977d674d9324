/**
 The hardware protocol of cul868_flasher/app/flasher.py, as a monitor over event traces.

 A trace records every effect that outlives a Python statement: Supervisor requests, serial
 bytes, dfu-programmer calls, replacements of the state file, and the observations that justify them. `Begin` is a
 run taking the flash lock (startup, LED, diagnostics or flash) with its settings and, for a flash, the
 operator's consent; whatever came before it may have crashed.
 `Allowed` is the discipline each effect obeys. Flasher.dfy proves that the code emits accepted
 traces only; TraceLaws.dfy proves what every accepted trace, and so every crash, guarantees.
 */
module Protocol {
  import opened Common
  import opened DeviceState
  import opened UsbTopology
  import opened Planner
  import opened Consumers

  datatype Command = Erase | FlashImage | Start

  /** What a run may do: the add-on's options, and the recovery target the operator confirmed for it. */
  datatype Setup = Setup(device: Path, timeout: int, workaround: bool, additional: set<string>,
    consent: Option<Consent>)
  {
    function Window(): int { PostDfuTimeout(timeout) }
  }

  datatype Event =
    | Begin(setup: Setup)
    | Revalidated
    | Planned(plan: Plan, views: Views, known: Option<KnownDevice>)
    | Listed(entries: seq<ListedAddon>)
    | Matched(slugs: seq<string>)
    | StopRequested(slug: string)
    | Halted(slug: string, state: string)
    | Resuming
    | StartRequested(slug: string)
    | Restored(slug: string)
    | KeptStopped
    | Bound(tty: Path, first: Snapshot, second: Snapshot, third: Snapshot)
    | Opened(tty: Path)
    | Replied(tty: Path, version: string)
    | Closed
    | Saved(file: File, at: int)
    | SentB01(tty: Path)
    | SentLed(tty: Path)
    | Found(target: Target, view: Snapshot, moved: bool)
    | Located(target: Target, tty: Path, view: Snapshot, node: Snapshot, moved: bool)
    | Ran(command: Command, target: Target, view: Snapshot)
    | Exited(command: Command)
    | Done

  /** A TTY and the application it leads to, through the configured path and through its own node. */
  datatype Endpoint = Endpoint(tty: Path, configured: Target, direct: Target)

  /** A version and the application whose TTY gave it. */
  datatype Reading = Reading(version: string, target: Target)

  datatype Monitor = Monitor(
    file: File,                  // the state file; the only part a crash leaves
    wrote: bool,                 // this run replaced the file
    setup: Setup,
    checked: bool,               // the staged image is still the validated one
    plan: Option<Plan>,
    listed: Option<seq<ListedAddon>>,
    chosen: bool,                // the add-ons to pause are decided
    matched: set<string>,        // add-ons this run may pause
    halted: set<string>,         // add-ons seen stopped
    resuming: bool,              // consumers are being started again
    stopped: set<string>,        // add-ons whose stop request this run got accepted
    restored: seq<string>,       // add-ons this run saw started again, in that order
    kept: bool,                  // leave_stopped_after_error
    bound: Option<Endpoint>,     // where sessions may go; forgotten by pauses and by destructive commands
    sessions: nat,               // sessions opened since it was bound
    tty: Option<Path>,           // open serial session
    spoke: Option<string>,       // version read in that session
    verified: Option<Reading>,   // last version read with no B01 or DFU command since
    b01: bool,
    led: bool,
    boot: Option<Target>,        // bootloader accepted after the transition
    ran: seq<Command>,
    clean: bool,                 // the last DFU command returned 0
    done: bool)                  // the guarded body finished without an error

  const MIN_TIMEOUT := 15
  const MAX_TIMEOUT := 120

  function Boot(file: File): Monitor
  {
    Monitor(file, false, Setup("", MIN_TIMEOUT, false, {}, None), false, None, None, false, {}, {}, false, {}, [],
            false, None, 0, None, None, None, false, false, None, [], false, false)
  }

  /** Events since the last run began. */
  function Current(trace: seq<Event>): (c: seq<Event>)
    ensures |c| <= |trace|
  {
    if trace == [] then []
    else
      var last := trace[|trace| - 1];
      if last.Begin? then [] else Current(trace[..|trace| - 1]) + [last]
  }

  /** What the present run was started with. */
  function SetupOf(trace: seq<Event>): Setup
  {
    if trace == [] then Boot(Missing).setup
    else
      var last := trace[|trace| - 1];
      if last.Begin? then last.setup else SetupOf(trace[..|trace| - 1])
  }

  // ---------------------------------------------------------------- vocabulary

  /** `_same_application_identity`. */
  predicate SameIdentity(a: Target, b: Target)
  {
    a.topology == b.topology && a.vendor == b.vendor && a.product == b.product && a.serial == b.serial
  }

  predicate IsDestructive(e: Event) { e.SentB01? || e.Ran? }

  function RecordIn(file: File): Option<KnownDevice> { if file.Stored? then Read(file.document) else None }

  /** A record of `target` for the configured device, as far as text can be kept. */
  predicate RecordFor(r: KnownDevice, target: Target, device: Path)
  {
    && r.topology == target.topology && r.serial == SafeText(target.serial, 128)
    && r.configured == SafeDevicePath(Some(device))
  }

  /** The unversioned record a handoff of `target` leaves before B01. */
  predicate PendingFor(file: File, target: Target, device: Path)
  {
    var r := RecordIn(file);
    && r.Some? && r.value.binding == HandoffPending && r.value.version.None?
    && RecordFor(r.value, target, device)
  }

  /** The unversioned record that binds a DFU bootloader before it is erased. */
  predicate ObservedFor(file: File, bootloader: Target, device: Path)
  {
    var r := RecordIn(file);
    && r.Some? && r.value.binding == ObservedBootloader && r.value.version.None?
    && RecordFor(r.value, bootloader, device)
  }

  /** The versioned record of the application that gave `reading`. */
  predicate VerifiedFor(r: KnownDevice, reading: Reading, device: Path)
  {
    r.version == SafeText(Some(reading.version), 512) && RecordFor(r, reading.target, device)
  }

  function PlannedSerial(plan: Plan): Option<string>
  {
    match plan
    case Application(t, _) => t.serial
    case Recovery(_, b) => b.serial
    case ManualRecovery(_, b) => b.serial
  }

  function Before(command: Command): seq<Command>
  {
    match command
    case Erase => []
    case FlashImage => [Erase]
    case Start => [Erase, FlashImage]
  }

  /** The application that both the configured path and the node of its TTY lead to. */
  function EndpointOf(device: Path, e: Event): Option<Endpoint>
    requires e.Bound?
  {
    match ConfiguredApplication(e.first, device)
    case Err => None
    case Ok(configured) =>
      match ConfiguredApplication(e.third, e.tty)
      case Err => None
      case Ok(direct) =>
        if TtyFor(e.second, configured.topology) == Ok(Some(e.tty)) && SameIdentity(configured, direct)
        then Some(Endpoint(e.tty, configured, direct)) else None
  }

  /** The endpoint an event settles on, if it does. */
  function EndpointIn(device: Path, e: Event): Option<Endpoint>
  {
    if e.Bound? then EndpointOf(device, e)
    else if e.Located? then Some(Endpoint(e.tty, e.target, e.target)) else None
  }

  // ---------------------------------------------------------------- the discipline

  /**
   No byte that may have changed the device is in doubt: B01 was answered by a bootloader, no LED
   command went out.
   */
  predicate NothingAmbiguous(m: Monitor) { !m.led && (m.b01 ==> m.boot.Some?) }

  /** Every consumer that uses the radio was seen stopped and none is being started again. */
  predicate ConsumersAway(m: Monitor) { m.chosen && m.matched <= m.halted && !m.resuming }

  predicate MayTalk(m: Monitor) { NothingAmbiguous(m) && ConsumersAway(m) }

  predicate MayBind(m: Monitor, e: Event)
    requires e.Bound?
  {
    EndpointOf(m.setup.device, e).Some? && NothingAmbiguous(m) && Untouched(m) && m.tty.None?
  }

  /** Sessions go to the endpoint settled on. */
  predicate LeadsTo(m: Monitor, tty: Path) { m.bound.Some? && m.bound.value.tty == tty }

  /** The application of the new firmware: where the bootloader was, or the only one, moved under the workaround. */
  predicate MayLocate(m: Monitor, e: Event)
    requires e.Located?
  {
    && m.boot.Some? && [Erase, FlashImage] <= m.ran && m.tty.None? && MayTalk(m)
    && IsApplication(e.target) && TtyFor(e.node, e.target.topology) == Ok(Some(e.tty))
    && (if e.moved then m.setup.workaround && ApplicationTargets(e.view) == Ok([e.target])
        else ApplicationFor(e.view, m.boot.value.topology) == Ok(Some(e.target)))
  }

  /** Exactly the running consumers of the listing are matched. */
  ghost predicate MayMatch(m: Monitor, e: Event)
    requires e.Matched?
  {
    && !m.chosen && m.listed.Some?
    && forall s :: s in e.slugs <==> Selected(m.listed.value, |m.listed.value|, m.setup.additional, s)
  }

  predicate MaySave(m: Monitor, e: Event)
    requires e.Saved?
  {
    && RecordIn(e.file).Some?
    && var r := RecordIn(e.file).value;
    && r.configured == SafeDevicePath(Some(m.setup.device))
    && match r.binding
    case VerifiedApplication => m.verified.Some? && VerifiedFor(r, m.verified.value, m.setup.device)
    case HandoffPending =>
      && m.plan.Some? && m.plan.value.Application? && !m.b01 && m.spoke.Some?
      && PendingFor(e.file, m.plan.value.target, m.setup.device) && r.deadline == Some(e.at + m.setup.Window())
    case ObservedBootloader =>
      m.boot.Some? && m.ran == [] && ObservedFor(e.file, m.boot.value, m.setup.device)
    case LegacyUnknown => false
  }

  predicate MaySendB01(m: Monitor, e: Event)
    requires e.SentB01?
  {
    && m.plan.Some? && m.plan.value.Application? && !m.b01 && !m.done && MayTalk(m)
    && m.tty == Some(e.tty) && m.spoke.Some?
    && LeadsTo(m, e.tty) && m.sessions == 1
    && SameIdentity(m.plan.value.target, m.bound.value.configured)
    && SameIdentity(m.plan.value.target, m.bound.value.direct)
    && m.kept && m.wrote && PendingFor(m.file, m.plan.value.target, m.setup.device)
  }

  predicate MayFind(m: Monitor, e: Event)
    requires e.Found?
  {
    && m.plan.Some? && m.boot.None? && m.kept
    && (if m.plan.value.Application? then m.b01 else Compatible(PlannedSerial(m.plan.value), e.target.serial))
    && IsBootloader(e.target)
    && (if e.moved then m.setup.workaround && BootloaderTargets(e.view) == Ok([e.target])
        else BootloaderFor(e.view, m.plan.value.Topology()) == Ok(Some(e.target)))
  }

  predicate MayRun(m: Monitor, e: Event)
    requires e.Ran?
  {
    && m.boot.Some? && m.kept && !m.done
    && m.wrote && ObservedFor(m.file, m.boot.value, m.setup.device)
    && IsBootloader(e.target)
    && BootloaderFor(e.view, m.boot.value.topology) == Ok(Some(e.target))
    && Compatible(m.boot.value.serial, e.target.serial)
    && m.ran == Before(e.command) && (m.ran != [] ==> m.clean)
  }

  /** The planner's answer to these probes under this setup. */
  predicate PlannedBy(setup: Setup, e: Event)
    requires e.Planned?
  {
    PlanFor(e.views, e.known, setup.device, setup.Window(), setup.consent, false) == Ok(e.plan)
  }

  predicate MayPlan(m: Monitor, e: Event)
    requires e.Planned?
  {
    && m.checked && m.plan.None? && (e.known.None? || e.known == Load(m.file))
    && PlannedBy(m.setup, e)
  }

  predicate Untouched(m: Monitor) { !m.b01 && m.ran == [] }

  predicate MayRestart(m: Monitor, slug: string)
  {
    slug in m.stopped && (if m.done then m.verified.Some? else !m.kept && Untouched(m))
  }

  ghost predicate Allowed(m: Monitor, e: Event)
  {
    match e
    case Begin(setup) => MIN_TIMEOUT <= setup.timeout <= MAX_TIMEOUT
    case Revalidated => true
    case Planned(_, _, _) => MayPlan(m, e)
    case Listed(_) => !m.chosen
    case Matched(_) => MayMatch(m, e)
    case StopRequested(slug) => slug in m.matched && Untouched(m) && !m.kept && !m.done && !m.resuming
    case Halted(slug, state) => slug in m.stopped && Reached(Some(state), "stopped")
    case Resuming => m.tty.None?
    case StartRequested(slug) => MayRestart(m, slug) && m.resuming
    case Restored(slug) => MayRestart(m, slug) && m.resuming
    case KeptStopped => m.plan.Some? && !m.done
    case Bound(_, _, _, _) => MayBind(m, e)
    case Opened(tty) => MayTalk(m) && LeadsTo(m, tty)
    case Replied(tty, _) => m.tty == Some(tty) && MayTalk(m) && LeadsTo(m, tty)
    case Closed => true
    case Saved(_, _) => MaySave(m, e)
    case SentB01(_) => MaySendB01(m, e)
    case SentLed(tty) => MayTalk(m) && m.tty == Some(tty) && m.spoke.Some? && LeadsTo(m, tty) && Untouched(m)
    case Found(_, _, _) => MayFind(m, e)
    case Located(_, _, _, _, _) => MayLocate(m, e)
    case Ran(_, _, _) => MayRun(m, e)
    case Exited(command) => m.ran == Before(command) + [command]
    case Done => m.verified.Some? && !m.done
  }

  /** A version counts for the application its session leads to. */
  function ReadingOf(m: Monitor, version: string): Option<Reading>
  {
    if m.bound.Some? then Some(Reading(version, m.bound.value.direct)) else None
  }

  function Step(m: Monitor, e: Event): Monitor
  {
    match e
    case Begin(setup) => Boot(m.file).(setup := setup)
    case Revalidated => m.(checked := true)
    case Planned(plan, _, _) => m.(plan := Some(plan))
    case Listed(entries) => m.(listed := Some(entries))
    case Matched(slugs) => m.(chosen := true, matched := (set slug | slug in slugs), bound := None)
    case StopRequested(slug) => m.(stopped := m.stopped + {slug}, bound := None)
    case Halted(slug, _) => m.(halted := m.halted + {slug}, bound := None)
    case Resuming => m.(resuming := true)
    case StartRequested(_) => m
    case Restored(slug) => m.(restored := m.restored + [slug])
    case KeptStopped => m.(kept := true)
    case Bound(_, _, _, _) => m.(bound := EndpointOf(m.setup.device, e), sessions := 0)
    case Opened(tty) => m.(tty := Some(tty), spoke := None, sessions := m.sessions + 1)
    case Replied(_, version) =>
      m.(spoke := Some(version), verified := ReadingOf(m, version))
    case Closed => m.(tty := None, spoke := None)
    case Saved(file, _) => m.(file := file, wrote := true)
    case SentB01(_) => m.(b01 := true, spoke := None, verified := None, bound := None)
    case SentLed(_) => m.(led := true)
    case Found(target, _, _) => m.(boot := Some(target))
    case Located(target, tty, _, _, _) => m.(bound := Some(Endpoint(tty, target, target)), sessions := 0)
    case Ran(command, _, _) =>
      m.(ran := m.ran + [command], clean := false, spoke := None, verified := None, bound := None)
    case Exited(_) => m.(clean := true)
    case Done => m.(done := true)
  }

  function After(m: Monitor, trace: seq<Event>): Monitor
  {
    if trace == [] then m else Step(After(m, trace[..|trace| - 1]), trace[|trace| - 1])
  }

  ghost predicate Accepted(m: Monitor, trace: seq<Event>)
  {
    trace == [] ||
    (Accepted(m, trace[..|trace| - 1]) && Allowed(After(m, trace[..|trace| - 1]), trace[|trace| - 1]))
  }

  lemma AcceptOne(m: Monitor, trace: seq<Event>, e: Event)
    requires Accepted(m, trace) && Allowed(After(m, trace), e)
    ensures Accepted(m, trace + [e]) && After(m, trace + [e]) == Step(After(m, trace), e)
  {
    assert (trace + [e])[..|trace|] == trace;
  }

  /** A crash leaves a prefix, and a prefix of an accepted trace is accepted. */
  lemma {:induction false} AcceptedPrefix(m: Monitor, trace: seq<Event>, n: nat)
    requires Accepted(m, trace) && n <= |trace|
    ensures Accepted(m, trace[..n])
    ensures n < |trace| ==> Allowed(After(m, trace[..n]), trace[n])
  {
    if n < |trace| {
      AcceptedPrefix(m, trace[..|trace| - 1], n);
      assert trace[..|trace| - 1][..n] == trace[..n];
    } else {
      assert trace[..n] == trace;
    }
  }

  lemma FileStep(m: Monitor, e: Event)
    ensures Step(m, e).file == if e.Saved? then e.file else m.file
  {
  }

  lemma BeginForgets(m: Monitor, e: Event)
    requires e.Begin?
    ensures Allowed(m, e) <==> Allowed(Boot(m.file), e)
    ensures Step(m, e) == Step(Boot(m.file), e)
  {
  }

  lemma AcceptedLast(m: Monitor, trace: seq<Event>, e: Event)
    ensures Accepted(m, trace + [e]) <==> Accepted(m, trace) && Allowed(After(m, trace), e)
    ensures After(m, trace + [e]) == Step(After(m, trace), e)
  {
    assert (trace + [e])[..|trace|] == trace;
  }

  /** Runs share only the state file: a run accepted from a reboot continues any crashed history. */
  lemma {:induction false} RebootedRunContinues(m: Monitor, history: seq<Event>, run: seq<Event>)
    requires Accepted(m, history) && run != [] && run[0].Begin?
    requires Accepted(Boot(After(m, history).file), run)
    ensures Accepted(m, history + run)
    ensures After(m, history + run) == After(Boot(After(m, history).file), run)
  {
    hide Step, Allowed, Boot;
    var init, e := run[..|run| - 1], run[|run| - 1];
    var boot := Boot(After(m, history).file);
    assert history + run == (history + init) + [e] && run == init + [e];
    AcceptedLast(m, history + init, e);
    AcceptedLast(boot, init, e);
    if init == [] {
      assert history + init == history;
      BeginForgets(After(m, history), e);
      BootForgets(After(m, history).file);
    } else {
      assert init[0] == run[0];
      RebootedRunContinues(m, history, init);
    }
  }

  lemma BootForgets(file: File)
    ensures After(Boot(file), []) == Boot(file) && Boot(file).file == file
  {
  }
}
