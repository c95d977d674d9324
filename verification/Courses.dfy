/**
 Worlds in which a flash meets no obstacle. What they promise is said of the oracle alone, so that the
 methods of the flasher can be shown to get through.
 */
module Courses {
  import opened Common
  import opened DeviceState
  import opened UsbTopology
  import opened Planner
  import opened Consumers
  import opened Protocol
  import opened Environment
  import SerialIo

  /** DfuTransferError is caught around `start`; every other error ends the transaction. */
  datatype DfuResult = Clean | TransferFailed | FlashFailed

  /** What each answer of the call, or of creating its output file, becomes. */
  function ResultOf(answer: ToolAnswer): DfuResult
  {
    match answer
    case OutputDirectoryMissing => FlashFailed
    case ToolMissing => FlashFailed
    case OutputUnavailable => TransferFailed
    case TimedOut => TransferFailed
    case Broken => TransferFailed
    case Completed(code, transcriptRead) => if code == 0 && transcriptRead then Clean else TransferFailed
  }

  /** A start whose outcome is in doubt, or known to be fine: only V decides then. */
  predicate Survived(start: ToolAnswer) { start != OutputDirectoryMissing && start != ToolMissing }

  /** Clean is only a call that returned 0 and left its transcript; FlashError only one without tool or directory. */
  lemma ResultOfExactly(answer: ToolAnswer)
    ensures ResultOf(answer).Clean? <==> answer == Completed(0, true)
    ensures ResultOf(answer).FlashFailed? <==> answer.OutputDirectoryMissing? || answer.ToolMissing?
    ensures ResultOf(answer).TransferFailed? <==>
              || answer.OutputUnavailable? || answer.TimedOut? || answer.Broken?
              || (answer.Completed? && (answer.code != 0 || !answer.transcriptRead))
  {
  }

  /** Until the last command sysfs shows the bootloader. */
  lemma CooperativeShows(env: Oracle, since: nat, commands: nat, b: Target, script: Script)
    requires Cooperative(env, since, b, script) && script.first <= commands < script.first + 3
    ensures Steady(env, since, commands, script.view) && BootloaderFor(script.view, b.topology) == Ok(Some(b))
    ensures env.report(since) && env.toolPresent(since)
    ensures forall command :: env.tool(since, command) == script.Answer(command)
  {
    hide BootloaderFor, Steady;
  }

  lemma SteadyLater(env: Oracle, since: nat, later: nat, commands: nat, view: Snapshot)
    requires Steady(env, since, commands, view) && since <= later
    ensures Steady(env, later, commands, view)
  {
  }

  // ---------------------------------------------------------------- worlds in which nothing fails

  /**
   Where a flash begins: a recorded bootloader, as planning sees it, the one the operator confirmed, or the
   application behind the configured path.
   */
  datatype Beginning =
    | Recovering(view: Snapshot, record: KnownDevice, seen: Target)
    | Confirming(view: Snapshot, consent: Consent, seen: Target)
    | Replacing(view: Snapshot, target: Target, tty: Path, direct: Target)

  /** What the new firmware shows. */
  datatype Ending = Ending(view: Snapshot, application: Target, tty: Path)

  /** A course a flash may take: its beginning, the bootloader, what dfu-programmer answers, its ending. */
  datatype Aim = Aim(begin: Beginning, b: Target, script: Script, end: Ending)

  /** From call `since` on everything around the device does what it is asked for, at once. */
  ghost predicate Helpful(env: Oracle, since: nat)
  {
    && Obedient(env, since)
    && forall t :: t >= since ==>
      && env.report(t) && env.toolPresent(t) && env.save(t).Replaced? && env.imageUnchanged(t)
      && env.stateReadable(t) && Listable(env.addons(t)) && env.delay(t) == 0
  }

  /** From call `since` on the device takes and answers whatever is sent to it. */
  ghost predicate Talkative(env: Oracle, since: nat)
  {
    forall t :: t >= since ==>
      && env.open(t) && env.written(t) && env.reply(t).Some? && SerialIo.SupportsCulLedControl(env.reply(t).value)
  }

  /** What a session asked for V at call `n` gives: the port opens and the answer names a firmware that is supported. */
  function ReplyAt(env: Oracle, n: nat): Option<string>
  {
    if !env.open(n) then None
    else
      var reply := env.reply(n + 1);
      if reply.Some? && SerialIo.SupportsCulLedControl(reply.value) then reply else None
  }

  /** How many calls such a session takes. */
  function CallsAt(env: Oracle, n: nat): nat { if env.open(n) then 2 else 1 }

  /** The first reply among so many attempts, a sleep between each two. */
  function ReplyWithin(env: Oracle, n: nat, attempts: nat): Option<string>
    decreases attempts
  {
    if attempts == 0 then None
    else if ReplyAt(env, n).Some? then ReplyAt(env, n)
    else ReplyWithin(env, n + CallsAt(env, n) + 1, attempts - 1)
  }

  /** The first reply is followed by the LED command; it counts if that was written. */
  function LedWithin(env: Oracle, n: nat, attempts: nat): Option<string>
    decreases attempts
  {
    if attempts == 0 then None
    else if ReplyAt(env, n).Some? then (if env.written(n + 2) then ReplyAt(env, n) else None)
    else LedWithin(env, n + CallsAt(env, n) + 1, attempts - 1)
  }

  lemma HelpfulAt(env: Oracle, since: nat, t: nat)
    requires Helpful(env, since) && since <= t
    ensures env.report(t) && env.toolPresent(t) && env.save(t).Replaced? && env.imageUnchanged(t)
    ensures env.stateReadable(t) && Listable(env.addons(t)) && env.delay(t) == 0
    ensures Helpful(env, t) && Obedient(env, t)
  {
    hide Listable;
    ObedientAt(env, since, t);
    hide Obedient;
  }

  lemma TalkativeAt(env: Oracle, since: nat, t: nat)
    requires Talkative(env, since) && since <= t
    ensures env.open(t) && env.written(t) && env.reply(t).Some? && SerialIo.SupportsCulLedControl(env.reply(t).value)
    ensures Talkative(env, t)
  {
  }

  /** Nothing stands in the way of writing the firmware. */
  ghost predicate Writable(env: Oracle, since: nat, aim: Aim)
  {
    && Helpful(env, since) && Cooperative(env, since, aim.b, aim.script) && ValidTopology(aim.b.topology)
    && aim.script.erase == Completed(0, true) && aim.script.flash == Completed(0, true)
    && Survived(aim.script.start)
  }

  lemma WritableLater(env: Oracle, since: nat, later: nat, aim: Aim)
    requires Writable(env, since, aim) && since <= later
    ensures Writable(env, later, aim) && Helpful(env, since) && Cooperative(env, later, aim.b, aim.script)
    ensures ValidTopology(aim.b.topology)
  {
    HelpfulAt(env, since, later);
    CooperativeLater(env, since, later, aim.b, aim.script);
    hide Helpful, Cooperative, ValidTopology, Survived;
  }

  /** The configured path leads to the application, and its TTY leads back to it. */
  predicate Appears(view: Snapshot, target: Target, tty: Path, direct: Target, device: Path)
  {
    && ConfiguredApplication(view, device) == Ok(target) && TtyFor(view, target.topology) == Ok(Some(tty))
    && ConfiguredApplication(view, tty) == Ok(direct) && SameIdentity(target, direct)
  }

  lemma TalkativeReplies(env: Oracle, n: nat, attempts: nat)
    requires attempts > 0
    ensures Talkative(env, n) ==> ReplyWithin(env, n, attempts).Some? && LedWithin(env, n, attempts).Some?
  {
    if Talkative(env, n) {
      TalkativeAt(env, n, n);
      TalkativeAt(env, n, n + 1);
      TalkativeAt(env, n, n + 2);
    }
  }

  /** From call `since` on the application is behind the configured path, answers, and nothing around it fails. */
  ghost predicate Serving(env: Oracle, since: nat, commands: nat, device: Path, begin: Beginning)
  {
    && begin.Replacing? && Helpful(env, since) && Talkative(env, since) && Steady(env, since, commands, begin.view)
    && Appears(begin.view, begin.target, begin.tty, begin.direct, device) && ValidTopology(begin.direct.topology)
  }

  lemma ServingAt(env: Oracle, since: nat, t: nat, commands: nat, device: Path, begin: Beginning)
    requires Serving(env, since, commands, device, begin) && since <= t
    ensures Serving(env, t, commands, device, begin) && Helpful(env, t) && Obedient(env, t) && Talkative(env, t)
    ensures Listable(env.addons(t)) && env.save(t).Replaced? && env.open(t) && env.written(t)
    ensures begin.Replacing? && Steady(env, t, commands, begin.view) && ValidTopology(begin.direct.topology)
    ensures Appears(begin.view, begin.target, begin.tty, begin.direct, device)
  {
    HelpfulAt(env, since, t);
    TalkativeAt(env, since, t);
    SteadyLater(env, since, t, commands, begin.view);
    hide Helpful, Talkative, Steady, Appears, ValidTopology, Obedient, Listable;
  }

  /** How many calls a flash has made when it has a plan; the last of them reads the clock. */
  const PLANNING := 8

  ghost predicate Shows(env: Oracle, since: nat, until: nat, stage: nat, view: Snapshot)
  {
    forall t :: since <= t < until ==> env.usb(t, stage) == view
  }

  /** A flash that starts at call `since`, after `stage` commands, finds its beginning. */
  ghost predicate Begins(env: Oracle, since: nat, stage: nat, file: File, device: Path, workaround: bool, window: int,
                         aim: Aim)
  {
    && Shows(env, since, since + PLANNING - 1, stage, aim.begin.view)
    && Going(env, since + PLANNING, stage, device, workaround, window, PlanOf(aim, file), aim)
    && (aim.begin.Recovering? ==>
          && Load(file) == Some(aim.begin.record) && aim.begin.record.configured == Some(device)
          && BootloaderFor(aim.begin.view, aim.begin.record.topology) == Ok(Some(aim.begin.seen))
          && Compatible(aim.begin.record.serial, aim.begin.seen.serial)
          && ConfiguredApplication(aim.begin.view, device).Err?)
    && (aim.begin.Confirming? ==>
          && ManualBootloader(aim.begin.view, aim.begin.consent) == Ok(aim.begin.seen)
          && ConfiguredApplication(aim.begin.view, device).Err?)
  }

  /** The bootloader is where it is expected, or with the workaround it moved and is the only one. */
  predicate Arrives(view: Snapshot, topology: string, workaround: bool, b: Target)
  {
    || BootloaderFor(view, topology) == Ok(Some(b))
    || (workaround && BootloaderFor(view, topology) == Ok(None) && BootloaderTargets(view) == Ok([b]))
  }

  /** The plan is under way after `stage` commands. */
  ghost predicate Going(env: Oracle, since: nat, stage: nat, device: Path, workaround: bool, window: int,
                        plan: Plan, aim: Aim)
  {
    match aim.begin
    case Recovering(_, record, seen) =>
      && plan == Recovery(record, seen) && stage == aim.script.first
      && Arrives(aim.script.view, record.topology, workaround, aim.b)
      && Compatible(seen.serial, aim.b.serial)
    case Confirming(_, consent, seen) =>
      && plan == ManualRecovery(consent, seen) && stage == aim.script.first
      && Arrives(aim.script.view, consent.topology, workaround, aim.b)
      && Compatible(seen.serial, aim.b.serial)
    case Replacing(view, target, tty, direct) =>
      && plan.Application? && plan.target == target && ValidTopology(target.topology)
      && Arrives(aim.script.view, target.topology, workaround, aim.b)
      && stage + 1 == aim.script.first && Steady(env, since, stage, view)
      && Appears(view, target, tty, direct, device) && Handing(env, since, window)
  }

  /** B01 gets through, with a deadline that can be stored. */
  ghost predicate Handing(env: Oracle, since: nat, window: int)
  {
    Talkative(env, since) && forall t :: t >= since ==> SafeDeadline(Some(env.unixTime(t) + window)).Some?
  }

  lemma HandingAt(env: Oracle, since: nat, t: nat, window: int)
    requires Handing(env, since, window) && since <= t
    ensures Handing(env, t, window) && Talkative(env, t) && SafeDeadline(Some(env.unixTime(t) + window)).Some?
  {
    TalkativeAt(env, since, t);
    hide Talkative, SafeDeadline;
  }

  lemma GoingLater(env: Oracle, since: nat, later: nat, stage: nat, device: Path, workaround: bool, window: int,
                        plan: Plan, aim: Aim)
    requires Going(env, since, stage, device, workaround, window, plan, aim) && since <= later
    ensures Going(env, later, stage, device, workaround, window, plan, aim)
  {
    hide Handing, Steady, Appears;
    if aim.begin.Replacing? {
      HandingAt(env, since, later, window);
      SteadyLater(env, since, later, stage, aim.begin.view);
    }
  }

  /** The new firmware shows where the bootloader was, and answers. */
  ghost predicate Ends(env: Oracle, since: nat, workaround: bool, aim: Aim)
  {
    && Talkative(env, since) && Steady(env, since, aim.script.first + 3, aim.end.view)
    && Runs(aim.end, aim.b.topology, workaround) && ValidTopology(aim.end.application.topology)
  }

  /** The application is where the bootloader was, or with the workaround it moved and is the only one. */
  predicate Runs(end: Ending, topology: string, workaround: bool)
  {
    var at, tty := ApplicationFor(end.view, topology), TtyFor(end.view, topology);
    || (at == Ok(Some(end.application)) && tty == Ok(Some(end.tty)))
    || (workaround && at.Ok? && tty.Ok? && (at.value.None? || tty.value.None?)
        && ApplicationTargets(end.view) == Ok([end.application])
        && TtyFor(end.view, end.application.topology) == Ok(Some(end.tty)))
  }

  lemma EndsLater(env: Oracle, since: nat, later: nat, workaround: bool, aim: Aim)
    requires Ends(env, since, workaround, aim) && since <= later
    ensures Ends(env, later, workaround, aim)
  {
    TalkativeAt(env, since, later);
    SteadyLater(env, since, later, aim.script.first + 3, aim.end.view);
    hide Talkative, Steady, Runs;
  }

  /** What the operator confirms for it. */
  function ConsentOf(aim: Aim): Option<Consent>
  {
    if aim.begin.Confirming? then Some(aim.begin.consent) else None
  }

  /** What the planner makes of such a beginning. */
  function PlanOf(aim: Aim, file: File): Plan
  {
    match aim.begin
    case Recovering(_, record, seen) => Recovery(record, seen)
    case Confirming(_, consent, seen) => ManualRecovery(consent, seen)
    case Replacing(_, target, _, _) => Application(target, Load(file))
  }

  lemma BeginningIsPlanned(env: Oracle, since: nat, stage: nat, file: File, device: Path, workaround: bool, window: int,
                           aim: Aim, now: int)
    requires Begins(env, since, stage, file, device, workaround, window, aim)
    ensures PlanFor(Fixed(aim.begin.view, now), Load(file), device, window, ConsentOf(aim), false)
            == Ok(PlanOf(aim, file))
  {
    hide ConfiguredApplication, BootloaderFor, ManualBootloader, Handing, Steady, TtyFor, SameIdentity, Shows;
  }

  /** From call `since` on the device never gives a version. */
  ghost predicate Mute(env: Oracle, since: nat) { forall t :: t >= since ==> env.reply(t).None? }

  lemma MuteAt(env: Oracle, since: nat, t: nat)
    requires Mute(env, since) && since <= t
    ensures env.reply(t).None? && Mute(env, t)
  {
  }
}
