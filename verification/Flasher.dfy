/**
 The flash transaction and its sibling runs, cul868_flasher/app/flasher.py.

 Exceptions are results: `None` or `false` stands for a raised exception, wherever it came from.
 Every method extends the accepted trace of the world, so Allowed holds for each effect it has.
 */
module Flasher {
  import opened Common
  import opened DeviceState
  import opened UsbTopology
  import opened Planner
  import opened Consumers
  import opened Protocol
  import opened Environment
  import opened Courses
  import opened Supervisor
  import SerialIo
  import opened Slugs
  import TraceLaws

  datatype Settings = Settings(device: Path, bootTimeout: int, workaround: bool, additional: set<string>,
    isSerialById: bool)
  {
    /** What a run with these settings may do. */
    function With(consent: Option<Consent>): Setup { Setup(device, bootTimeout, workaround, additional, consent) }
  }

  const VERSION_READ_ATTEMPTS := 3
  const POLL_MS := 250
  const SETTLE_MS := 8_000
  const ALIAS_WAIT_MS := 15_000
  const NOTHING: Snapshot := Snapshot(None, None, map[])

  /** A bootloader as one poll saw it. */
  datatype Sighting = Sighting(target: Target, view: Snapshot, moved: bool)

  /** A bootloader of the asked topology, or a lone moved one, with the asked serial. */
  predicate Sighted(s: Sighting, topology: string, expected: Option<string>, workaround: bool, allowChange: bool)
  {
    && IsBootloader(s.target) && (allowChange || Compatible(expected, s.target.serial))
    && (if s.moved then workaround && BootloaderTargets(s.view) == Ok([s.target])
        else BootloaderFor(s.view, topology) == Ok(Some(s.target)))
  }

  /** A device in the place of the expected one, or several, one of which might be it. */
  predicate Unfit(view: Snapshot, topology: string, expected: Option<string>, workaround: bool, allowChange: bool)
  {
    var at := BootloaderFor(view, topology);
    || (at.Ok? && at.value.Some? && !allowChange && !Compatible(expected, at.value.value.serial))
    || (workaround && SingleReenumerated(BootloaderTargets(view), expected, allowChange).Ambiguous?)
  }

  /** Its serial will do. */
  predicate Fitting(expected: Option<string>, allowChange: bool, t: Target)
  {
    allowChange || expected.None? || t.serial.None? || t.serial == expected
  }

  /** What one poll finds: at the topology in its first look, or moved and alone in the second one. */
  predicate Shown(first: Snapshot, second: Snapshot, topology: string, expected: Option<string>, workaround: bool,
                  allowChange: bool, s: Sighting)
  {
    && Fitting(expected, allowChange, s.target)
    && if s.moved then
         workaround && BootloaderFor(first, topology) == Ok(None) && s.view == second
         && BootloaderTargets(second) == Ok([s.target])
       else BootloaderFor(first, topology) == Ok(Some(s.target)) && s.view == first
  }

  lemma ArrivedIsShown(view: Snapshot, topology: string, expected: Option<string>, workaround: bool, allowChange: bool,
                       b: Target)
    requires Arrives(view, topology, workaround, b) && Fitting(expected, allowChange, b)
    ensures exists moved :: Shown(view, view, topology, expected, workaround, allowChange, Sighting(b, view, moved))
  {
    hide BootloaderFor, BootloaderTargets;
    var moved := BootloaderFor(view, topology) != Ok(Some(b));
    assert Shown(view, view, topology, expected, workaround, allowChange, Sighting(b, view, moved));
  }

  lemma OneIsShown(view: Snapshot, b: Target)
    requires BootloaderFor(view, b.topology) == Ok(Some(b))
    ensures Shown(view, view, b.topology, b.serial, false, false, Sighting(b, view, false))
  {
    hide BootloaderFor;
  }

  /** What a poll finds while nothing changes. */
  ghost function ShownIn(view: Snapshot, topology: string, expected: Option<string>, workaround: bool,
                         allowChange: bool): (r: Option<Sighting>)
    ensures forall s :: r == Some(s) <==> Shown(view, view, topology, expected, workaround, allowChange, s)
  {
    if exists s :: Shown(view, view, topology, expected, workaround, allowChange, s) then
      var s :| Shown(view, view, topology, expected, workaround, allowChange, s);
      Some(s)
    else None
  }

  /** A wait: when it starts, when it is over, and whether a poll may look twice. */
  datatype Pace = Pace(start: int, limit: int, twice: bool)
  {
    function Each(): nat { if twice then 2 else 1 }
  }

  /** The sleeps and looks of a wait that has come to `now`, between two polls. */
  predicate Paced(p: Pace, now: int, naps: seq<Nap>, looks: int)
  {
    && POLL_MS * |naps| <= now - p.start && POLL_MS * |naps| < p.limit - p.start + POLL_MS
    && looks <= p.Each() * |naps|
    && forall k :: 0 <= k < |naps| ==> naps[k].at + naps[k].ms < p.limit + POLL_MS
  }

  /** What they come to in the end. */
  predicate PacedTo(p: Pace, naps: seq<Nap>, looks: int, seconds: nat)
  {
    && |naps| <= 4 * seconds && looks <= p.Each() * 4 * seconds
    && forall k :: 0 <= k < |naps| ==> naps[k].at + naps[k].ms < p.limit + POLL_MS
  }

  lemma PacedOn(p: Pace, now: int, naps: seq<Nap>, looks: int)
    requires Paced(p, now, naps, looks) && now < p.limit
    ensures forall later, more: int :: later >= now + POLL_MS && more <= looks + p.Each() ==>
              Paced(p, later, naps + [Nap(now, POLL_MS)], more)
    ensures POLL_MS * (|naps| + 1) < p.limit - p.start + POLL_MS
    ensures forall k :: 0 <= k < |naps| ==> naps[k].at + naps[k].ms < p.limit + POLL_MS
    ensures looks <= p.Each() * |naps|
    ensures POLL_MS > 0 && p.Each() == if p.twice then 2 else 1
  {
  }

  lemma PacedStart(p: Pace)
    requires p.start <= p.limit
    ensures forall now: int :: now >= p.start ==> Paced(p, now, [], 0)
  {
  }

  lemma PacedOver(p: Pace, now: int, naps: seq<Nap>, looks: int, seconds: nat)
    requires Paced(p, now, naps, looks) && p.limit == p.start + 1000 * seconds
    ensures PacedTo(p, naps, looks, seconds)
  {
  }

  lemma PacedEnds(p: Pace, naps: seq<Nap>, looks: int, seconds: nat)
    requires POLL_MS * (|naps| + 1) < p.limit - p.start + POLL_MS && p.limit == p.start + 1000 * seconds
    requires looks <= p.Each() * (|naps| + 1)
    requires forall k :: 0 <= k < |naps| ==> naps[k].at + naps[k].ms < p.limit + POLL_MS
    ensures PacedTo(p, naps, looks, seconds)
  {
    assert |naps| + 1 <= 4 * seconds;
  }

  /** One poll finds no bootloader that could be meant. */
  predicate NothingShown(first: Snapshot, second: Snapshot, topology: string, workaround: bool)
  {
    var at := BootloaderFor(first, topology);
    at.Err? || (at == Ok(None) && (workaround ==> BootloaderTargets(second) == Ok([])))
  }

  /** The choice among moved devices: the only one listed, if its serial will do; only an empty list passes besides. */
  lemma SingleReenumeratedExactly(targets: Probe<seq<Target>>, expected: Option<string>, allowChange: bool)
    ensures var pick := SingleReenumerated(targets, expected, allowChange);
            && (forall t :: pick == Chosen(t) <==> targets == Ok([t]) && Fitting(expected, allowChange, t))
            && (pick == Nobody <==> targets == Ok([]))
  {
    if targets.Ok? && |targets.value| == 1 {
      assert targets.value == [targets.value[0]];
    }
  }

  /** Such a view was seen from `since` on. */
  ghost predicate SawUnfit(log: seq<Call>, since: nat, topology: string, expected: Option<string>,
                             workaround: bool, allowChange: bool)
  {
    exists view :: Saw(log, since, |log|, view) && Unfit(view, topology, expected, workaround, allowChange)
  }

  lemma Widened(log: seq<Call>, since: nat, sooner: nat, topology: string, expected: Option<string>,
                workaround: bool, allowChange: bool)
    requires sooner <= since
    ensures SawUnfit(log, since, topology, expected, workaround, allowChange) ==>
              SawUnfit(log, sooner, topology, expected, workaround, allowChange)
  {
    if SawUnfit(log, since, topology, expected, workaround, allowChange) {
      var view :| Saw(log, since, |log|, view) && Unfit(view, topology, expected, workaround, allowChange);
      hide Unfit;
      LoggedLater(log, log, since, sooner, Looked(view));
    }
  }

  /** From `since` on the applications could not be told apart, or not be listed. */
  ghost predicate SawSeveral(log: seq<Call>, since: nat)
  {
    exists view :: Saw(log, since, |log|, view) && SingleReenumerated(ApplicationTargets(view), None, true).Ambiguous?
  }

  lemma SeveralLater(log: seq<Call>, since: nat, sooner: nat)
    requires sooner <= since && SawSeveral(log, since)
    ensures SawSeveral(log, sooner)
  {
    var view :| Saw(log, since, |log|, view) && SingleReenumerated(ApplicationTargets(view), None, true).Ambiguous?;
    hide ApplicationTargets;
    LoggedLater(log, log, since, sooner, Looked(view));
  }

  /** Neither the clock nor a sleep looks at sysfs. */
  lemma TimePasses(env: Oracle, log: seq<Call>)
    ensures Looks(log + [Timed]) == Looks(log) && forall ms :: Looks(log + [Slept(ms)]) == Looks(log)
  {
    LogGrows(env, log, Timed);
    forall ms ensures Looks(log + [Slept(ms)]) == Looks(log) {
      LogGrows(env, log, Slept(ms));
    }
  }

  lemma LooksOnce(env: Oracle, log: seq<Call>)
    ensures forall view :: Looks(log + [Looked(view)]) == Looks(log) + 1
  {
    forall view ensures Looks(log + [Looked(view)]) == Looks(log) + 1 {
      LogGrows(env, log, Looked(view));
    }
  }

  lemma SteadyNow(env: Oracle, since: nat, commands: nat, view: Snapshot)
    requires Steady(env, since, commands, view)
    ensures env.delay(since + 1) == 0 && env.usb(since + 2, commands) == env.usb(since + 3, commands) == view
  {
  }

  /** What the last call saw was seen since `before`. */
  lemma JustSeen(before: seq<Call>, log: seq<Call>, view: Snapshot)
    requires |before| < |log| && log[|log| - 1] == Looked(view)
    ensures Saw(log, |before|, |log|, view)
  {
  }

  datatype Pick = Chosen(target: Target) | Nobody | Ambiguous

  lemma ThreeLooks(before: seq<Call>, since: nat, tty: Path, first: Snapshot, second: Snapshot, third: Snapshot)
    requires since <= |before|
    ensures var log := before + [Looked(first), Looked(second), Looked(third)];
            Fresh(log, since, |log|, Bound(tty, first, second, third))
  {
    var log, n := before + [Looked(first), Looked(second), Looked(third)], |before|;
    assert log[n] == Looked(first) && log[n + 1] == Looked(second) && log[n + 2] == Looked(third);
  }

  lemma JustRead(before: seq<Call>, since: nat, at: int, file: File)
    requires since <= |before|
    ensures var log := before + [Dated(at)];
            Logged(log, since, |log|, Dated(at)) && Fresh(log, since, |log|, Saved(file, at))
  {
    var log := before + [Dated(at)];
    assert log[|before|] == Dated(at);
  }

  /** The firmware was started, or nearly, and nothing else holds sessions back. */
  predicate Restarting(m: Monitor, topology: string)
  {
    && m.boot.Some? && m.boot.value.topology == topology && [Erase, FlashImage] <= m.ran
    && Idle(m) && MayTalk(m)
  }

  /** `application` gave `version` on `tty`, where this run found it. */
  predicate GaveVersion(m: Monitor, application: Target, tty: Path, version: string)
  {
    && IsApplication(application) && m.bound == Some(Endpoint(tty, application, application))
    && m.verified == Some(Reading(version, application))
  }

  /** Only sleeps of a second came on. */
  predicate Seconds(before: seq<Nap>, after: seq<Nap>)
  {
    before <= after && forall k :: |before| <= k < |after| ==> after[k].ms == 1000
  }

  /** A report between these calls raised. */
  ghost predicate ReportFails(env: Oracle, since: nat, until: nat)
  {
    exists t :: since <= t < until && !env.report(t)
  }

  /** Why there is no application: a report raised, the time is over, or there are several. */
  ghost predicate Excused(env: Oracle, log: seq<Call>, since: nat, isOver: bool, workaround: bool)
  {
    ReportFails(env, since, |log|) || isOver || (workaround && SawSeveral(log, since))
  }

  /** What came on to sleep was over by then. */
  predicate NapsBy(before: seq<Nap>, after: seq<Nap>, limit: int)
  {
    before <= after && forall k :: |before| <= k < |after| ==> after[k].at + after[k].ms <= limit
  }

  lemma NapsByNow(naps: seq<Nap>)
    ensures forall limit :: NapsBy(naps, naps, limit)
  {
  }

  /** From `since` on this TTY gave this version. */
  ghost predicate Heard(log: seq<Call>, since: nat, tty: Path, version: string)
  {
    Logged(log, since, |log|, GotReply(tty, Some(version)))
  }

  lemma JustHeard(before: seq<Call>, log: seq<Call>, since: nat, tty: Path, version: string)
    requires log == before + [GotReply(tty, Some(version))] && since <= |before|
    ensures Heard(log, since, tty, version)
  {
    JustAnswered(before, log, since, GotReply(tty, Some(version)));
  }

  lemma HeardLater(log: seq<Call>, longer: seq<Call>, since: nat, sooner: nat, tty: Path, version: string)
    requires Heard(log, since, tty, version) && log <= longer && sooner <= since
    ensures Heard(longer, sooner, tty, version)
  {
    LoggedLater(log, longer, since, sooner, GotReply(tty, Some(version)));
  }

  /** The same stick: place, identifiers and serial; bus and address may change. */
  predicate SameStick(a: Target, b: Target)
  {
    a == b.(bus := a.bus, address := a.address)
  }

  /** Three looks in a row lead from the configured path to this endpoint and back. */
  predicate LedThere(first: Snapshot, second: Snapshot, third: Snapshot, device: Path, expected: Option<Target>,
                     r: Endpoint)
  {
    && ConfiguredApplication(first, device) == Ok(r.configured)
    && TtyFor(second, r.configured.topology) == Ok(Some(r.tty))
    && ConfiguredApplication(third, r.tty) == Ok(r.direct) && SameStick(r.configured, r.direct)
    && (expected.Some? ==> SameStick(expected.value, r.configured))
  }

  lemma SticksAre()
    ensures forall a, b :: SameIdentity(a, b) <==> SameStick(a, b)
    ensures forall a, b, c :: SameStick(a, b) && SameStick(a, c) ==> SameStick(b, c)
    ensures forall a, b, c :: SameStick(a, b) && SameStick(b, c) ==> SameStick(a, c)
    ensures forall a :: SameStick(a, a)
  {
  }

  lemma LedThereIs(first: Snapshot, second: Snapshot, third: Snapshot, device: Path, expected: Option<Target>,
                   r: Endpoint)
    requires LedThere(first, second, third, device, expected, r)
    ensures EndpointOf(device, Bound(r.tty, first, second, third)) == Some(r)
    ensures expected.Some? ==> SameIdentity(expected.value, r.configured) && SameIdentity(expected.value, r.direct)
  {
    hide ConfiguredApplication, TtyFor;
  }

  /** The application at the topology, or the only one there is, and its TTY. */
  predicate Locates(e: Event, topology: string, workaround: bool)
  {
    && e.Located? && IsApplication(e.target) && TtyFor(e.node, e.target.topology) == Ok(Some(e.tty))
    && (if e.moved then workaround && ApplicationTargets(e.view) == Ok([e.target])
        else ApplicationFor(e.view, topology) == Ok(Some(e.target)))
  }

  lemma LocationIsAllowed(m: Monitor, e: Event, topology: string)
    requires Restarting(m, topology) && Locates(e, topology, m.setup.workaround)
    ensures MayLocate(m, Located(e.target, e.tty, e.view, e.node, e.moved))
    ensures IsApplication(e.target)
  {
    hide TtyFor, ApplicationFor, ApplicationTargets;
  }

  lemma SawLately(start: seq<Call>, k: nat, calls: seq<Call>)
    requires k < |calls| && calls[k].Looked?
    ensures Saw(start + calls, |start|, |start| + |calls|, calls[k].view)
  {
    assert (start + calls)[|start| + k] == calls[k];
  }

  lemma OnlyOne(targets: Probe<seq<Target>>)
    ensures targets.Ok? && |targets.value| == 1 ==> targets == Ok([targets.value[0]])
  {
    assert targets.Ok? && |targets.value| == 1 ==> targets.value == [targets.value[0]];
  }

  datatype Discovery = Present(target: Target, tty: Path) | Absent | Mismatch

  /** Nothing usable at the topology, so that the workaround looks elsewhere. */
  predicate Elsewhere(first: Snapshot, second: Snapshot, topology: string, workaround: bool)
  {
    var at, tty := ApplicationFor(first, topology), TtyFor(second, topology);
    workaround && at.Ok? && tty.Ok? && (at.value.None? || tty.value.None?)
  }

  /** Which application and TTY four looks in a row lead to. */
  predicate Discovered(first: Snapshot, second: Snapshot, third: Snapshot, fourth: Snapshot, topology: string,
                       workaround: bool, t: Target, tty: Path)
  {
    || (ApplicationFor(first, topology) == Ok(Some(t)) && TtyFor(second, topology) == Ok(Some(tty)))
    || (Elsewhere(first, second, topology, workaround) && ApplicationTargets(third) == Ok([t])
        && TtyFor(fourth, t.topology) == Ok(Some(tty)))
  }

  /** Several applications, or none that could be listed. */
  predicate Confusing(third: Snapshot)
  {
    var targets := ApplicationTargets(third);
    targets.Err? || |targets.value| > 1
  }

  /** The calls of a firmware write that got as far as `start`. */
  function Programming(start: ToolAnswer): seq<Probed>
  {
    [ToolCall(Erase, Completed(0, true)), ToolCall(FlashImage, Completed(0, true)), ToolCall(Start, start)]
  }

  /** All three commands, unless the output file of `start` could not be created: then it was not attempted. */
  function AttemptedWith(start: ToolAnswer): seq<Command>
  {
    if start.OutputUnavailable? then [Erase, FlashImage] else [Erase, FlashImage, Start]
  }

  /** Alias questions of either source, none answered with an alias. */
  predicate Unanswered(asked: seq<Probed>)
  {
    forall p :: p in asked ==> p.AliasCall? && (p.aliases.None? || p.aliases.value == [])
  }

  predicate SourceFailed(asked: seq<Probed>, host: bool) { AliasCall(host, None) in asked }

  predicate BothFailed(asked: seq<Probed>) { SourceFailed(asked, false) && SourceFailed(asked, true) }

  /** `aliases` is the first answer that has any; empty if none has. */
  predicate AliasesFound(asked: seq<Probed>, aliases: seq<Path>)
  {
    if aliases == [] then Unanswered(asked)
    else
      && asked != [] && Unanswered(asked[..|asked| - 1])
      && asked[|asked| - 1].AliasCall? && asked[|asked| - 1].aliases == Some(aliases)
  }

  /** From `before` to `after` a firmware write ended with `start`, then only aliases were asked for. */
  ghost predicate Written(before: seq<Probed>, after: seq<Probed>, ran: seq<Command>, start: ToolAnswer,
                          isSerialById: bool, device: Path, migrated: bool)
  {
    && Survived(start) && ran == AttemptedWith(start)
    && exists asked :: Moved(asked, isSerialById, device, migrated) && after == before + Programming(start) + asked
  }

  lemma NothingAsked()
    ensures Unanswered([]) && !SourceFailed([], false) && !SourceFailed([], true)
  {
  }

  lemma SilentMeans(asked: seq<Probed>)
    ensures AliasesFound(asked, []) <==> Unanswered(asked)
    ensures BothFailed(asked) <==> SourceFailed(asked, false) && SourceFailed(asked, true)
  {
  }

  lemma AskedOnce(asked: seq<Probed>, host: bool, answer: Option<seq<Path>>)
    requires Unanswered(asked)
    ensures var all := asked + [AliasCall(host, answer)];
            && (answer.None? || answer.value == [] ==> Unanswered(all))
            && (answer.Some? && answer.value != [] ==> AliasesFound(all, answer.value))
            && (forall source :: SourceFailed(all, source) <==>
                  SourceFailed(asked, source) || (source == host && answer.None?))
  {
    var all := asked + [AliasCall(host, answer)];
    assert all[..|asked|] == asked;
  }

  /** The configured serial-by-id path is not among the aliases found. */
  ghost predicate Moved(asked: seq<Probed>, isSerialById: bool, device: Path, migrated: bool)
  {
    if isSerialById then exists aliases :: AliasesFound(asked, aliases) && (migrated <==> device !in aliases)
    else asked == [] && !migrated
  }

  /** The runs that leave the firmware alone. */
  datatype Errand = Verify | SetLed | Diagnose

  /** What the guarded body of a flash found; `migrated` is whether serial paths need the operator. */
  datatype Installation = Installation(version: string, application: Target, migrated: bool)

  datatype Outcome =
    | Installed(installation: Installation, paused: seq<Slug>, retained: seq<Slug>)
    | Failed(unrestored: seq<Slug>)

  /** `_single_reenumerated_target`: exactly one candidate, with a matching serial unless a change is allowed. */
  function SingleReenumerated(targets: Probe<seq<Target>>, expected: Option<string>, allowChange: bool): Pick
  {
    match targets
    case Err => Ambiguous
    case Ok(ts) =>
      if ts == [] then Nobody
      else if |ts| != 1 then Ambiguous
      else if !allowChange && !Compatible(expected, ts[0].serial) then Ambiguous
      else Chosen(ts[0])
  }

  // ---------------------------------------------------------------- shapes of a run

  /** No serial session is open. */
  predicate Idle(m: Monitor) { m.tty.None? && m.spoke.None? }

  predicate SameConsumers(a: Monitor, b: Monitor)
  {
    && a.listed == b.listed && a.chosen == b.chosen && a.matched == b.matched && a.halted == b.halted
    && a.resuming == b.resuming
    && a.stopped == b.stopped && a.restored == b.restored && a.done == b.done && a.setup == b.setup
  }

  /** The consumers, the plan and what was sent are as they were. */
  predicate SameRest(a: Monitor, b: Monitor)
  {
    && SameConsumers(a, b) && a.checked == b.checked && a.plan == b.plan && a.kept == b.kept && a.b01 == b.b01
    && a.boot == b.boot
  }

  /** Nothing was saved or programmed either. */
  predicate SameDevice(a: Monitor, b: Monitor)
  {
    SameRest(a, b) && a.file == b.file && a.wrote == b.wrote && a.ran == b.ran && a.clean == b.clean
  }

  /** Only sessions were opened and closed. */
  predicate Talked(a: Monitor, b: Monitor) { SameDevice(a, b) && a.tty == b.tty && a.spoke == b.spoke }

  /** Nothing was sent but requests for V. */
  predicate Listened(a: Monitor, b: Monitor) { Talked(a, b) && a.led == b.led }

  /** Only DFU commands were given. */
  predicate Programmed(a: Monitor, b: Monitor)
  {
    && SameRest(a, b) && a.file == b.file && a.wrote == b.wrote && a.tty == b.tty && a.spoke == b.spoke
    && a.led == b.led
  }

  /** A planned run before anything irreversible. */
  predicate Poised(m: Monitor, plan: Plan)
  {
    && m.plan == Some(plan) && Untouched(m) && !m.kept && !m.done && m.boot.None? && Idle(m) && MayTalk(m)
    && (plan.Application? ==> IsApplication(plan.target))
  }

  /** Out of the application, or about to recover a bootloader: consumers stay stopped. */
  predicate Departed(m: Monitor, plan: Plan)
  {
    && m.plan == Some(plan) && m.kept && !m.done && m.boot.None? && m.ran == [] && Idle(m) && ConsumersAway(m) && !m.led
    && (plan.Application? ==> m.b01)
  }

  /** Ready to run `command` on the observed bootloader `b`. */
  predicate Armed(m: Monitor, b: Target, command: Command)
  {
    && m.boot == Some(b) && m.kept && !m.done && m.wrote && ObservedFor(m.file, b, m.setup.device)
    && m.ran == Before(command) && (m.ran != [] ==> m.clean) && Idle(m) && MayTalk(m)
  }

  /** Each command that returned 0 leaves the run ready for the next. */
  lemma ArmedNext(m: Monitor, b: Target)
    requires Armed(m, b, Erase)
    ensures var erased := AfterCommand(m, Erase, true);
            && Armed(erased, b, FlashImage) && Armed(AfterCommand(erased, FlashImage, true), b, Start)
            && AfterCommand(erased, FlashImage, true).ran == [Erase, FlashImage]
            && AfterCommand(erased, FlashImage, true) ==
               m.(ran := [Erase, FlashImage], clean := true, verified := None, bound := None)
  {
  }

  lemma RunIsAllowed(m: Monitor, b: Target, command: Command, seen: Sighting)
    requires Armed(m, b, command) && Sighted(seen, b.topology, b.serial, false, false)
    ensures MayRun(m, Ran(command, seen.target, seen.view))
  {
    hide ObservedFor, BootloaderFor;
  }

  function ObservedRecord(b: Target, device: Path): KnownDevice
  {
    KnownDevice(b.topology, b.serial, None, Some(device), ObservedBootloader, None)
  }

  lemma ObservedParts(b: Target, device: Path)
    ensures ObservedRecord(b, device) == KnownDevice(b.topology, b.serial, None, Some(device), ObservedBootloader, None)
  {
  }

  lemma BeforeIsShort(command: Command)
    ensures |Before(command)| < 3
  {
  }

  lemma ScriptAnswers(script: Script)
    ensures script.Answer(Erase) == script.erase && script.Answer(FlashImage) == script.flash
            && script.Answer(Start) == script.start
    ensures Survived(script.start) <==> script.start != OutputDirectoryMissing && script.start != ToolMissing
    ensures |Before(Erase)| == 0 && |Before(FlashImage)| == 1 && |Before(Start)| == 2
  {
  }

  lemma ProgrammedOn(a: Monitor, b: Monitor, c: Monitor)
    requires Programmed(a, b) && Programmed(b, c)
    ensures Programmed(a, c)
  {
  }

  lemma ProgrammingParts(start: ToolAnswer)
    ensures Programming(start) ==
            [ToolCall(Erase, Completed(0, true)), ToolCall(FlashImage, Completed(0, true))] + [ToolCall(Start, start)]
    ensures AttemptedWith(start) == [Erase, FlashImage] + if start.OutputUnavailable? then [] else [Start]
  {
  }

  lemma PlanIsAllowed(m: Monitor, v: Views, known: Option<KnownDevice>)
    requires m.checked && m.plan.None? && (known.None? || known == Load(m.file))
    ensures var r := PlanFor(v, known, m.setup.device, m.setup.Window(), m.setup.consent, false);
            r.Ok? ==>
              && MayPlan(m, Planned(r.value, v, known)) && PlannedBy(m.setup, Planned(r.value, v, known))
              && (r.value.Application? ==> IsApplication(r.value.target))
  {
  }

  /** Closing the session of a run that was idle before it restores everything but the version. */
  lemma ClosedAgain(m: Monitor)
    requires Idle(m)
    ensures m.(tty := None, spoke := None) == m
  {
  }

  lemma ChosenIsAlone(view: Snapshot, expected: Option<string>, allowChange: bool)
    ensures var pick := SingleReenumerated(BootloaderTargets(view), expected, allowChange);
            pick.Chosen? ==> BootloaderTargets(view) == Ok([pick.target]) && IsBootloader(pick.target)
                             && (allowChange || Compatible(expected, pick.target.serial))
  {
    ListedHaveIdentity(view, "03eb", "2ff4");
    var targets := BootloaderTargets(view);
    assert targets.Ok? && |targets.value| == 1 ==> targets.value == [targets.value[0]];
  }

  lemma PendingIsAllowed(m: Monitor, record: KnownDevice, target: Target, at: int)
    requires m.plan.Some? && m.plan.value.Application? && m.plan.value.target == target && !m.b01 && m.spoke.Some?
    requires record.topology == target.topology && record.serial == target.serial && record.version.None?
    requires record.configured == Some(m.setup.device)
    requires record.binding == HandoffPending && record.deadline == Some(at + m.setup.Window())
    ensures Savable(record) ==>
              && MaySave(m, Saved(FileOf(record), at)) && PendingFor(FileOf(record), target, m.setup.device)
              && RecordIn(FileOf(record)).value.deadline == record.deadline
  {
    if Savable(record) {
      SaveThenRead(record);
    }
  }

  lemma ObservedIsAllowed(m: Monitor, record: KnownDevice, b: Target)
    requires m.boot == Some(b) && m.ran == [] && record.configured == Some(m.setup.device)
    requires record.topology == b.topology && record.serial == b.serial && record.version.None?
    requires record.binding == ObservedBootloader
    ensures Savable(record) ==>
              && MaySave(m, Saved(FileOf(record), 0)) && ObservedFor(FileOf(record), b, m.setup.device)
              && Timeless(FileOf(record))
  {
    if Savable(record) {
      SaveThenRead(record);
    }
  }

  lemma VerifiedIsAllowed(m: Monitor, record: KnownDevice, application: Target, version: string)
    requires m.verified == Some(Reading(version, application)) && record.version == Some(version)
    requires record.configured == Some(m.setup.device)
    requires record.topology == application.topology && record.serial == application.serial
    requires record.binding == VerifiedApplication
    ensures Savable(record) ==>
              && MaySave(m, Saved(FileOf(record), 0))
              && VerifiedOnDisk(FileOf(record), version, application, m.setup.device)
              && Timeless(FileOf(record))
  {
    if Savable(record) {
      SaveThenRead(record);
    }
  }

  lemma OnlyTopologyCounts(record: KnownDevice)
    requires record.binding != HandoffPending
    ensures Savable(record) <==> ValidTopology(record.topology)
  {
  }

  lemma DeadlineCounts(record: KnownDevice)
    requires record.binding == HandoffPending
    ensures Savable(record) <==> ValidTopology(record.topology) && SafeDeadline(record.deadline).Some?
  {
  }

  /** A record without a deadline rests on no clock reading. */
  ghost predicate Timeless(file: File) { forall log, since, until :: Fresh(log, since, until, Saved(file, 0)) }

  class Cul868Flasher {
    const settings: Settings
    const world: World
    const supervisor: SupervisorClient

    constructor (settings: Settings, world: World)
      ensures this.settings == settings && this.world == world && supervisor.world == world
    {
      this.settings, this.world := settings, world;
      supervisor := new SupervisorClient(world);
    }

    predicate Proper() { supervisor.world == world && MIN_TIMEOUT <= settings.bootTimeout <= MAX_TIMEOUT }

    /** The present run works with this flasher's settings. */
    predicate Configured(m: Monitor) { m.setup == settings.With(m.setup.consent) }

    function Window(): (w: int)
      ensures w >= 90 && w >= settings.bootTimeout
    {
      PostDfuTimeout(settings.bootTimeout)
    }

    // -------------------------------------------------------------- probes and waits

    /**
     `_wait_for_bootloader`: it gives up only at the end of its time, or on a device it must not take. While
     sysfs does not change, it finds the bootloader that is there, or the only one that moved.
     */
    method WaitForBootloader(topology: string, expected: Option<string>, seconds: nat, workaround: bool,
                             allowChange: bool, ghost steady: Snapshot)
      returns (r: Option<Sighting>)
      requires world.Valid()
      modifies world`log, world`clock, world`naps
      ensures world.Valid() && old(world.log) <= world.log
      ensures r.Some? ==> Sighted(r.value, topology, expected, workaround, allowChange)
      ensures r.Some? ==> Saw(world.log, |old(world.log)|, |world.log|, r.value.view)
      ensures r.None? ==>
                || world.clock >= old(world.NextReading()) + 1000 * seconds
                || SawUnfit(world.log, |old(world.log)|, topology, expected, workaround, allowChange)
      ensures old(world.naps) <= world.naps
      ensures var start := old(world.NextReading());
              PacedTo(Pace(start, start + 1000 * seconds, workaround), world.naps[|old(world.naps)|..],
                      Looks(world.log) - Looks(old(world.log)), seconds)
      ensures Steady(world.env, |old(world.log)|, world.commands, steady) && seconds > 0 ==>
                forall s :: Shown(steady, steady, topology, expected, workaround, allowChange, s) ==> r == Some(s)
    {
      hide World.Valid, Told, World.Traced, Witnessed, Accepted, After, Fresh, Logged, Sighted, Unfit, SawUnfit,
        Looks, Shown, NothingShown, ShownIn, Steady, Paced, PacedTo, Saw;
      TimePasses(world.env, world.log);
      if Steady(world.env, |world.log|, world.commands, steady) {
        SteadyNow(world.env, |world.log|, world.commands, steady);
      }
      var start := world.Monotonic();
      var limit := start + 1000 * seconds;
      TimePasses(world.env, world.log);
      var now := world.Monotonic();
      r := PollUntil(topology, expected, start, seconds, workaround, allowChange, |old(world.log)|);
    }

    /** Its polls, after `since`. */
    method PollUntil(topology: string, expected: Option<string>, start: int, seconds: nat, workaround: bool,
                     allowChange: bool, ghost since: nat)
      returns (r: Option<Sighting>)
      requires world.Valid() && world.clock >= start && since <= |world.log|
      modifies world`log, world`clock, world`naps
      ensures world.Valid() && old(world.log) <= world.log
      ensures r.Some? ==> Sighted(r.value, topology, expected, workaround, allowChange)
      ensures r.Some? ==> Saw(world.log, since, |world.log|, r.value.view)
      ensures r.None? ==>
                || world.clock >= start + 1000 * seconds
                || SawUnfit(world.log, since, topology, expected, workaround, allowChange)
      ensures old(world.naps) <= world.naps
      ensures PacedTo(Pace(start, start + 1000 * seconds, workaround), world.naps[|old(world.naps)|..],
                      Looks(world.log) - Looks(old(world.log)), seconds)
      ensures var first := world.env.usb(|old(world.log)|, world.commands);
              var shown := ShownIn(first, topology, expected, workaround, allowChange);
              && old(world.clock) < start + 1000 * seconds && shown.Some?
              && first == world.env.usb(|old(world.log)| + 1, world.commands) ==>
                r == shown
    {
      hide *;
      r := None;
      var limit := start + 1000 * seconds;
      var now := world.clock;
      ghost var pace := Pace(start, limit, workaround);
      ghost var first := world.env.usb(|world.log|, world.commands);
      PacedStart(pace);
      assert world.naps[|old(world.naps)|..] == [];
      while now < limit
        invariant world.Valid() && old(world.log) <= world.log && world.clock == now && r.None?
        invariant old(world.naps) <= world.naps
        invariant Paced(pace, now, world.naps[|old(world.naps)|..], Looks(world.log) - Looks(old(world.log)))
        invariant |world.log| == |old(world.log)| ==> now == old(world.clock)
        invariant |world.log| > |old(world.log)| && old(world.clock) < limit
                  && first == world.env.usb(|old(world.log)| + 1, world.commands) ==>
                    ShownIn(first, topology, expected, workaround, allowChange).None?
        decreases limit - now
      {
        var decided;
        ghost var naps := world.naps[|old(world.naps)|..];
        ghost var looks := Looks(world.log) - Looks(old(world.log));
        PacedOn(pace, now, naps, looks);
        decided, r := PollOrNap(topology, expected, workaround, allowChange, since);
        if decided {
          PacedEnds(pace, naps, Looks(world.log) - Looks(old(world.log)), seconds);
          return;
        }
        assert world.naps[|old(world.naps)|..] == naps + [Nap(now, POLL_MS)];
        now := world.clock;
      }
      PacedOver(pace, now, world.naps[|old(world.naps)|..], Looks(world.log) - Looks(old(world.log)), seconds);
    }

    /** One poll and, where it decides nothing, the sleep after it with the next clock reading. */
    method PollOrNap(topology: string, expected: Option<string>, workaround: bool, allowChange: bool,
                     ghost since: nat)
      returns (decided: bool, r: Option<Sighting>)
      requires world.Valid() && since <= |world.log|
      modifies world`log, world`clock, world`naps
      ensures world.Valid() && old(world.log) < world.log
      ensures Looks(world.log) <= Looks(old(world.log)) + (if workaround then 2 else 1)
      ensures r.Some? ==> decided && Saw(world.log, since, |world.log|, r.value.view)
      ensures r.Some? ==> Sighted(r.value, topology, expected, workaround, allowChange)
      ensures decided && r.None? ==> SawUnfit(world.log, since, topology, expected, workaround, allowChange)
      ensures if decided then world.naps == old(world.naps) && world.clock == old(world.clock)
              else world.naps == old(world.naps) + [Nap(old(world.clock), POLL_MS)]
                   && world.clock >= old(world.clock) + POLL_MS
      ensures var first := world.env.usb(|old(world.log)|, world.commands);
              var second := world.env.usb(|old(world.log)| + 1, world.commands);
              var shown := ShownIn(first, topology, expected, workaround, allowChange);
              first == second && shown.Some? ==> decided && r == shown
    {
      hide World.Valid, Told, World.Traced, Witnessed, Accepted, After, Fresh, Logged, Sighted, Unfit, SawUnfit,
        Looks, NothingShown;
      ghost var asked := world.log;
      decided, r := PollBootloader(topology, expected, workaround, allowChange);
      Widened(world.log, |asked|, since, topology, expected, workaround, allowChange);
      if r.Some? {
        LoggedLater(world.log, world.log, |asked|, since, Looked(r.value.view));
      }
      if !decided {
        TimePasses(world.env, world.log);
        world.Sleep(POLL_MS);
        TimePasses(world.env, world.log);
        var now := world.Monotonic();
      }
    }

    /** One poll: a bootloader, nothing yet (`!decided`), or an error. */
    method PollBootloader(topology: string, expected: Option<string>, workaround: bool, allowChange: bool)
      returns (decided: bool, r: Option<Sighting>)
      requires world.Valid()
      modifies world`log
      ensures world.Valid() && old(world.log) < world.log
      ensures Looks(world.log) <= Looks(old(world.log)) + (if workaround then 2 else 1)
      ensures r.Some? ==> decided && Saw(world.log, |old(world.log)|, |world.log|, r.value.view)
      ensures r.Some? ==> Sighted(r.value, topology, expected, workaround, allowChange)
      ensures decided && r.None? ==>
                SawUnfit(world.log, |old(world.log)|, topology, expected, workaround, allowChange)
      ensures var first := world.env.usb(|old(world.log)|, world.commands);
              var second := world.env.usb(|old(world.log)| + 1, world.commands);
              && (forall s :: r == Some(s) <==>
                    Shown(first, second, topology, expected, workaround, allowChange, s))
              && (!decided <==> NothingShown(first, second, topology, workaround))
    {
      hide World.Valid, Told, World.Traced, Witnessed, Accepted, After, Fresh, Logged, Looks;
      r := None;
      LooksOnce(world.env, world.log);
      var view := world.Snapshot();
      JustSeen(old(world.log), world.log, view);
      SingleAnswers(view, topology, "03eb", "2ff4");
      var at := BootloaderFor(view, topology);
      if at.Ok? && at.value.Some? {
        assert Unfit(view, topology, expected, workaround, allowChange)
               <==> !(allowChange || Compatible(expected, at.value.value.serial))
                    || (workaround && SingleReenumerated(BootloaderTargets(view), expected, allowChange).Ambiguous?);
        if allowChange || Compatible(expected, at.value.value.serial) {
          r := Some(Sighting(at.value.value, view, false));
        }
        return true, r;
      }
      decided := false;
      if at.Ok? && workaround {
        LooksOnce(world.env, world.log);
        view := world.Snapshot();
        JustSeen(old(world.log), world.log, view);
        ChosenIsAlone(view, expected, allowChange);
        SingleReenumeratedExactly(BootloaderTargets(view), expected, allowChange);
        var pick := SingleReenumerated(BootloaderTargets(view), expected, allowChange);
        if pick.Chosen? {
          r := Some(Sighting(pick.target, view, true));
        }
        decided := !pick.Nobody?;
      }
    }

    /** `_settle_after_usb_change`. */
    method Settle(percent: nat) returns (ok: bool)
      requires world.Valid() && percent <= 100
      modifies world`log, world`clock, world`naps
      ensures world.Valid() && old(world.log) <= world.log
      ensures !settings.workaround ==> ok && world.naps == old(world.naps)
      ensures !ok ==> world.naps == old(world.naps) && !world.env.report(|old(world.log)|)
                      && |world.log| == |old(world.log)| + 1
      ensures world.clock >= old(world.clock)
      ensures ok && settings.workaround ==> world.naps == old(world.naps) + [Nap(old(world.clock), 8_000)]
      ensures Helpful(world.env, |old(world.log)|) ==> ok
    {
      if Helpful(world.env, |world.log|) {
        HelpfulAt(world.env, |world.log|, |world.log|);
      }
      if !settings.workaround {
        return true;
      }
      ok := world.Report(percent);
      if ok {
        world.Sleep(SETTLE_MS);
      }
    }

    /** `_configured_application_endpoint`: alias, node and, if given, the expected target all agree. */
    method ConfiguredEndpoint(expected: Option<Target>, ghost begin: Beginning)
      returns (r: Option<Endpoint>, ghost e: Event)
      requires Proper() && world.Valid() && Configured(world.mon)
      requires NothingAmbiguous(world.mon) && Untouched(world.mon) && world.mon.tty.None?
      modifies world`log, world`trace, world`stamps, world`mon
      ensures world.Valid() && old(world.trace) <= world.trace && old(world.log) <= world.log
      ensures world.mon == if r.Some? then old(world.mon).(bound := r, sessions := 0) else old(world.mon)
      ensures r.Some? ==>
                && e.Bound? && e.tty == r.value.tty && EndpointOf(settings.device, e) == r
                && Added(old(world.trace), world.trace, e, world.log, |old(world.log)|)
      ensures r.Some? && expected.Some? ==>
                SameIdentity(expected.value, r.value.configured) && SameIdentity(expected.value, r.value.direct)
      ensures var first, second := world.env.usb(|old(world.log)|, world.commands),
                                   world.env.usb(|old(world.log)| + 1, world.commands);
              var third := world.env.usb(|old(world.log)| + 2, world.commands);
              forall endpoint :: r == Some(endpoint) <==>
                                 LedThere(first, second, third, settings.device, expected, endpoint)
      ensures begin.Replacing? && (expected.None? || expected == Some(begin.target))
              && Steady(world.env, |old(world.log)|, world.commands, begin.view)
              && Appears(begin.view, begin.target, begin.tty, begin.direct, settings.device) ==>
                r == Some(Endpoint(begin.tty, begin.target, begin.direct))
    {
      hide World.Valid, Told, World.Traced, Witnessed, Accepted, After, Fresh, Logged, ConfiguredApplication, TtyFor,
        Appears, Steady, SameStick;
      world.MarkIsPast();
      e := Done;
      ghost var first, second, third;
      r, first, second, third := LookThere(expected, begin);
      if r.Some? {
        var endpoint := r.value;
        ThreeLooks(old(world.log), world.Mark(), endpoint.tty, first, second, third);
        ThreeLooks(old(world.log), |old(world.log)|, endpoint.tty, first, second, third);
        LedThereIs(first, second, third, settings.device, expected, endpoint);
        e := Bound(endpoint.tty, first, second, third);
        world.EmitBound(endpoint.tty, first, second, third, endpoint);
      }
    }

    /** Its looks and comparisons. */
    method LookThere(expected: Option<Target>, ghost begin: Beginning)
      returns (r: Option<Endpoint>, ghost first: Snapshot, ghost second: Snapshot, ghost third: Snapshot)
      requires world.Valid()
      modifies world`log
      ensures world.Valid() && old(world.log) <= world.log
      ensures first == world.env.usb(|old(world.log)|, world.commands)
      ensures second == world.env.usb(|old(world.log)| + 1, world.commands)
      ensures third == world.env.usb(|old(world.log)| + 2, world.commands)
      ensures r.Some? ==> world.log == old(world.log) + [Looked(first), Looked(second), Looked(third)]
      ensures forall endpoint :: r == Some(endpoint) <==>
                                 LedThere(first, second, third, settings.device, expected, endpoint)
      ensures begin.Replacing? && (expected.None? || expected == Some(begin.target))
              && Steady(world.env, |old(world.log)|, world.commands, begin.view)
              && Appears(begin.view, begin.target, begin.tty, begin.direct, settings.device) ==>
                r == Some(Endpoint(begin.tty, begin.target, begin.direct))
    {
      hide World.Valid, ConfiguredApplication, TtyFor, SameIdentity, SameStick;
      r := None;
      first := world.env.usb(|world.log|, world.commands);
      second := world.env.usb(|world.log| + 1, world.commands);
      third := world.env.usb(|world.log| + 2, world.commands);
      SticksAre();
      var view := world.Snapshot();
      var configured := ConfiguredApplication(view, settings.device);
      if configured.Err? || (expected.Some? && !SameIdentity(expected.value, configured.value)) {
        return;
      }
      view := world.Snapshot();
      var tty := TtyFor(view, configured.value.topology);
      if tty.Err? || tty.value.None? {
        return;
      }
      view := world.Snapshot();
      var direct := ConfiguredApplication(view, tty.value.value);
      if direct.Err? || !SameIdentity(configured.value, direct.value) {
        return;
      }
      if expected.Some? && !SameIdentity(expected.value, direct.value) {
        return;
      }
      r := Some(Endpoint(tty.value.value, configured.value, direct.value));
    }

    /** `_read_version_once`: the version counts for the application the TTY leads to. */
    method ReadVersionOnce(tty: Path) returns (version: Option<string>)
      requires world.Valid() && Idle(world.mon) && MayTalk(world.mon) && LeadsTo(world.mon, tty)
      modifies world`log, world`trace, world`stamps, world`mon
      ensures world.Valid() && old(world.trace) <= world.trace && old(world.log) <= world.log
      ensures Listened(old(world.mon), world.mon)
      ensures world.mon.bound == old(world.mon).bound
      ensures world.mon.verified ==
              if version.Some? then ReadingOf(old(world.mon), version.value) else old(world.mon).verified
      ensures version.Some? ==> Heard(world.log, |old(world.log)|, tty, version.value)
      ensures version == ReplyAt(world.env, |old(world.log)|)
      ensures |world.log| == |old(world.log)| + CallsAt(world.env, |old(world.log)|)
      ensures Talkative(world.env, |old(world.log)|) ==> version.Some?
      ensures Mute(world.env, |old(world.log)|) ==> version.None?
    {
      hide World.Valid, Told, World.Traced, Witnessed, Accepted, After, Fresh, Logged, Heard;
      if Talkative(world.env, |world.log|) {
        TalkativeAt(world.env, |world.log|, |world.log|);
        TalkativeAt(world.env, |world.log|, |world.log| + 1);
      }
      if Mute(world.env, |world.log|) {
        MuteAt(world.env, |world.log|, |world.log| + 1);
      }
      version := None;
      ghost var since := |world.log|;
      var isOpen := world.Open(tty);
      if isOpen {
        ghost var before := world.log;
        version := AskVersion(tty);
        if version.Some? {
          JustHeard(before, world.log, since, tty, version.value);
        }
      }
    }

    /** V in an open session, which is closed after it. */
    method AskVersion(tty: Path) returns (version: Option<string>)
      requires world.Valid() && world.mon.tty == Some(tty) && MayTalk(world.mon) && LeadsTo(world.mon, tty)
      modifies world`log, world`trace, world`stamps, world`mon
      ensures world.Valid() && old(world.trace) <= world.trace
      ensures SameDevice(old(world.mon), world.mon) && Idle(world.mon) && world.mon.led == old(world.mon).led
      ensures world.mon.bound == old(world.mon).bound
      ensures world.mon.verified ==
              if version.Some? then ReadingOf(old(world.mon), version.value) else old(world.mon).verified
      ensures world.log == old(world.log) + [GotReply(tty, world.env.reply(|old(world.log)|))]
      ensures var reply := world.env.reply(|old(world.log)|);
              version == if reply.Some? && SerialIo.SupportsCulLedControl(reply.value) then reply else None
    {
      hide World.Valid, Told, World.Traced, Witnessed, Accepted, After, Fresh, Logged, SameDevice, Idle, ReadingOf;
      ghost var mon := world.mon;
      version := world.Version(tty);
      Asked(mon, version);
      world.Close();
    }

    /** A session that read V leaves everything else as it was. */
    lemma Asked(m: Monitor, version: Option<string>)
      ensures var read := if version.Some? then m.(spoke := version, verified := ReadingOf(m, version.value)) else m;
              var n := read.(tty := None, spoke := None);
              && SameDevice(m, n) && Idle(n) && n.led == m.led && n.bound == m.bound
              && n.verified == if version.Some? then ReadingOf(m, version.value) else m.verified
    {
    }

    /** `_read_version`. */
    method ReadVersion(tty: Path) returns (version: Option<string>)
      requires world.Valid() && Idle(world.mon) && MayTalk(world.mon) && LeadsTo(world.mon, tty)
      modifies world`log, world`trace, world`stamps, world`mon, world`clock, world`naps
      ensures world.Valid() && old(world.trace) <= world.trace && old(world.log) <= world.log
      ensures Listened(old(world.mon), world.mon)
      ensures world.mon.bound == old(world.mon).bound
      ensures version.Some? ==> world.mon.verified == ReadingOf(old(world.mon), version.value)
      ensures version == ReplyWithin(world.env, |old(world.log)|, 3)
      ensures Seconds(old(world.naps), world.naps)
      ensures Talkative(world.env, |old(world.log)|) ==> version.Some?
    {
      hide World.Valid, Told, World.Traced, Witnessed, Accepted, After, Fresh, Logged, Talkative, Mute, Heard, ReplyAt,
        CallsAt;
      version := None;
      TalkativeReplies(world.env, |world.log|, VERSION_READ_ATTEMPTS);
      for attempt := 1 to VERSION_READ_ATTEMPTS + 1
        invariant world.Valid() && old(world.trace) <= world.trace && old(world.log) <= world.log
        invariant Listened(old(world.mon), world.mon)
        invariant world.mon.bound == old(world.mon).bound && version.None?
        invariant Seconds(old(world.naps), world.naps)
        invariant attempt <= VERSION_READ_ATTEMPTS ==>
                    ReplyWithin(world.env, |world.log|, VERSION_READ_ATTEMPTS + 1 - attempt)
                    == ReplyWithin(world.env, |old(world.log)|, VERSION_READ_ATTEMPTS)
        invariant attempt > VERSION_READ_ATTEMPTS ==>
                    ReplyWithin(world.env, |old(world.log)|, VERSION_READ_ATTEMPTS).None?
      {
        version := ReadVersionOnce(tty);
        if version.Some? {
          return;
        }
        if attempt != VERSION_READ_ATTEMPTS {
          world.Sleep(1000);
        }
      }
    }

    /** `_find_application` as the post-DFU wait calls it: a changed serial is accepted here. */
    method FindApplication(topology: string, ghost end: Ending) returns (d: Discovery, ghost e: Event)
      requires world.Valid()
      modifies world`log
      ensures world.Valid() && old(world.log) <= world.log
      ensures d.Present? ==>
                && e.Located? && Locates(e, topology, settings.workaround) && e.target == d.target && e.tty == d.tty
                && Saw(world.log, |old(world.log)|, |world.log|, e.view)
                && Saw(world.log, |old(world.log)|, |world.log|, e.node)
      ensures d.Mismatch? ==> settings.workaround && SawSeveral(world.log, |old(world.log)|)
      ensures var first, second := world.env.usb(|old(world.log)|, world.commands),
                                   world.env.usb(|old(world.log)| + 1, world.commands);
              var third, fourth := world.env.usb(|old(world.log)| + 2, world.commands),
                                   world.env.usb(|old(world.log)| + 3, world.commands);
              && (forall t, tty :: d == Present(t, tty) <==>
                    Discovered(first, second, third, fourth, topology, settings.workaround, t, tty))
              && (d.Mismatch? <==> Elsewhere(first, second, topology, settings.workaround) && Confusing(third))
      ensures Steady(world.env, |old(world.log)|, world.commands, end.view)
              && Runs(end, topology, settings.workaround) ==>
                d == Present(end.application, end.tty)
    {
      hide World.Valid, Told, World.Traced, Witnessed, Accepted, After, Fresh, Logged, Single, TtyFor, Targets;
      d, e := Absent, Done;
      ghost var start := world.log;
      var s1 := world.Snapshot();
      SingleAnswers(s1, topology, "03eb", "204b");
      var application := ApplicationFor(s1, topology);
      if application.Err? {
        return;
      }
      var s2 := world.Snapshot();
      var tty := TtyFor(s2, topology);
      if tty.Err? {
        return;
      }
      if application.value.Some? && tty.value.Some? {
        SawLately(start, 0, [Looked(s1), Looked(s2)]);
        SawLately(start, 1, [Looked(s1), Looked(s2)]);
        assert world.log == start + [Looked(s1), Looked(s2)];
        return Present(application.value.value, tty.value.value),
               Located(application.value.value, tty.value.value, s1, s2, false);
      }
      if settings.workaround {
        d, e := FindMoved();
        if d.Present? {
          LoggedLater(world.log, world.log, |start| + 2, |start|, Looked(e.view));
          LoggedLater(world.log, world.log, |start| + 2, |start|, Looked(e.node));
        } else if d.Mismatch? {
          SeveralLater(world.log, |start| + 2, |start|);
        }
      }
    }

    /** The fallback of `_find_application`: the only application there is. */
    method FindMoved() returns (d: Discovery, ghost e: Event)
      requires world.Valid()
      modifies world`log
      ensures world.Valid() && old(world.log) <= world.log
      ensures d.Present? ==>
                && Locates(e, "", true) && e.moved && e.target == d.target && e.tty == d.tty
                && Saw(world.log, |old(world.log)|, |world.log|, e.view)
                && Saw(world.log, |old(world.log)|, |world.log|, e.node)
      ensures d.Mismatch? ==> SawSeveral(world.log, |old(world.log)|)
      ensures var third, fourth := world.env.usb(|old(world.log)|, world.commands),
                                   world.env.usb(|old(world.log)| + 1, world.commands);
              && (forall t, tty :: d == Present(t, tty) <==>
                    ApplicationTargets(third) == Ok([t]) && TtyFor(fourth, t.topology) == Ok(Some(tty)))
              && (d.Mismatch? <==> Confusing(third))
    {
      hide World.Valid, Told, World.Traced, Witnessed, Accepted, After, Fresh, Logged, TtyFor;
      d, e := Absent, Done;
      ghost var start := world.log;
      var s3 := world.Snapshot();
      ListedHaveIdentity(s3, "03eb", "204b");
      JustSeen(start, world.log, s3);
      SingleReenumeratedExactly(ApplicationTargets(s3), None, true);
      var pick := SingleReenumerated(ApplicationTargets(s3), None, true);
      if pick.Ambiguous? {
        return Mismatch, e;
      }
      if pick.Nobody? {
        return;
      }
      var s4 := world.Snapshot();
      var tty := TtyFor(s4, pick.target.topology);
      if tty.Err? || tty.value.None? {
        return;
      }
      SawLately(start, 0, [Looked(s3), Looked(s4)]);
      SawLately(start, 1, [Looked(s3), Looked(s4)]);
      assert world.log == start + [Looked(s3), Looked(s4)];
      OnlyOne(ApplicationTargets(s3));
      d, e := Present(pick.target, tty.value.value), Located(pick.target, tty.value.value, s3, s4, true);
    }

    /**
     `_wait_for_application_version`: a node alone is no success, the application found must answer V on its own
     TTY in time. It gives up only at the end of its time, or where the applications cannot be told apart.
     */
    method WaitForApplicationVersion(topology: string, seconds: nat, ghost end: Ending)
      returns (r: Option<(Target, Path, string)>)
      requires world.Valid() && Configured(world.mon) && Restarting(world.mon, topology)
      modifies world`log, world`trace, world`stamps, world`mon, world`clock, world`naps
      ensures world.Valid() && old(world.trace) <= world.trace && old(world.log) <= world.log
      ensures Listened(old(world.mon), world.mon)
      ensures r.Some? ==> GaveVersion(world.mon, r.value.0, r.value.1, r.value.2)
      ensures r.Some? ==> Heard(world.log, |old(world.log)|, r.value.1, r.value.2)
      ensures r.None? ==>
                || world.clock >= old(world.NextReading()) + 1000 * seconds
                || (settings.workaround && SawSeveral(world.log, |old(world.log)|))
      ensures old(world.naps) <= world.naps
      ensures forall k :: |old(world.naps)| <= k < |world.naps| ==>
                world.naps[k].at + world.naps[k].ms <= old(world.NextReading()) + 1000 * seconds
      ensures Steady(world.env, |old(world.log)|, world.commands, end.view) && Runs(end, topology, settings.workaround)
              && Talkative(world.env, |old(world.log)|) && seconds > 0 ==>
                r.Some? && r.value.0 == end.application
      ensures Mute(world.env, |old(world.log)|) ==> r.None?
    {
      hide *;
      r := None;
      TalkedToItself(world.mon);
      ghost var here := Steady(world.env, |world.log|, world.commands, end.view)
                        && Runs(end, topology, settings.workaround)
                        && Talkative(world.env, |world.log|) && seconds > 0;
      if here {
        SteadyNow(world.env, |world.log|, world.commands, end.view);
        SteadyLater(world.env, |world.log|, |world.log| + 2, world.commands, end.view);
        TalkativeAt(world.env, |world.log|, |world.log| + 2);
      }
      var now := world.Monotonic();
      var limit := now + 1000 * seconds;
      now := world.Monotonic();
      while now < limit
        invariant world.Valid() && old(world.trace) <= world.trace && old(world.log) <= world.log
        invariant Listened(old(world.mon), world.mon)
        invariant Configured(world.mon) && Restarting(world.mon, topology)
        invariant here ==> now < limit && |world.log| == |old(world.log)| + 2
        invariant world.clock >= now && old(world.naps) <= world.naps && r.None?
        invariant forall k :: |old(world.naps)| <= k < |world.naps| ==> world.naps[k].at + world.naps[k].ms <= limit
        decreases limit - now
      {
        var decided;
        ghost var before := world.mon;
        if Mute(world.env, |old(world.log)|) {
          MuteAt(world.env, |old(world.log)|, |world.log|);
        }
        decided, r := TryOrNap(topology, limit, |old(world.log)|, end);
        TalkedOn(old(world.mon), before, world.mon, topology);
        if decided {
          return;
        }
        now := world.clock;
      }
    }

    lemma TalkedOn(a: Monitor, b: Monitor, c: Monitor, topology: string)
      requires Listened(a, b) && Listened(b, c) && Configured(b) && Restarting(b, topology)
      ensures Listened(a, c) && Configured(c) && Restarting(c, topology)
    {
    }

    lemma TalkedToItself(m: Monitor)
      ensures Listened(m, m)
    {
    }

    /** One poll and, where it decides nothing, the sleep after it with the next clock reading. */
    method TryOrNap(topology: string, limit: int, ghost since: nat, ghost end: Ending)
      returns (decided: bool, r: Option<(Target, Path, string)>)
      requires world.Valid() && Configured(world.mon) && Restarting(world.mon, topology) && since <= |world.log|
      modifies world`log, world`trace, world`stamps, world`mon, world`clock, world`naps
      ensures world.Valid() && old(world.trace) <= world.trace && old(world.log) <= world.log
      ensures Listened(old(world.mon), world.mon)
      ensures r.Some? ==> decided && GaveVersion(world.mon, r.value.0, r.value.1, r.value.2)
      ensures r.Some? ==> Heard(world.log, since, r.value.1, r.value.2)
      ensures decided && r.None? ==> settings.workaround && SawSeveral(world.log, since)
      ensures old(world.naps) <= world.naps
      ensures forall k :: |old(world.naps)| <= k < |world.naps| ==> world.naps[k].at + world.naps[k].ms <= limit
      ensures !decided ==> world.clock >= limit || world.clock >= old(world.clock) + 1000
      ensures Steady(world.env, |old(world.log)|, world.commands, end.view) && Runs(end, topology, settings.workaround)
              && Talkative(world.env, |old(world.log)|) ==>
                decided && r.Some? && r.value.0 == end.application
      ensures Mute(world.env, |old(world.log)|) ==> r.None?
    {
      hide World.Valid, Told, World.Traced, Witnessed, Accepted, After, Fresh, Logged, SawSeveral, GaveVersion,
        Steady, Runs, Talkative, Talked, Restarting, Mute, Heard;
      ghost var asked := |world.log|;
      decided, r := TryApplication(topology, end);
      if decided {
        SeveralLater(world.log, asked, since);
      }
      if r.Some? {
        HeardLater(world.log, world.log, asked, since, r.value.1, r.value.2);
      }
      decided := decided || r.Some?;
      if !decided {
        var now := world.Monotonic();
        var remaining := limit - now;
        if remaining > 0 {
          world.Sleep(Min(1000, remaining));
        }
        now := world.Monotonic();
      }
    }

    /** One poll of that wait; `raised` is that the applications cannot be told apart. */
    method TryApplication(topology: string, ghost end: Ending)
      returns (raised: bool, r: Option<(Target, Path, string)>)
      requires world.Valid() && Configured(world.mon) && Restarting(world.mon, topology)
      modifies world`log, world`trace, world`stamps, world`mon
      ensures world.Valid() && old(world.trace) <= world.trace && old(world.log) <= world.log
      ensures Listened(old(world.mon), world.mon)
      ensures r.Some? ==> GaveVersion(world.mon, r.value.0, r.value.1, r.value.2)
      ensures r.Some? ==> Heard(world.log, |old(world.log)|, r.value.1, r.value.2)
      ensures raised ==> r.None? && settings.workaround && SawSeveral(world.log, |old(world.log)|)
      ensures Steady(world.env, |old(world.log)|, world.commands, end.view) && Runs(end, topology, settings.workaround)
              && Talkative(world.env, |old(world.log)|) ==>
                r.Some? && r.value.0 == end.application
      ensures Mute(world.env, |old(world.log)|) ==> r.None?
    {
      hide World.Valid, Told, World.Traced, Witnessed, Accepted, After, Fresh, Logged, SawSeveral, Locates, Talkative,
        Steady, Runs, Mute, Heard, Discovered, Confusing, Elsewhere;
      raised, r := false, None;
      world.MarkIsPast();
      ghost var asked := |world.log|;
      var found;
      ghost var e;
      found, e := FindApplication(topology, end);
      if Talkative(world.env, asked) {
        TalkativeAt(world.env, asked, |world.log|);
      }
      if Mute(world.env, asked) {
        MuteAt(world.env, asked, |world.log|);
      }
      if found.Mismatch? {
        raised := true;
      } else if found.Present? {
        LocationIsAllowed(world.mon, e, topology);
        LoggedLater(world.log, world.log, asked, world.Mark(), Looked(e.view));
        LoggedLater(world.log, world.log, asked, world.Mark(), Looked(e.node));
        world.EmitLocated(found.target, found.tty, e.view, e.node, e.moved);
        ghost var located := |world.log|;
        var version := ReadVersionOnce(found.tty);
        if version.Some? {
          HeardLater(world.log, world.log, located, asked, found.tty, version.value);
          r := Some((found.target, found.tty, version.value));
        }
      }
    }

    // -------------------------------------------------------------- the handoff

    /** `_store_handoff_pending`: the deadline counts from a clock reading `at` of this very call. */
    method StoreHandoffPending(target: Target) returns (ok: bool, ghost at: int)
      requires world.Valid() && world.mon.setup.device == settings.device && world.mon.setup.Window() == Window()
      requires world.mon.plan.Some? && world.mon.plan.value.Application? && world.mon.plan.value.target == target
      requires !world.mon.b01 && world.mon.spoke.Some?
      modifies world`log, world`disk, world`trace, world`stamps, world`mon
      ensures world.Valid() && old(world.trace) <= world.trace && old(world.log) <= world.log
      ensures world.mon == old(world.mon).(file := world.mon.file, wrote := world.mon.wrote)
      ensures Logged(world.log, |old(world.log)|, |world.log|, Dated(at))
      ensures ok ==>
                && world.mon.wrote && PendingFor(world.mon.file, target, settings.device)
                && RecordIn(world.mon.file).value.deadline == Some(at + Window())
      ensures world.trace == old(world.trace) + [Saved(world.mon.file, at)] || (!ok && world.trace == old(world.trace))
      ensures Helpful(world.env, |old(world.log)|) && Handing(world.env, |old(world.log)|, Window())
              && ValidTopology(target.topology) ==>
                ok
    {
      hide *;
      world.MarkIsPast();
      var now := world.UnixTime();
      at := now;
      ghost var read := world.log;
      var record := KnownDevice(target.topology, target.serial, None, Some(settings.device), HandoffPending,
        Some(now + Window()));
      JustRead(old(world.log), world.Mark(), at, FileOf(record));
      JustRead(old(world.log), |old(world.log)|, at, FileOf(record));
      PendingIsAllowed(world.mon, record, target, at);
      world.SavingFollows(record, at);
      DeadlineCounts(record);
      ghost var since := |old(world.log)|;
      if Helpful(world.env, since) && Handing(world.env, since, Window()) {
        HandingAt(world.env, since, since, Window());
        HelpfulAt(world.env, since, since + 1);
      }
      ok := world.SaveState(record, at);
      LoggedLater(read, world.log, |old(world.log)|, |old(world.log)|, Dated(at));
    }

    /** `_begin_uncertain_transition`: record first, then keep the consumers stopped. */
    method BeginUncertainTransition(target: Target, pause: CulConsumerPause) returns (ok: bool, ghost at: int)
      requires Proper() && world.Valid() && Configured(world.mon)
      requires world.mon.plan.Some? && world.mon.plan.value.Application?
               && world.mon.plan.value.target == target
      requires !world.mon.b01 && !world.mon.done && world.mon.spoke.Some?
      modifies world`log, world`disk, world`trace, world`stamps, world`mon, pause`restoreAfterError
      ensures world.Valid() && old(world.trace) <= world.trace && old(world.log) <= world.log
      ensures world.mon == old(world.mon).(file := world.mon.file, wrote := world.mon.wrote,
              kept := old(world.mon).kept || ok)
      ensures Logged(world.log, |old(world.log)|, |world.log|, Dated(at))
      ensures ok ==>
                && world.mon.wrote && PendingFor(world.mon.file, target, settings.device)
                && RecordIn(world.mon.file).value.deadline == Some(at + Window())
                && world.trace == old(world.trace) + [Saved(world.mon.file, at), KeptStopped]
      ensures !ok ==>
                world.trace == old(world.trace) || world.trace == old(world.trace) + [Saved(world.mon.file, at)]
      ensures pause.restoreAfterError == (old(pause.restoreAfterError) && !ok)
      ensures Helpful(world.env, |old(world.log)|) && Handing(world.env, |old(world.log)|, Window())
              && ValidTopology(target.topology) ==>
                ok
    {
      hide World.Valid, Told, World.Traced, Witnessed, Accepted, After, Fresh, Logged, RecordIn, PendingFor,
        ObservedFor, Helpful, Handing, ValidTopology;
      ok, at := StoreHandoffPending(target);
      if ok {
        pause.LeaveStoppedAfterError();
        world.EmitKeptStopped();
      }
    }

    /** `_enter_bootloader`: up to three attempts to verify, at most one B01, and none after it. */
    method EnterBootloader(plan: Plan, pause: CulConsumerPause, ghost aim: Aim) returns (before: Option<string>)
      requires Proper() && world.Valid() && Configured(world.mon)
      requires plan.Application? && Poised(world.mon, plan) && pause.restoreAfterError
      modifies world`log, world`commands, world`disk, world`trace, world`stamps, world`mon, world`clock, world`naps,
        pause`restoreAfterError
      ensures world.Valid() && old(world.trace) <= world.trace && old(world.log) <= world.log
      ensures SameConsumers(old(world.mon), world.mon) && pause.restoreAfterError == !world.mon.kept
      ensures before.Some? ==> Departed(world.mon, plan)
      ensures before.None? ==> (world.mon.kept || Untouched(world.mon)) && Idle(world.mon)
      ensures IsSmooth(plan, |old(world.log)|, old(world.commands), aim) ==>
                before.Some? && world.commands == old(world.commands) + 1
      ensures before.None? && world.env.report(|old(world.log)|) && !world.mon.b01 ==>
                exists first, second :: world.naps == old(world.naps) + [Nap(first, 1000), Nap(second, 1000)]
      ensures Seconds(old(world.naps), world.naps) && |world.naps| <= |old(world.naps)| + 2
      ensures world.clock >= old(world.clock)
    {
      hide World.Valid, Told, World.Traced, Witnessed, Accepted, After, Fresh, Logged, IsSmooth;
      before := None;
      ghost var first, second := 0, 0;
      ghost var smooth := IsSmooth(plan, |world.log|, world.commands, aim);
      if smooth {
        HandsOver(plan, |world.log|, |world.log|, world.commands, aim);
        SmoothLater(plan, |world.log|, |world.log| + 1, world.commands, aim);
      }
      var ok := world.Report(10);
      if !ok {
        return;
      }
      for attempt := 1 to VERSION_READ_ATTEMPTS + 1
        invariant world.Valid() && old(world.trace) <= world.trace && old(world.log) <= world.log
        invariant SameConsumers(old(world.mon), world.mon) && Poised(world.mon, plan) && pause.restoreAfterError
        invariant smooth ==> IsSmooth(plan, |world.log|, world.commands, aim)
        invariant world.commands == old(world.commands) && (smooth ==> attempt == 1)
        invariant world.clock >= old(world.clock)
        invariant attempt == 1 ==> world.naps == old(world.naps)
        invariant attempt == 2 ==> world.naps == old(world.naps) + [Nap(first, 1000)]
        invariant attempt > 2 ==> world.naps == old(world.naps) + [Nap(first, 1000), Nap(second, 1000)]
      {
        var requested, version := Handoff(plan, pause, aim);
        if version.Some? || requested {
          return version;
        }
        if attempt != VERSION_READ_ATTEMPTS {
          first, second := if attempt == 1 then world.clock else first, world.clock;
          world.Sleep(1000);
        }
      }
    }

    /** One attempt; `requested` is whether B01 may have left, `version` is given if nothing raised. */
    method Handoff(plan: Plan, pause: CulConsumerPause, ghost aim: Aim)
      returns (requested: bool, version: Option<string>)
      requires Proper() && world.Valid() && Configured(world.mon)
      requires plan.Application? && Poised(world.mon, plan) && pause.restoreAfterError
      modifies world`log, world`commands, world`disk, world`trace, world`stamps, world`mon, pause`restoreAfterError
      ensures world.Valid() && old(world.trace) <= world.trace && old(world.log) <= world.log
      ensures SameConsumers(old(world.mon), world.mon) && pause.restoreAfterError == !world.mon.kept
      ensures requested <==> world.mon.b01
      ensures if requested then Departed(world.mon, plan) else version.None? && Poised(world.mon, plan)
      ensures IsSmooth(plan, |old(world.log)|, old(world.commands), aim) ==> requested && version.Some?
      ensures world.commands == old(world.commands) + if requested then 1 else 0
    {
      hide World.Valid, Told, World.Traced, Witnessed, Accepted, After, Fresh, Logged, EndpointOf, MaySave,
        PendingFor, IsApplication, IsSmooth, Appears, Steady, SameIdentity, Added, Departed, LedThere;
      requested, version := false, None;
      ghost var since, smooth := |world.log|, IsSmooth(plan, |world.log|, world.commands, aim);
      if smooth {
        HandsOverHere(plan, since, world.commands, aim);
      }
      var endpoint, bound := ConfiguredEndpoint(Some(plan.target), aim.begin);
      if endpoint.None? {
        return;
      }
      if smooth {
        HandsOver(plan, since, |world.log|, world.commands, aim);
        SmoothLater(plan, since, |world.log| + 1, world.commands, aim);
      }
      var isOpen := world.Open(endpoint.value.tty);
      if isOpen {
        requested, version := HandoffSession(plan, pause, endpoint.value.tty, aim);
        world.Close();
      }
    }

    /** The open session of an attempt: V, the record, the consumers, then B01. */
    method HandoffSession(plan: Plan, pause: CulConsumerPause, tty: Path, ghost aim: Aim)
      returns (requested: bool, version: Option<string>)
      requires Proper() && world.Valid() && Configured(world.mon)
      requires plan.Application? && pause.restoreAfterError
      requires world.mon.tty == Some(tty) && world.mon.spoke.None? && Poised(world.mon.(tty := None), plan)
      requires LeadsTo(world.mon, tty) && world.mon.sessions == 1
      requires SameIdentity(plan.target, world.mon.bound.value.configured)
      requires SameIdentity(plan.target, world.mon.bound.value.direct)
      modifies world`log, world`commands, world`disk, world`trace, world`stamps, world`mon, pause`restoreAfterError
      ensures world.Valid() && old(world.trace) <= world.trace && old(world.log) <= world.log
      ensures SameConsumers(old(world.mon), world.mon) && pause.restoreAfterError == !world.mon.kept
      ensures requested <==> world.mon.b01
      ensures version.Some? ==> requested
      ensures var closed := world.mon.(tty := None, spoke := None);
              if requested then Departed(closed, plan) else Poised(closed, plan)
      ensures IsSmooth(plan, |old(world.log)|, old(world.commands), aim) ==> requested && version.Some?
      ensures world.commands == old(world.commands) + if requested then 1 else 0
    {
      hide World.Valid, Told, World.Traced, Witnessed, Accepted, After, Fresh, Logged, EndpointOf, MaySave,
        PendingFor, IsApplication, SameIdentity, IsSmooth, Helpful, Handing, ValidTopology;
      requested := false;
      ghost var since, smooth := |world.log|, IsSmooth(plan, |world.log|, world.commands, aim);
      if smooth {
        HandsOver(plan, since, since, world.commands, aim);
        HandsOver(plan, since, since + 1, world.commands, aim);
        SmoothLater(plan, since, since + 2, world.commands, aim);
      }
      version := world.Version(tty);
      var ok := version.Some?;
      if ok {
        ok := world.Report(20);
      }
      if ok {
        requested, ok := HandOver(plan, pause, tty, aim);
      }
      if !ok {
        version := None;
      }
    }

    /** The record, the consumers, then B01; `ok` is whether nothing raised. */
    method HandOver(plan: Plan, pause: CulConsumerPause, tty: Path, ghost aim: Aim)
      returns (requested: bool, ok: bool)
      requires Proper() && world.Valid() && Configured(world.mon)
      requires plan.Application? && pause.restoreAfterError
      requires world.mon.tty == Some(tty) && world.mon.spoke.Some?
      requires Poised(world.mon.(tty := None, spoke := None), plan)
      requires LeadsTo(world.mon, tty) && world.mon.sessions == 1
      requires SameIdentity(plan.target, world.mon.bound.value.configured)
      requires SameIdentity(plan.target, world.mon.bound.value.direct)
      modifies world`log, world`commands, world`disk, world`trace, world`stamps, world`mon, pause`restoreAfterError
      ensures world.Valid() && old(world.trace) <= world.trace && old(world.log) <= world.log
      ensures SameConsumers(old(world.mon), world.mon) && pause.restoreAfterError == !world.mon.kept
      ensures requested <==> world.mon.b01
      ensures ok ==> requested
      ensures var closed := world.mon.(tty := None, spoke := None);
              if requested then Departed(closed, plan) else Poised(closed, plan)
      ensures IsSmooth(plan, |old(world.log)|, old(world.commands), aim) ==> requested && ok
      ensures world.commands == old(world.commands) + if requested then 1 else 0
    {
      hide World.Valid, Told, World.Traced, Witnessed, Accepted, After, Fresh, Logged, EndpointOf, MaySave,
        PendingFor, IsApplication, SameIdentity, IsSmooth, Helpful, Handing, ValidTopology;
      requested := false;
      ghost var since, stage := |world.log|, world.commands;
      ghost var smooth := IsSmooth(plan, since, stage, aim);
      if smooth {
        HandsOverSafely(plan, since, since, stage, aim);
      }
      ghost var at;
      ok, at := BeginUncertainTransition(plan.target, pause);
      if ok {
        requested := true;
        if smooth {
          HandsOver(plan, since, |world.log|, stage, aim);
        }
        ok := world.SendB01(tty);
      }
    }

    // -------------------------------------------------------------- DFU

    /**
     `_run_dfu`: find the bootloader again, then run one command on its bus address. `called` is the answer
     of the call, if it came to one; it decides the result. `seen` is what the look in this very call found.
     */
    method RunDfu(b: Target, command: Command, ghost script: Script)
      returns (r: DfuResult, ghost called: Option<ToolAnswer>, ghost seen: Sighting)
      requires Proper() && world.Valid() && Configured(world.mon)
      requires Armed(world.mon, b, command)
      modifies world`log, world`commands, world`trace, world`stamps, world`mon, world`clock, world`naps, world`probes
      ensures world.Valid() && old(world.log) <= world.log
      ensures world.probes == old(world.probes) + (if called.Some? then [ToolCall(command, called.value)] else [])
      ensures r.Clean? <==> called == Some(Completed(0, true))
      ensures r.FlashFailed? <==> called.None? || !Survived(called.value)
      ensures called.None? ==>
                || !world.env.toolPresent(|old(world.log)|)
                || world.clock >= old(world.clock) + 1000 * settings.bootTimeout
                || SawUnfit(world.log, |old(world.log)| + 1, b.topology, b.serial, false, false)
      ensures called.Some? ==>
                && Sighted(seen, b.topology, b.serial, false, false)
                && Saw(world.log, |old(world.log)|, |world.log|, seen.view)
      ensures world.trace ==
              old(world.trace)
              + if called.Some? then CommandEvents(command, seen.target, seen.view, called.value) else []
      ensures world.mon == if called.Some? && Attempted(called.value)
                           then AfterCommand(old(world.mon), command, r.Clean?) else old(world.mon)
      ensures world.commands == old(world.commands) + if called.Some? then 1 else 0
      ensures Cooperative(world.env, |old(world.log)|, b, script)
              && old(world.commands) == script.first + |Before(command)| ==>
                called == Some(script.Answer(command))
    {
      hide World.Valid, Told, World.Traced, Witnessed, Accepted, After, Fresh, Logged, Unfit, Looks,
        CommandEvents, MayRun, Sighted, Armed, Cooperative, Steady, Before, Shown, PacedTo,
        SawUnfit;
      called, r, seen := None, FlashFailed, Sighting(b, NOTHING, false);
      world.MarkIsPast();
      BeforeIsShort(command);
      ghost var since, smooth := |world.log|, Cooperative(world.env, |world.log|, b, script)
                                              && world.commands == script.first + |Before(command)|;
      if smooth {
        CooperativeShows(world.env, since, world.commands, b, script);
        CooperativeLater(world.env, since, since + 1, b, script);
        CooperativeShows(world.env, since + 1, world.commands, b, script);
        OneIsShown(script.view, b);
      }
      var present := world.ToolPresent();
      if present {
        ghost var asked := |world.log|;
        var sighting := WaitForBootloader(b.topology, b.serial, settings.bootTimeout, false, false, script.view);
        if sighting.Some? {
          seen := sighting.value;
          ghost var looked := world.log;
          RunIsAllowed(world.mon, b, command, seen);
          if smooth {
            CooperativeLater(world.env, since, |world.log|, b, script);
            CooperativeShows(world.env, |world.log|, world.commands, b, script);
          }
          LoggedLater(looked, looked, asked, world.Mark(), Looked(seen.view));
          var answer := world.RunTool(command, sighting.value.target, sighting.value.view);
          LoggedLater(looked, world.log, asked, |old(world.log)|, Looked(seen.view));
          ResultOfExactly(answer);
          called, r := Some(answer), ResultOf(answer);
        }
      }
    }

    // -------------------------------------------------------------- the flash transaction

    /** From the plan to an accepted bootloader, through B01 or straight into recovery. */
    method Transition(plan: Plan, pause: CulConsumerPause, ghost aim: Aim) returns (boot: Option<Target>)
      requires Proper() && world.Valid() && Configured(world.mon)
      requires Poised(world.mon, plan) && pause.restoreAfterError
      modifies world`log, world`commands, world`disk, world`trace, world`stamps, world`mon, world`clock, world`naps,
        pause`restoreAfterError
      ensures world.Valid() && old(world.trace) <= world.trace && old(world.log) <= world.log
      ensures SameConsumers(old(world.mon), world.mon) && pause.restoreAfterError == !world.mon.kept
      ensures (world.mon.kept || Untouched(world.mon)) && Idle(world.mon)
      ensures boot.Some? ==> world.mon.boot == boot && world.mon.kept && world.mon.ran == [] && MayTalk(world.mon)
      ensures IsSmooth(plan, |old(world.log)|, old(world.commands), aim) ==>
                boot == Some(aim.b) && world.commands == aim.script.first
    {
      hide World.Valid, Told, World.Traced, Witnessed, Accepted, After, Fresh, Logged, Unfit, Looks, Cooperative,
        IsSmooth;
      boot := None;
      var ok, sighting;
      ghost var asked;
      if plan.Application? {
        ok, sighting, asked := AwaitHandoff(plan, pause, aim);
      } else {
        if IsSmooth(plan, |world.log|, world.commands, aim) {
          SmoothRecovers(plan, |world.log|, world.commands, aim);
        }
        ok, sighting, asked := AwaitRecovery(plan, pause, aim);
      }
      if sighting.Some? {
        var s := sighting.value;
        LoggedLater(world.log, world.log, asked, world.Mark(), Looked(s.view));
        world.EmitFound(s.target, s.view, s.moved);
        boot := Some(s.target);
      }
    }

    /** A poll of the view of the course shows its bootloader. */
    ghost predicate Arriving(aim: Aim, topology: string, expected: Option<string>, allowChange: bool)
    {
      exists moved :: Shown(aim.script.view, aim.script.view, topology, expected, settings.workaround, allowChange,
                            Sighting(aim.b, aim.script.view, moved))
    }

    lemma SmoothRecovers(plan: Plan, since: nat, stage: nat, aim: Aim)
      requires IsSmooth(plan, since, stage, aim) && !plan.Application?
      ensures world.env.report(since) && Steady(world.env, since + 1, stage, aim.script.view)
      ensures Arriving(aim, plan.Topology(), PlannedSerial(plan), false) && stage == aim.script.first
    {
      hide Cooperative, Helpful, Steady, BootloaderFor, BootloaderTargets;
      CooperativeShows(world.env, since, stage, aim.b, aim.script);
      ArrivedIsShown(aim.script.view, plan.Topology(), PlannedSerial(plan), settings.workaround, false, aim.b);
      SteadyLater(world.env, since, since + 1, stage, aim.script.view);
      HelpfulAt(world.env, since, since);
    }

    lemma SmoothArrives(plan: Plan, since: nat, later: nat, stage: nat, aim: Aim)
      requires IsSmooth(plan, since, stage, aim) && plan.Application? && since <= later
      ensures Steady(world.env, later, aim.script.first, aim.script.view)
      ensures Arriving(aim, plan.Topology(), plan.target.serial, true)
      ensures Helpful(world.env, later) && stage + 1 == aim.script.first
    {
      hide Cooperative, Helpful, Steady, BootloaderFor, BootloaderTargets, Appears, Handing;
      HelpfulAt(world.env, since, later);
      CooperativeShows(world.env, since, aim.script.first, aim.b, aim.script);
      ArrivedIsShown(aim.script.view, plan.Topology(), plan.target.serial, settings.workaround, true, aim.b);
      SteadyLater(world.env, since, later, aim.script.first, aim.script.view);
    }

    /** The application's branch: through B01 to the bootloader. */
    method AwaitHandoff(plan: Plan, pause: CulConsumerPause, ghost aim: Aim)
      returns (ok: bool, sighting: Option<Sighting>, ghost asked: nat)
      requires Proper() && world.Valid() && Configured(world.mon)
      requires plan.Application? && Poised(world.mon, plan) && pause.restoreAfterError
      modifies world`log, world`commands, world`disk, world`trace, world`stamps, world`mon, world`clock, world`naps,
        pause`restoreAfterError
      ensures world.Valid() && old(world.trace) <= world.trace && old(world.log) <= world.log
      ensures SameConsumers(old(world.mon), world.mon) && pause.restoreAfterError == !world.mon.kept
      ensures if ok then Departed(world.mon, plan) else (world.mon.kept || Untouched(world.mon)) && Idle(world.mon)
      ensures sighting.Some? ==>
                && ok && Saw(world.log, asked, |world.log|, sighting.value.view) && world.Mark() <= asked
                && Sighted(sighting.value, plan.Topology(), plan.target.serial, settings.workaround, true)
      ensures IsSmooth(plan, |old(world.log)|, old(world.commands), aim) ==>
                sighting.Some? && sighting.value.target == aim.b && world.commands == aim.script.first
      ensures ok && sighting.None? ==>
                || ReportFails(world.env, |old(world.log)|, |world.log|)
                || world.clock >= old(world.clock) + 1000 * Window()
                || SawUnfit(world.log, asked, plan.Topology(), plan.target.serial, settings.workaround, true)
      ensures old(world.naps) <= world.naps && |world.naps| <= |old(world.naps)| + 3 + 4 * Window()
    {
      hide World.Valid, Told, World.Traced, Witnessed, Accepted, After, Fresh, Logged, Unfit, Looks, IsSmooth,
        Steady, Helpful, BootloaderFor, Sighted, Shown, SawUnfit;
      sighting, asked, ok := None, 0, false;
      ghost var since, stage := |world.log|, world.commands;
      ghost var smooth := IsSmooth(plan, since, stage, aim);
      var before := EnterBootloader(plan, pause, aim);
      if before.None? {
        return;
      }
      ok := true;
      if smooth {
        SmoothArrives(plan, since, |world.log|, stage, aim);
      }
      var settled := Settle(25);
      if settled {
        if smooth {
          SmoothArrives(plan, since, |world.log|, stage, aim);
        }
        world.MarkIsPast();
        asked := |world.log|;
        sighting := WaitForBootloader(plan.Topology(), plan.target.serial, Window(), settings.workaround, true,
          aim.script.view);
      }
    }

    /** The recovery branch: consumers stay stopped from here on, and the bootloader is waited for. */
    method AwaitRecovery(plan: Plan, pause: CulConsumerPause, ghost aim: Aim)
      returns (ok: bool, sighting: Option<Sighting>, ghost asked: nat)
      requires Proper() && world.Valid() && world.mon.plan == Some(plan) && !plan.Application? && !world.mon.done
      modifies world`log, world`trace, world`stamps, world`mon, world`clock, world`naps, pause`restoreAfterError
      ensures world.Valid() && old(world.trace) <= world.trace && old(world.log) <= world.log
      ensures world.mon == if ok then old(world.mon).(kept := true) else old(world.mon)
      ensures pause.restoreAfterError == (old(pause.restoreAfterError) && !ok)
      ensures sighting.Some? ==>
                && ok && Saw(world.log, asked, |world.log|, sighting.value.view) && world.Mark() <= asked
                && Sighted(sighting.value, plan.Topology(), PlannedSerial(plan), settings.workaround, false)
      ensures IsSmooth(plan, |old(world.log)|, world.commands, aim) ==>
                ok && sighting.Some? && sighting.value.target == aim.b
      ensures ok && sighting.None? ==>
                || world.clock >= old(world.clock) + 1000 * settings.bootTimeout
                || SawUnfit(world.log, asked, plan.Topology(), PlannedSerial(plan), settings.workaround, false)
      ensures old(world.naps) <= world.naps && |world.naps| <= |old(world.naps)| + 4 * settings.bootTimeout
      ensures !ok ==> !world.env.report(|old(world.log)|)
    {
      hide World.Valid, Told, World.Traced, Witnessed, Accepted, After, Fresh, Logged, Unfit, Looks, Sighted,
        BootloaderFor, Cooperative, Steady, Compatible, IsSmooth, Shown, SawUnfit;
      sighting, asked := None, 0;
      if IsSmooth(plan, |world.log|, world.commands, aim) {
        SmoothRecovers(plan, |world.log|, world.commands, aim);
      }
      ok := world.Report(15);
      if ok {
        pause.LeaveStoppedAfterError();
        world.EmitKeptStopped();
        world.MarkIsPast();
        asked := |world.log|;
        sighting := WaitForBootloader(plan.Topology(), PlannedSerial(plan), settings.bootTimeout,
          settings.workaround, false, aim.script.view);
      }
    }

    /** `_store_observed_bootloader`: the DFU identity is on disk before anything destructive. */
    method StoreObservedBootloader(b: Target) returns (ok: bool)
      requires world.Valid() && world.mon.setup.device == settings.device
      requires world.mon.boot == Some(b) && world.mon.ran == []
      modifies world`log, world`disk, world`trace, world`stamps, world`mon
      ensures world.Valid() && old(world.trace) <= world.trace && old(world.log) <= world.log
      ensures world.mon == old(world.mon).(file := world.mon.file, wrote := world.mon.wrote)
      ensures ok ==> world.mon.wrote && ObservedFor(world.mon.file, b, settings.device)
      ensures ok ==> world.mon.file == FileOf(ObservedRecord(b, settings.device))
      ensures ok <==> ValidTopology(b.topology) && world.env.save(|old(world.log)|).Replaced?
    {
      hide *;
      ObservedParts(b, settings.device);
      var record := ObservedRecord(b, settings.device);
      ObservedIsAllowed(world.mon, record, b);
      world.SavingFollows(record, 0);
      OnlyTopologyCounts(record);
      ok := world.SaveState(record, 0);
    }

    /**
     Erase, flash, start; only an error of `start` itself is survived. `start` is its answer if it was
     reached. With everything but dfu-programmer cooperating, success means exactly that erase and flash
     returned 0 and `start` gave no FlashError.
     */
    method WriteFirmware(b: Target, ghost script: Script) returns (ok: bool, ghost start: ToolAnswer)
      requires Proper() && world.Valid() && Configured(world.mon)
      requires Armed(world.mon, b, Erase)
      modifies world`log, world`commands, world`trace, world`stamps, world`mon, world`clock, world`naps, world`probes
      ensures world.Valid() && old(world.trace) <= world.trace && old(world.log) <= world.log
      ensures Programmed(old(world.mon), world.mon)
      ensures ok ==>
                && world.probes == old(world.probes) + Programming(start) && Survived(start)
                && world.mon.ran == AttemptedWith(start)
      ensures ok ==> world.commands == old(world.commands) + 3
      ensures Cooperative(world.env, |old(world.log)|, b, script) && old(world.commands) == script.first ==>
                && (ok <==>
                      && script.erase == Completed(0, true) && script.flash == Completed(0, true)
                      && script.start != OutputDirectoryMissing && script.start != ToolMissing)
                && (ok ==> start == script.start)
    {
      hide *;
      ScriptAnswers(script);
      start := ToolMissing;
      ok := EraseAndFlash(b, script);
      if ok {
        ghost var flashed := world.mon;
        start, ok := Started(b, script);
        ProgrammedOn(old(world.mon), flashed, world.mon);
        ProgrammingParts(start);
      }
    }

    method EraseAndFlash(b: Target, ghost script: Script) returns (ok: bool)
      requires Proper() && world.Valid() && Configured(world.mon)
      requires Armed(world.mon, b, Erase)
      modifies world`log, world`commands, world`trace, world`stamps, world`mon, world`clock, world`naps, world`probes
      ensures world.Valid() && Configured(world.mon) && old(world.trace) <= world.trace && old(world.log) <= world.log
      ensures Programmed(old(world.mon), world.mon)
      ensures ok ==>
                && Armed(world.mon, b, Start) && world.mon.ran == [Erase, FlashImage]
                && world.probes ==
                   old(world.probes) + [ToolCall(Erase, Completed(0, true)), ToolCall(FlashImage, Completed(0, true))]
      ensures ok ==> world.commands == old(world.commands) + 2
      ensures Cooperative(world.env, |old(world.log)|, b, script) && old(world.commands) == script.first ==>
                && Cooperative(world.env, |world.log|, b, script)
                && (ok <==> script.erase == Completed(0, true) && script.flash == Completed(0, true))
    {
      hide *;
      ArmedNext(world.mon, b);
      ScriptAnswers(script);
      ok := Commanded(b, Erase, 35, script);
      if ok {
        ghost var erased := world.mon;
        ok := Commanded(b, FlashImage, 55, script);
        ProgrammedOn(old(world.mon), erased, world.mon);
      }
    }

    /** A report, then a command whose failure ends the transaction. */
    method Commanded(b: Target, command: Command, percent: nat, ghost script: Script) returns (ok: bool)
      requires Proper() && world.Valid() && Configured(world.mon)
      requires Armed(world.mon, b, command) && percent <= 100
      modifies world`log, world`commands, world`trace, world`stamps, world`mon, world`clock, world`naps, world`probes
      ensures world.Valid() && Configured(world.mon) && old(world.trace) <= world.trace && old(world.log) <= world.log
      ensures ok ==>
                && world.probes == old(world.probes) + [ToolCall(command, Completed(0, true))]
                && world.mon == AfterCommand(old(world.mon), command, true)
      ensures Programmed(old(world.mon), world.mon)
      ensures ok ==> world.commands == old(world.commands) + 1
      ensures Cooperative(world.env, |old(world.log)|, b, script)
              && old(world.commands) == script.first + |Before(command)| ==>
                Cooperative(world.env, |world.log|, b, script) && (ok <==> script.Answer(command) == Completed(0, true))
    {
      hide World.Valid, Told, World.Traced, Witnessed, Accepted, After, Fresh, Logged, Steady, BootloaderFor,
        ObservedFor;
      ghost var cooperative, since := Cooperative(world.env, |world.log|, b, script), |world.log|;
      ok := world.Report(percent);
      if ok {
        if cooperative {
          CooperativeLater(world.env, since, |world.log|, b, script);
        }
        var r, called, seen := RunDfu(b, command, script);
        ok := r.Clean?;
      }
      if cooperative {
        CooperativeLater(world.env, since, |world.log|, b, script);
      }
    }

    /** The report and the command after which only V counts. */
    method Started(b: Target, ghost script: Script) returns (ghost start: ToolAnswer, ok: bool)
      requires Proper() && world.Valid() && Configured(world.mon)
      requires Armed(world.mon, b, Start)
      modifies world`log, world`commands, world`trace, world`stamps, world`mon, world`clock, world`naps, world`probes
      ensures world.Valid() && old(world.trace) <= world.trace && old(world.log) <= world.log
      ensures Programmed(old(world.mon), world.mon)
      ensures ok ==>
                && world.probes == old(world.probes) + [ToolCall(Start, start)] && Survived(start)
                && world.mon.ran == old(world.mon).ran + (if start.OutputUnavailable? then [] else [Start])
      ensures ok ==> world.commands == old(world.commands) + 1
      ensures Cooperative(world.env, |old(world.log)|, b, script) && old(world.commands) == script.first + 2 ==>
                (ok <==> Survived(script.start)) && (ok ==> start == script.start)
    {
      hide World.Valid, Told, World.Traced, Witnessed, Accepted, After, Fresh, Logged, Steady, BootloaderFor,
        ObservedFor;
      start := ToolMissing;
      ghost var cooperative, since := Cooperative(world.env, |world.log|, b, script), |world.log|;
      ok := world.Report(78);
      if ok {
        if cooperative {
          CooperativeLater(world.env, since, |world.log|, b, script);
        }
        var r, called, seen := RunDfu(b, Start, script);
        start := if called.Some? then called.value else ToolMissing;
        match r {
          case FlashFailed => ok := false;
          case Clean =>
          case TransferFailed =>
            if cooperative {
              CooperativeLater(world.env, since, |world.log|, b, script);
            }
            ok := world.Report(82);
        }
      }
    }

    /** The body of the `with` block. */
    method FlashBody(plan: Plan, pause: CulConsumerPause, ghost aim: Aim)
      returns (installed: Option<Installation>, ghost start: ToolAnswer)
      requires Proper() && world.Valid() && Configured(world.mon)
      requires Poised(world.mon, plan) && pause.restoreAfterError && pause.retained == {}
      modifies world`log, world`commands, world`disk, world`trace, world`stamps, world`mon, world`clock, world`naps,
        world`probes, pause`restoreAfterError, pause`retained
      ensures world.Valid() && old(world.trace) <= world.trace && old(world.log) <= world.log
      ensures SameConsumers(old(world.mon), world.mon) && Idle(world.mon) && pause.restoreAfterError == !world.mon.kept
      ensures world.mon.kept || Untouched(world.mon)
      ensures pause.retained == (if installed.Some? && installed.value.migrated then Members(pause.Addons()) else {})
      ensures installed.Some? ==>
                && world.mon.kept
                && world.mon.verified == Some(Reading(installed.value.version, installed.value.application))
                && VerifiedOnDisk(world.mon.file, installed.value.version, installed.value.application, settings.device)
                && Written(old(world.probes), world.probes, world.mon.ran, start, settings.isSerialById,
                           settings.device, installed.value.migrated)
      ensures IsSmooth(plan, |old(world.log)|, old(world.commands), aim) ==>
                && world.mon.ran == AttemptedWith(aim.script.start)
                && (Ends(world.env, |old(world.log)|, settings.workaround, aim) ==>
                      installed.Some? && installed.value.application == aim.end.application)
                && (Mute(world.env, |old(world.log)|) ==>
                      world.mon.file == FileOf(ObservedRecord(aim.b, settings.device)))
    {
      hide World.Valid, Told, World.Traced, Witnessed, Accepted, After, Fresh, Logged, RecordIn, IsSmooth,
        VerifiedOnDisk, Cooperative, Moved, Helpful, Ends, Writable, ValidTopology, Mute, FileOf;
      installed, start := None, ToolMissing;
      ghost var since, smooth := |world.log|, IsSmooth(plan, |world.log|, world.commands, aim);
      var boot := Prepare(plan, pause, aim);
      if boot.None? {
        return;
      }
      if smooth && Ends(world.env, since, settings.workaround, aim) {
        EndsLater(world.env, since, |world.log|, settings.workaround, aim);
      }
      if Mute(world.env, since) {
        MuteAt(world.env, since, |world.log|);
      }
      installed, start := WriteAndVerify(boot.value, pause, aim);
    }

    /** The firmware write and what follows it. */
    method WriteAndVerify(b: Target, pause: CulConsumerPause, ghost aim: Aim)
      returns (installed: Option<Installation>, ghost start: ToolAnswer)
      requires Proper() && world.Valid() && Configured(world.mon)
      requires Armed(world.mon, b, Erase) && pause.retained == {}
      modifies world`log, world`commands, world`disk, world`trace, world`stamps, world`mon, world`clock, world`naps,
        world`probes, pause`retained
      ensures world.Valid() && old(world.trace) <= world.trace && old(world.log) <= world.log
      ensures SameRest(old(world.mon), world.mon) && Idle(world.mon)
      ensures pause.retained == (if installed.Some? && installed.value.migrated then Members(pause.Addons()) else {})
      ensures installed.Some? ==>
                && world.mon.verified == Some(Reading(installed.value.version, installed.value.application))
                && VerifiedOnDisk(world.mon.file, installed.value.version, installed.value.application, settings.device)
                && Written(old(world.probes), world.probes, world.mon.ran, start, settings.isSerialById,
                           settings.device, installed.value.migrated)
      ensures Writable(world.env, |old(world.log)|, aim) && old(world.commands) == aim.script.first && b == aim.b ==>
                && world.mon.ran == AttemptedWith(aim.script.start)
                && (Ends(world.env, |old(world.log)|, settings.workaround, aim) ==>
                      installed.Some? && installed.value.application == aim.end.application)
      ensures Mute(world.env, |old(world.log)|) ==> world.mon.file == old(world.mon).file
    {
      hide World.Valid, Told, World.Traced, Witnessed, Accepted, After, Fresh, Logged, RecordIn, VerifiedOnDisk,
        Cooperative, Moved, Helpful, Ends, Writable, ValidTopology, ObservedFor, Mute;
      installed := None;
      ghost var since := |world.log|;
      ghost var smooth := Writable(world.env, since, aim) && world.commands == aim.script.first && b == aim.b;
      if smooth {
        WritableParts(since, aim);
      }
      var ok;
      ok, start := WriteFirmware(b, aim.script);
      if ok {
        if smooth {
          HelpfulAt(world.env, since, |world.log|);
          if Ends(world.env, since, settings.workaround, aim) {
            EndsLater(world.env, since, |world.log|, settings.workaround, aim);
          }
        }
        if Mute(world.env, since) {
          MuteAt(world.env, since, |world.log|);
        }
        installed := VerifyInstalled(b, pause, aim);
      }
    }

    lemma WritableParts(since: nat, aim: Aim)
      requires Writable(world.env, since, aim)
      ensures Cooperative(world.env, since, aim.b, aim.script) && Helpful(world.env, since)
      ensures ValidTopology(aim.b.topology) && aim.script.erase == aim.script.flash == Completed(0, true)
      ensures Survived(aim.script.start)
    {
    }

    /** From call `since` on nothing stands in the way of this course up to its commands. */
    ghost predicate Hopeful(consent: Option<Consent>, since: nat, stage: nat, file: File, aim: Aim)
    {
      && consent == ConsentOf(aim) && Helpful(world.env, since) && Writable(world.env, since + PLANNING, aim)
      && Begins(world.env, since, stage, file, settings.device, settings.workaround, Window(), aim)
    }

    /** The same for a plan that was made. */
    ghost predicate IsSmooth(plan: Plan, since: nat, stage: nat, aim: Aim)
    {
      && Writable(world.env, since, aim)
      && Going(world.env, since, stage, settings.device, settings.workaround, Window(), plan, aim)
    }

    lemma SmoothLater(plan: Plan, since: nat, later: nat, stage: nat, aim: Aim)
      requires IsSmooth(plan, since, stage, aim) && since <= later
      ensures IsSmooth(plan, later, stage, aim)
    {
      hide Writable, Going;
      WritableLater(world.env, since, later, aim);
      GoingLater(world.env, since, later, stage, settings.device, settings.workaround, Window(), plan, aim);
    }

    lemma SmoothObeys(plan: Plan, since: nat, later: nat, stage: nat, aim: Aim)
      requires IsSmooth(plan, since, stage, aim) && since <= later
      ensures Obedient(world.env, later)
    {
      hide Cooperative, Going, ValidTopology, Survived, Helpful, Obedient;
      HelpfulAt(world.env, since, later);
    }

    lemma HandsOver(plan: Plan, since: nat, t: nat, stage: nat, aim: Aim)
      requires plan.Application? && IsSmooth(plan, since, stage, aim) && since <= t
      ensures world.env.open(t) && world.env.written(t) && world.env.report(t)
      ensures world.env.reply(t).Some? && SerialIo.SupportsCulLedControl(world.env.reply(t).value)
    {
      hide Helpful, Cooperative, Handing, Steady, Appears, Talkative, Survived;
      HelpfulAt(world.env, since, t);
      HandingAt(world.env, since, t, Window());
      TalkativeAt(world.env, t, t);
    }

    lemma HandsOverSafely(plan: Plan, since: nat, t: nat, stage: nat, aim: Aim)
      requires plan.Application? && IsSmooth(plan, since, stage, aim) && since <= t
      ensures Helpful(world.env, t) && Handing(world.env, t, Window()) && ValidTopology(plan.target.topology)
    {
      hide Helpful, Cooperative, Handing, Steady, Appears, Talkative, Survived;
      HelpfulAt(world.env, since, t);
      HandingAt(world.env, since, t, Window());
    }

    lemma HandsOverHere(plan: Plan, since: nat, stage: nat, aim: Aim)
      requires plan.Application? && IsSmooth(plan, since, stage, aim)
      ensures aim.begin.Replacing? && aim.begin.target == plan.target
      ensures Steady(world.env, since, stage, aim.begin.view)
      ensures Appears(aim.begin.view, aim.begin.target, aim.begin.tty, aim.begin.direct, settings.device)
    {
      hide Helpful, Cooperative, Handing, Steady, Appears, Talkative, Survived;
    }

    /** After planning the rest is smooth. */
    lemma HopefulGoes(consent: Option<Consent>, since: nat, stage: nat, file: File, aim: Aim)
      requires Hopeful(consent, since, stage, file, aim)
      ensures IsSmooth(PlanOf(aim, file), since + PLANNING, stage, aim)
      ensures Listable(world.env.addons(since + PLANNING))
    {
      hide Writable, Going, Helpful;
      HelpfulAt(world.env, since, since + PLANNING);
    }

    lemma HopefulStarts(consent: Option<Consent>, since: nat, stage: nat, file: File, aim: Aim)
      requires Hopeful(consent, since, stage, file, aim)
      ensures world.env.imageUnchanged(since) && world.env.report(since + 1) && world.env.stateReadable(since + 2)
    {
      hide Writable, Begins, Helpful;
      HelpfulAt(world.env, since, since);
      HelpfulAt(world.env, since, since + 1);
      HelpfulAt(world.env, since, since + 2);
    }

    lemma HopefulShows(consent: Option<Consent>, since: nat, stage: nat, file: File, aim: Aim, now: int)
      requires Hopeful(consent, since, stage, file, aim)
      ensures consent == ConsentOf(aim) && Shows(world.env, since + 3, since + 7, stage, aim.begin.view)
      ensures PlanFor(Fixed(aim.begin.view, now), Load(file), settings.device, Window(), consent, false)
              == Ok(PlanOf(aim, file))
    {
      hide Writable, Going, Helpful, PlanFor, BootloaderFor, ConfiguredApplication;
      BeginningIsPlanned(world.env, since, stage, file, settings.device, settings.workaround, Window(), aim, now);
    }

    lemma SmoothStores(plan: Plan, since: nat, later: nat, stage: nat, aim: Aim)
      requires IsSmooth(plan, since, stage, aim) && since <= later
      ensures world.env.save(later).Replaced? && ValidTopology(aim.b.topology) && world.env.report(later)
      ensures Writable(world.env, later, aim)
    {
      hide Cooperative, Helpful, Steady, Appears, Handing, ValidTopology;
      HelpfulAt(world.env, since, later);
      WritableLater(world.env, since, later, aim);
    }

    /** Everything before the first command: a bootloader that is accepted and on record. */
    method Prepare(plan: Plan, pause: CulConsumerPause, ghost aim: Aim) returns (boot: Option<Target>)
      requires Proper() && world.Valid() && Configured(world.mon)
      requires Poised(world.mon, plan) && pause.restoreAfterError
      modifies world`log, world`commands, world`disk, world`trace, world`stamps, world`mon, world`clock, world`naps,
        pause`restoreAfterError
      ensures world.Valid() && old(world.trace) <= world.trace && old(world.log) <= world.log
      ensures SameConsumers(old(world.mon), world.mon) && pause.restoreAfterError == !world.mon.kept
      ensures (world.mon.kept || Untouched(world.mon)) && Idle(world.mon)
      ensures boot.Some? ==> Armed(world.mon, boot.value, Erase)
      ensures IsSmooth(plan, |old(world.log)|, old(world.commands), aim) ==>
                && boot == Some(aim.b) && world.commands == aim.script.first
                && Writable(world.env, |world.log|, aim)
                && world.mon.file == FileOf(ObservedRecord(aim.b, settings.device))
    {
      hide World.Valid, Told, World.Traced, Witnessed, Accepted, After, Fresh, Logged, ObservedFor, IsSmooth, Writable,
        FileOf, ValidTopology;
      ghost var smooth, since, stage := IsSmooth(plan, |world.log|, world.commands, aim), |world.log|, world.commands;
      boot := Transition(plan, pause, aim);
      if boot.None? {
        return;
      }
      if smooth {
        SmoothStores(plan, since, |world.log|, stage, aim);
      }
      var ok := StoreObservedBootloader(boot.value);
      if smooth {
        SmoothStores(plan, since, |world.log|, stage, aim);
      }
      if ok && boot.value.topology != plan.Topology() {
        ok := world.Report(30);
      }
      if smooth {
        SmoothStores(plan, since, |world.log|, stage, aim);
      }
      if !ok {
        boot := None;
      }
    }

    /** From the started firmware to the verified record; only V decides. */
    method VerifyInstalled(b: Target, pause: CulConsumerPause, ghost aim: Aim) returns (installed: Option<Installation>)
      requires Proper() && world.Valid() && Configured(world.mon)
      requires Restarting(world.mon, b.topology) && pause.retained == {}
      modifies world`log, world`disk, world`trace, world`stamps, world`mon, world`clock, world`naps, world`probes,
        pause`retained
      ensures world.Valid() && old(world.trace) <= world.trace && old(world.log) <= world.log
      ensures SameRest(old(world.mon), world.mon) && world.mon.ran == old(world.mon).ran && Idle(world.mon)
      ensures pause.retained == (if installed.Some? && installed.value.migrated then Members(pause.Addons()) else {})
      ensures installed.Some? ==>
                && world.mon.verified == Some(Reading(installed.value.version, installed.value.application))
                && VerifiedOnDisk(world.mon.file, installed.value.version, installed.value.application, settings.device)
                && exists asked :: Moved(asked, settings.isSerialById, settings.device, installed.value.migrated)
                                   && world.probes == old(world.probes) + asked
      ensures Finishing(|old(world.log)|, world.commands, b, aim) ==>
                installed.Some? && installed.value.application == aim.end.application
      ensures Mute(world.env, |old(world.log)|) ==> world.mon.file == old(world.mon).file
    {
      hide World.Valid, Told, World.Traced, Witnessed, Accepted, After, Fresh, Logged, RecordIn, VerifiedOnDisk, Moved,
        Helpful, Ends, ValidTopology, Mute;
      installed := None;
      ghost var since := |world.log|;
      if Helpful(world.env, since) && Ends(world.env, since, settings.workaround, aim) {
        HelpfulAt(world.env, since, since);
      }
      var ok := Settle(84);
      if ok {
        if Helpful(world.env, since) && Ends(world.env, since, settings.workaround, aim) {
          HelpfulAt(world.env, since, |world.log|);
          EndsLater(world.env, since, |world.log|, settings.workaround, aim);
        }
        if Mute(world.env, since) {
          MuteAt(world.env, since, |world.log|);
        }
        installed := RecordInstalled(b, pause, aim);
      }
    }

    /** The same after the pause that the workaround asks for. */
    method RecordInstalled(b: Target, pause: CulConsumerPause, ghost aim: Aim) returns (installed: Option<Installation>)
      requires Proper() && world.Valid() && Configured(world.mon)
      requires Restarting(world.mon, b.topology) && pause.retained == {}
      modifies world`log, world`disk, world`trace, world`stamps, world`mon, world`clock, world`naps, world`probes,
        pause`retained
      ensures world.Valid() && old(world.trace) <= world.trace && old(world.log) <= world.log
      ensures SameRest(old(world.mon), world.mon) && world.mon.ran == old(world.mon).ran && Idle(world.mon)
      ensures pause.retained == (if installed.Some? && installed.value.migrated then Members(pause.Addons()) else {})
      ensures installed.Some? ==>
                && world.mon.verified == Some(Reading(installed.value.version, installed.value.application))
                && VerifiedOnDisk(world.mon.file, installed.value.version, installed.value.application, settings.device)
                && exists asked :: Moved(asked, settings.isSerialById, settings.device, installed.value.migrated)
                                   && world.probes == old(world.probes) + asked
      ensures Finishing(|old(world.log)|, world.commands, b, aim) ==>
                installed.Some? && installed.value.application == aim.end.application
      ensures Mute(world.env, |old(world.log)|) ==> world.mon.file == old(world.mon).file
    {
      hide World.Valid, Told, World.Traced, Witnessed, Accepted, After, Fresh, Logged, RecordIn,
        VerifiedOnDisk, SortedSet, Moved, Helpful, Steady, Talkative, Runs, Mute;
      installed := None;
      ghost var since := |world.log|;
      ghost var finishing := Finishing(since, world.commands, b, aim);
      var found := AwaitApplication(b, aim);
      if finishing {
        HelpfulAt(world.env, since, |world.log|);
      }
      if found.Some? {
        var application, version := found.value.0, found.value.1;
        var ok := StoreVerifiedApplication(application, version);
        if ok {
          if finishing {
            HelpfulAt(world.env, since, |world.log|);
          }
          var migrated;
          ghost var asked;
          ok, migrated, asked := ManualSerialByIdMigration(pause);
          if ok {
            installed := Some(Installation(version, application, migrated));
          }
        }
      }
    }

    /** The commands are done and the new firmware comes up. */
    ghost predicate Finishing(since: nat, stage: nat, b: Target, aim: Aim)
    {
      && b == aim.b && stage == aim.script.first + 3 && Helpful(world.env, since)
      && Ends(world.env, since, settings.workaround, aim)
      && ValidTopology(b.topology)
    }

    /** The wait for V with the two reports around it; 88 is reported after 90. */
    method AwaitApplication(b: Target, ghost aim: Aim) returns (found: Option<(Target, string)>)
      requires Proper() && world.Valid() && Configured(world.mon)
      requires Restarting(world.mon, b.topology)
      modifies world`log, world`trace, world`stamps, world`mon, world`clock, world`naps
      ensures world.Valid() && old(world.trace) <= world.trace && old(world.log) <= world.log
      ensures Listened(old(world.mon), world.mon)
      ensures found.Some? ==> world.mon.verified == Some(Reading(found.value.1, found.value.0))
      ensures Finishing(|old(world.log)|, world.commands, b, aim) ==>
                found.Some? && found.value.0 == aim.end.application
      ensures Mute(world.env, |old(world.log)|) ==> found.None?
      ensures found.None? && world.env.report(|old(world.log)|) ==>
                Excused(world.env, world.log, |old(world.log)| + 1, world.clock >= old(world.clock) + 1000 * Window(),
                        settings.workaround)
      ensures var limit := old(world.clock) + world.env.delay(|old(world.log)| + 1) + 1000 * Window();
              NapsBy(old(world.naps), world.naps, limit)
    {
      hide World.Valid, Told, World.Traced, Witnessed, Accepted, After, Fresh, Logged, Helpful, Steady, Talkative, Runs,
        Mute, Excused, NapsBy, ValidTopology;
      found := None;
      NapsByNow(world.naps);
      if Mute(world.env, |world.log|) {
        MuteAt(world.env, |world.log|, |world.log| + 1);
      }
      ghost var since := |world.log|;
      if Finishing(since, world.commands, b, aim) {
        HelpfulAt(world.env, since, since);
        HelpfulAt(world.env, since, since + 1);
        EndsLater(world.env, since, since + 1, settings.workaround, aim);
      }
      var ok := world.Report(90);
      if ok {
        found := AskApplication(b, aim);
      }
    }

    /** The wait itself, and the report that the application moved. */
    method AskApplication(b: Target, ghost aim: Aim) returns (found: Option<(Target, string)>)
      requires Proper() && world.Valid() && Configured(world.mon)
      requires Restarting(world.mon, b.topology)
      modifies world`log, world`trace, world`stamps, world`mon, world`clock, world`naps
      ensures world.Valid() && old(world.trace) <= world.trace && old(world.log) <= world.log
      ensures Listened(old(world.mon), world.mon)
      ensures found.Some? ==> world.mon.verified == Some(Reading(found.value.1, found.value.0))
      ensures Finishing(|old(world.log)|, world.commands, b, aim) ==>
                found.Some? && found.value.0 == aim.end.application
      ensures Mute(world.env, |old(world.log)|) ==> found.None?
      ensures found.None? ==>
                Excused(world.env, world.log, |old(world.log)|, world.clock >= old(world.clock) + 1000 * Window(),
                        settings.workaround)
      ensures NapsBy(old(world.naps), world.naps, old(world.NextReading()) + 1000 * Window())
    {
      hide World.Valid, Told, World.Traced, Witnessed, Accepted, After, Fresh, Logged, IsApplication,
        SawSeveral, Looks, Helpful, Steady, Talkative, Runs, Mute, Heard, SingleReenumerated, ValidTopology;
      found := None;
      ghost var since := |world.log|;
      var answer := WaitForApplicationVersion(b.topology, Window(), aim.end);
      if Finishing(since, world.commands, b, aim) {
        HelpfulAt(world.env, since, |world.log|);
      }
      if answer.Some? {
        var application, version := answer.value.0, answer.value.2;
        var ok := true;
        if application.topology != b.topology {
          ok := world.Report(88);
        }
        if ok {
          found := Some((application, version));
        }
      }
    }

    method StoreVerifiedApplication(application: Target, version: string) returns (ok: bool)
      requires world.Valid() && world.mon.setup.device == settings.device
      requires world.mon.verified == Some(Reading(version, application))
      modifies world`log, world`disk, world`trace, world`stamps, world`mon
      ensures world.Valid() && old(world.trace) <= world.trace && old(world.log) <= world.log
      ensures world.mon == old(world.mon).(file := world.mon.file, wrote := world.mon.wrote)
      ensures ok ==> VerifiedOnDisk(world.mon.file, version, application, settings.device)
      ensures ok <==> ValidTopology(application.topology) && world.env.save(|old(world.log)|).Replaced?
    {
      hide *;
      var record := KnownDevice(application.topology, application.serial, Some(version), Some(settings.device),
        VerifiedApplication, None);
      VerifiedIsAllowed(world.mon, record, application, version);
      world.SavingFollows(record, 0);
      OnlyTopologyCounts(record);
      ok := world.SaveState(record, 0);
    }

    /**
     `_manual_serial_by_id_migration`: every paused consumer is retained exactly if a serial-by-id path is
     configured and the aliases that were found do not contain it.
     */
    method ManualSerialByIdMigration(pause: CulConsumerPause)
      returns (ok: bool, migrated: bool, ghost asked: seq<Probed>)
      requires world.Valid() && pause.retained == {}
      modifies world`log, world`clock, world`naps, world`probes, pause`retained
      ensures world.Valid() && old(world.log) <= world.log && world.probes == old(world.probes) + asked
      ensures pause.retained == (if ok && migrated then Members(pause.Addons()) else {})
      ensures ok ==> Moved(asked, settings.isSerialById, settings.device, migrated)
      ensures Helpful(world.env, |old(world.log)|) ==> ok
    {
      hide World.Valid, Told, World.Traced, Witnessed, Accepted, After, Fresh, Logged, SortedSet, Helpful;
      migrated, asked := false, [];
      ghost var since := |world.log|;
      if !settings.isSerialById {
        return true, false, [];
      }
      var raised, aliases;
      raised, ok, aliases, asked := WaitForSerialByIdAliases();
      if Helpful(world.env, since) {
        HelpfulAt(world.env, since, |world.log|);
      }
      if ok && (raised || settings.device !in aliases) {
        migrated := true;
        ok := world.Report(96);
        if ok {
          pause.RetainAddons(pause.Addons());
        }
      }
    }

    /**
     `_wait_for_serial_by_id_aliases`: the first non-empty answer of either source, or none before the
     deadline; `raised` (FlashError) is exactly that none came and both sources failed at least once. `!ok`
     is a failing progress report.
     */
    method WaitForSerialByIdAliases() returns (raised: bool, ok: bool, aliases: seq<Path>, ghost asked: seq<Probed>)
      requires world.Valid()
      modifies world`log, world`clock, world`naps, world`probes
      ensures world.Valid() && old(world.log) <= world.log && old(world.naps) <= world.naps
      ensures world.probes == old(world.probes) + asked
      ensures ok ==> AliasesFound(asked, aliases) && (raised <==> aliases == [] && BothFailed(asked))
      ensures ok && aliases == [] ==> world.clock >= old(world.NextReading()) + 15_000
      ensures forall k :: |old(world.naps)| <= k < |world.naps| ==>
                world.naps[k].at + world.naps[k].ms <= old(world.NextReading()) + 15_000
      ensures Helpful(world.env, |old(world.log)|) ==> ok
    {
      hide World.Valid, Told, World.Traced, Witnessed, Accepted, After, Fresh, Logged, Unanswered,
        SourceFailed, BothFailed, AliasesFound, Helpful;
      asked := [];
      NothingAsked();
      var now := world.Monotonic();
      var limit := now + ALIAS_WAIT_MS;
      ghost var mark := now;
      var localFailed, hostFailed, reported := false, false, false;
      while true
        invariant world.Valid() && old(world.log) <= world.log && world.clock >= mark && old(world.naps) <= world.naps
        invariant world.probes == old(world.probes) + asked && Unanswered(asked)
        invariant localFailed == SourceFailed(asked, false) && hostFailed == SourceFailed(asked, true)
        invariant forall k :: |old(world.naps)| <= k < |world.naps| ==> world.naps[k].at + world.naps[k].ms <= limit
        decreases limit - mark
      {
        aliases, localFailed, hostFailed, asked := AskBoth(localFailed, hostFailed, asked);
        if aliases != [] {
          return false, true, aliases, asked;
        }
        now := world.Monotonic();
        var remaining := limit - now;
        if remaining <= 0 {
          SilentMeans(asked);
          return localFailed && hostFailed, true, [], asked;
        }
        if !reported {
          if Helpful(world.env, |old(world.log)|) {
            HelpfulAt(world.env, |old(world.log)|, |world.log|);
          }
          var fine := world.Report(93);
          if !fine {
            return false, false, [], asked;
          }
          reported := true;
        }
        world.Sleep(Min(1000, remaining));
        mark := world.clock;
      }
    }

    /** The container's own view, then the host's if that has none. */
    method AskBoth(localFailed: bool, hostFailed: bool, ghost asked: seq<Probed>)
      returns (aliases: seq<Path>, localNow: bool, hostNow: bool, ghost all: seq<Probed>)
      requires world.Valid() && Unanswered(asked)
      requires localFailed == SourceFailed(asked, false) && hostFailed == SourceFailed(asked, true)
      modifies world`log, world`probes
      ensures world.Valid() && old(world.log) <= world.log
      ensures forall before :: old(world.probes) == before + asked ==> world.probes == before + all
      ensures if aliases == [] then Unanswered(all) else AliasesFound(all, aliases)
      ensures localNow == SourceFailed(all, false) && hostNow == SourceFailed(all, true)
    {
      hide World.Valid, Told, World.Traced, Witnessed, Accepted, After, Fresh, Logged, Unanswered,
        SourceFailed, AliasesFound;
      hostNow := hostFailed;
      var failed;
      aliases, failed, all := AskSource(false, asked);
      localNow := localFailed || failed;
      if aliases == [] {
        aliases, failed, all := AskSource(true, all);
        hostNow := hostNow || failed;
      }
    }

    /** One source; an error counts as no alias. */
    method AskSource(host: bool, ghost asked: seq<Probed>)
      returns (aliases: seq<Path>, failed: bool, ghost all: seq<Probed>)
      requires world.Valid() && Unanswered(asked)
      modifies world`log, world`probes
      ensures world.Valid() && old(world.log) <= world.log
      ensures exists answer :: world.probes == old(world.probes) + [answer] && all == asked + [answer]
      ensures if aliases == [] then Unanswered(all) else AliasesFound(all, aliases)
      ensures forall source :: SourceFailed(all, source) <==> SourceFailed(asked, source) || (source == host && failed)
    {
      hide World.Valid, Told, World.Traced, Witnessed, Accepted, After, Fresh, Logged, Unanswered,
        SourceFailed, AliasesFound;
      var answer := world.Aliases(host);
      AskedOnce(asked, host, answer);
      all := asked + [AliasCall(host, answer)];
      failed := answer.None?;
      aliases := if failed then [] else answer.value;
    }

    /** The probes of one planning call. */
    method LookAround(ghost steady: Snapshot) returns (views: Views)
      requires world.Valid()
      modifies world`log
      ensures world.Valid() && world.log == old(world.log) + Probing(views)
      ensures Shows(world.env, |old(world.log)|, |old(world.log)| + 4, world.commands, steady) ==>
                views == Fixed(steady, views.now)
    {
      hide World.Valid, Told, World.Traced, Witnessed, Accepted, After, Fresh, Logged;
      var application := world.Snapshot();
      var paired := world.Snapshot();
      var listing := world.Snapshot();
      var recheck := world.Snapshot();
      var now := world.UnixTime();
      views := Views(application, paired, listing, recheck, now);
    }

    lemma DiskIsFile()
      requires world.Valid()
      ensures world.disk == world.mon.file
    {
    }

    /** What `_plan` makes of the record and of the probes it takes after `before`. */
    method Resolve(consent: Option<Consent>, ghost aim: Aim, ghost since: nat)
      returns (known: Option<KnownDevice>, views: Views, r: Probe<Plan>, ghost before: seq<Call>)
      requires world.Valid()
      modifies world`log
      ensures world.Valid() && old(world.log) <= before && world.log == before + Probing(views)
      ensures known.None? || known == Load(world.mon.file)
      ensures r == PlanFor(views, known, settings.device, Window(), consent, false)
      ensures |world.log| == |old(world.log)| + 6
      ensures Hopeful(consent, since, world.commands, world.mon.file, aim) && |old(world.log)| == since + 2 ==>
                r == Ok(PlanOf(aim, world.mon.file))
    {
      hide *;
      DiskIsFile();
      ghost var hopeful := Hopeful(consent, since, world.commands, world.mon.file, aim) && |world.log| == since + 2;
      if hopeful {
        HopefulStarts(consent, since, world.commands, world.mon.file, aim);
        HopefulShows(consent, since, world.commands, world.mon.file, aim, 0);
      }
      ProbingIsShort();
      known := world.LoadState();
      before := world.log;
      views := LookAround(aim.begin.view);
      r := PlanFor(views, known, settings.device, Window(), consent, false);
      if hopeful {
        HopefulShows(consent, since, world.commands, world.mon.file, aim, views.now);
      }
    }

    lemma ProbingIsShort()
      ensures forall v :: |Probing(v)| == 5
    {
    }

    lemma SetUpWith(consent: Option<Consent>)
      ensures var setup := settings.With(consent);
              setup.device == settings.device && setup.consent == consent && setup.Window() == Window()
    {
    }

    /** `_plan` for a flash: never an unpaired bootloader unless the operator's consent is given. */
    method MakePlan(consent: Option<Consent>, ghost aim: Aim, ghost since: nat)
      returns (plan: Option<Plan>, ghost e: Event)
      requires world.Valid() && world.mon.setup == settings.With(consent) && world.mon.plan.None?
      requires world.mon.checked
      modifies world`log, world`trace, world`stamps, world`mon
      ensures world.Valid() && old(world.trace) <= world.trace && old(world.log) <= world.log
      ensures world.mon == old(world.mon).(plan := plan)
      ensures plan.Some? ==>
                && e.Planned? && e.plan == plan.value && PlannedBy(settings.With(consent), e)
                && Added(old(world.trace), world.trace, e, world.log, |old(world.log)|)
      ensures plan.Some? && plan.value.Application? ==> IsApplication(plan.value.target)
      ensures |world.log| == |old(world.log)| + 6
      ensures Hopeful(consent, since, world.commands, old(world.mon.file), aim) && |old(world.log)| == since + 2 ==>
                plan == Some(PlanOf(aim, old(world.mon.file)))
    {
      hide *;
      SetUpWith(consent);
      world.MarkIsPast();
      var known, views, r, before := Resolve(consent, aim, since);
      plan, e := None, Done;
      if r.Ok? {
        plan, e := Some(r.value), Planned(r.value, views, known);
        PlanIsAllowed(world.mon, views, known);
        PlanIsFresh(before, |old(world.log)|, r.value, views, known);
        world.EmitPlanned(before, r.value, views, known);
        OneAdded(old(world.trace), e, world.log, |old(world.log)|);
      }
    }

    /**
     `flash`. A normal return means that V answered after the last DFU command, that the verified
     record is on disk, and that exactly the paused add-ons minus the retained ones were seen started
     again. After a failure that came once consumers had to stay stopped, none was restarted; after
     an earlier one each paused add-on is back or reported; and if only starting them again failed, the
     verified record is on disk all the same. A course that nothing stands in the way of attempts its commands,
     and succeeds if the new firmware shows and answers; `aim` is only there to name it.
     */
    method Flash(consent: Option<Consent>, ghost aim: Aim) returns (outcome: Outcome)
      requires Proper() && world.Valid()
      modifies world
      ensures world.Valid() && old(world.trace) + [Begin(settings.With(consent))] <= world.trace
      ensures Current(world.trace) == world.trace[|old(world.trace)| + 1..]
      ensures forall e :: e in Current(world.trace) && e.Planned? && e.plan.ManualRecovery? ==>
                consent == Some(e.plan.consent)
      ensures outcome.Installed? ==> Succeeded(outcome, old(world.probes))
      ensures outcome.Installed? ==>
                forall s :: s in outcome.paused <==> PausedOnPurpose(world.mon, settings.additional, s)
      ensures outcome.Failed? && world.mon.done ==> OnlyRestoreFailed(outcome)
      ensures outcome.Failed? && world.mon.kept && !world.mon.done ==> world.mon.restored == []
      ensures outcome.Failed? && !world.mon.kept ==>
                && Untouched(world.mon)
                && forall s :: s in world.mon.stopped <==> s in world.mon.restored || s in outcome.unrestored
      ensures Hopeful(consent, |old(world.log)|, old(world.commands), old(world.disk), aim) ==>
                && world.mon.ran == AttemptedWith(aim.script.start)
                && (Ends(world.env, |old(world.log)|, settings.workaround, aim) ==> Finished(outcome, aim))
                && (Mute(world.env, |old(world.log)|) ==>
                      world.disk == FileOf(ObservedRecord(aim.b, settings.device)))
    {
      hide World.Valid, Told, World.Traced, Witnessed, Accepted, After, Fresh, Logged, VerifiedOnDisk,
        MayRestart, Written, Selected, Hopeful, Ends, Mute, FileOf;
      world.EmitBegin(settings.With(consent));
      outcome := PlanAndFlash(consent, aim);
      WholeRun(|old(world.trace)| + 1);
      DiskIsFile();
    }

    /** Everything since position `start` of the trace is one run, and its plan is the confirmed one. */
    lemma WholeRun(start: nat)
      requires world.Valid() && world.since == start
      ensures Current(world.trace) == world.trace[start..]
      ensures forall e :: e in Current(world.trace) ==> TraceLaws.ConfirmedBy(world.mon.setup, e)
    {
      hide Accepted, After;
      TraceLaws.SetupIsConfigured(world.origin, world.trace);
      TraceLaws.RunIsConfirmed(world.origin, world.trace);
    }

    /** `flash` once the lock is taken. */
    method PlanAndFlash(consent: Option<Consent>, ghost aim: Aim) returns (outcome: Outcome)
      requires Proper() && world.Valid() && world.mon == Boot(world.mon.file).(setup := settings.With(consent))
      modifies world`log, world`commands, world`disk, world`trace, world`stamps, world`mon, world`clock, world`naps,
        world`probes
      ensures world.Valid() && world.mon.setup == old(world.mon).setup
      ensures old(world.trace) <= world.trace && old(world.log) <= world.log
      ensures outcome.Installed? ==> Succeeded(outcome, old(world.probes))
      ensures outcome.Installed? ==>
                forall s :: s in outcome.paused <==> PausedOnPurpose(world.mon, settings.additional, s)
      ensures outcome.Failed? && world.mon.done ==> OnlyRestoreFailed(outcome)
      ensures outcome.Failed? && world.mon.kept && !world.mon.done ==> world.mon.restored == []
      ensures outcome.Failed? && !world.mon.kept ==>
                && Untouched(world.mon)
                && forall s :: s in world.mon.stopped <==> s in world.mon.restored || s in outcome.unrestored
      ensures Hopeful(consent, |old(world.log)|, old(world.commands), old(world.mon.file), aim) ==>
                && world.mon.ran == AttemptedWith(aim.script.start)
                && (Ends(world.env, |old(world.log)|, settings.workaround, aim) ==> Finished(outcome, aim))
                && (Mute(world.env, |old(world.log)|) ==>
                      world.mon.file == FileOf(ObservedRecord(aim.b, settings.device)))
    {
      hide World.Valid, Told, World.Traced, Witnessed, Accepted, After, Fresh, Logged, RecordIn, Without,
        Reverse, VerifiedOnDisk, MayRestart, Written, Selected, AttemptedWith, IsSmooth, Ends, Begins, Steady,
        Hopeful, Finished, BootloaderFor, Writable, Mute, FileOf;
      ghost var since, stage, file := |world.log|, world.commands, world.mon.file;
      var ok := CheckImage(consent, aim);
      if !ok {
        return Failed([]);
      }
      var plan, planned := MakePlan(consent, aim, since);
      if plan.None? {
        return Failed([]);
      }
      if Hopeful(consent, since, stage, file, aim) {
        HopefulGoes(consent, since, stage, file, aim);
        if Ends(world.env, since, settings.workaround, aim) {
          EndsLater(world.env, since, |world.log|, settings.workaround, aim);
        }
      }
      if Mute(world.env, since) {
        MuteAt(world.env, since, |world.log|);
      }
      outcome := PauseAndFlash(plan.value, aim);
    }

    /** The `with` block. */
    method PauseAndFlash(plan: Plan, ghost aim: Aim) returns (outcome: Outcome)
      requires Proper() && world.Valid() && (plan.Application? ==> IsApplication(plan.target))
      requires world.mon == Boot(world.mon.file).(setup := settings.With(world.mon.setup.consent), checked := true,
                                                       plan := Some(plan))
      modifies world`log, world`commands, world`disk, world`trace, world`stamps, world`mon, world`clock, world`naps,
        world`probes
      ensures world.Valid() && world.mon.setup == old(world.mon).setup
      ensures old(world.trace) <= world.trace && old(world.log) <= world.log
      ensures outcome.Installed? ==> Succeeded(outcome, old(world.probes))
      ensures outcome.Installed? ==>
                forall s :: s in outcome.paused <==> PausedOnPurpose(world.mon, settings.additional, s)
      ensures outcome.Failed? && world.mon.done ==> OnlyRestoreFailed(outcome)
      ensures outcome.Failed? && world.mon.kept && !world.mon.done ==> world.mon.restored == []
      ensures outcome.Failed? && !world.mon.kept ==>
                && Untouched(world.mon)
                && forall s :: s in world.mon.stopped <==> s in world.mon.restored || s in outcome.unrestored
      ensures IsSmooth(plan, |old(world.log)|, old(world.commands), aim)
              && Listable(world.env.addons(|old(world.log)|)) ==>
                && world.mon.ran == AttemptedWith(aim.script.start)
                && (Ends(world.env, |old(world.log)|, settings.workaround, aim) ==> Finished(outcome, aim))
                && (Mute(world.env, |old(world.log)|) ==>
                      world.mon.file == FileOf(ObservedRecord(aim.b, settings.device)))
    {
      hide World.Valid, Told, World.Traced, Witnessed, Accepted, After, Fresh, Logged, RecordIn, Without,
        Reverse, VerifiedOnDisk, MayRestart, Written, Selected, AttemptedWith, IsSmooth, Ends, Mute, FileOf;
      ghost var since := |world.log|;
      if IsSmooth(plan, since, world.commands, aim) {
        SmoothObeys(plan, since, since, world.commands, aim);
      }
      var pause, unrestored := supervisor.EnterPause(settings.additional);
      if pause == null {
        return Failed(unrestored);
      }
      if IsSmooth(plan, since, world.commands, aim) {
        SmoothLater(plan, since, |world.log|, world.commands, aim);
      }
      if Ends(world.env, since, settings.workaround, aim) {
        EndsLater(world.env, since, |world.log|, settings.workaround, aim);
      }
      if Mute(world.env, since) {
        MuteAt(world.env, since, |world.log|);
      }
      outcome := FlashPaused(plan, pause, aim);
    }

    /** `_revalidate_image` and the first report. */
    method CheckImage(consent: Option<Consent>, ghost aim: Aim) returns (ok: bool)
      requires world.Valid()
      modifies world`log, world`trace, world`stamps, world`mon
      ensures world.Valid() && old(world.trace) <= world.trace && old(world.log) <= world.log
      ensures world.mon == old(world.mon) || world.mon == old(world.mon).(checked := true)
      ensures ok ==> world.mon.checked && |world.log| == |old(world.log)| + 2
      ensures Hopeful(consent, |old(world.log)|, world.commands, old(world.mon.file), aim) ==> ok
    {
      hide *;
      if Hopeful(consent, |world.log|, world.commands, world.mon.file, aim) {
        HopefulStarts(consent, |world.log|, world.commands, world.mon.file, aim);
      }
      ok := world.ImageUnchanged();
      if ok {
        ok := world.Report(3);
      }
    }

    /** The body and the end of the `with` block. */
    method FlashPaused(plan: Plan, pause: CulConsumerPause, ghost aim: Aim) returns (outcome: Outcome)
      requires Proper() && world.Valid() && Configured(world.mon)
      requires Poised(world.mon, plan) && pause.restoreAfterError && pause.retained == {}
      requires world.mon.stopped == Members(pause.Addons()) && world.mon.restored == []
      modifies world`log, world`commands, world`disk, world`trace, world`stamps, world`mon, world`clock, world`naps,
        world`probes, pause`restoreAfterError, pause`retained
      ensures world.Valid() && old(world.trace) <= world.trace && old(world.log) <= world.log
      ensures world.mon.stopped == old(world.mon).stopped && world.mon.listed == old(world.mon).listed
      ensures world.mon.setup == old(world.mon).setup
      ensures outcome.Installed? ==>
                && Succeeded(outcome, old(world.probes))
                && outcome.paused == pause.Addons()
      ensures outcome.Failed? && world.mon.done ==> OnlyRestoreFailed(outcome)
      ensures outcome.Failed? && world.mon.kept && !world.mon.done ==> world.mon.restored == []
      ensures outcome.Failed? && !world.mon.kept ==>
                && Untouched(world.mon)
                && forall s :: s in world.mon.stopped <==> s in world.mon.restored || s in outcome.unrestored
      ensures IsSmooth(plan, |old(world.log)|, old(world.commands), aim) ==>
                && world.mon.ran == AttemptedWith(aim.script.start)
                && (Ends(world.env, |old(world.log)|, settings.workaround, aim) ==> Finished(outcome, aim))
                && (Mute(world.env, |old(world.log)|) ==>
                      world.mon.file == FileOf(ObservedRecord(aim.b, settings.device)))
    {
      hide World.Valid, Told, World.Traced, Witnessed, Accepted, After, Fresh, Logged, RecordIn, IsSmooth, KeptOf,
        Without, Reverse, SortedSet, VerifiedOnDisk, MayRestart, Written, Ends, Mute, FileOf,
        Obedient;
      ghost var smooth, since := IsSmooth(plan, |world.log|, world.commands, aim), |world.log|;
      ghost var stage := world.commands;
      var installed, start := FlashBody(plan, pause, aim);
      if smooth {
        SmoothObeys(plan, since, |world.log|, stage, aim);
      }
      ghost var addons, kept := pause.Addons(), pause.RetainedAddons();
      RetainedCases(addons, pause.retained);
      var ok, unrestored := supervisor.LeavePause(pause, installed.Some?);
      SettledPause(addons, kept, world.mon.restored, unrestored);
      DiskIsFile();
      if ok {
        outcome := Installed(installed.value, pause.Addons(), pause.RetainedAddons());
        assert Written(old(world.probes), world.probes, world.mon.ran, start, settings.isSerialById, settings.device,
                       installed.value.migrated);
      } else {
        outcome := Failed(unrestored);
      }
    }

    // -------------------------------------------------------------- the sibling runs

    /** `_set_led_after_verification`: no attempt follows one in which the command may have left. */
    method SetLedAfterVerification(tty: Path) returns (version: Option<string>)
      requires world.Valid() && Idle(world.mon) && MayTalk(world.mon) && LeadsTo(world.mon, tty)
      requires Untouched(world.mon)
      modifies world`log, world`trace, world`stamps, world`mon, world`clock, world`naps
      ensures world.Valid() && old(world.trace) <= world.trace && old(world.log) <= world.log
      ensures Talked(old(world.mon), world.mon) && world.mon.bound == old(world.mon).bound
      ensures version.Some? ==> world.mon.led && world.mon.verified == ReadingOf(old(world.mon), version.value)
      ensures version == LedWithin(world.env, |old(world.log)|, 3)
      ensures Seconds(old(world.naps), world.naps)
      ensures Talkative(world.env, |old(world.log)|) ==> version.Some?
    {
      hide World.Valid, Told, World.Traced, Witnessed, Accepted, After, Fresh, Logged, ReplyAt, CallsAt, Talkative;
      version := None;
      TalkativeReplies(world.env, |world.log|, VERSION_READ_ATTEMPTS);
      for attempt := 1 to VERSION_READ_ATTEMPTS + 1
        invariant world.Valid() && old(world.trace) <= world.trace && old(world.log) <= world.log
        invariant Talked(old(world.mon), world.mon) && world.mon.bound == old(world.mon).bound
        invariant !world.mon.led && version.None? && Seconds(old(world.naps), world.naps)
        invariant attempt <= VERSION_READ_ATTEMPTS ==>
                    LedWithin(world.env, |world.log|, VERSION_READ_ATTEMPTS + 1 - attempt)
                    == LedWithin(world.env, |old(world.log)|, VERSION_READ_ATTEMPTS)
        invariant attempt > VERSION_READ_ATTEMPTS ==>
                    LedWithin(world.env, |old(world.log)|, VERSION_READ_ATTEMPTS).None?
      {
        var started;
        started, version := LedAttempt(tty);
        if version.Some? || started {
          return;
        }
        if attempt != VERSION_READ_ATTEMPTS {
          world.Sleep(1000);
        }
      }
    }

    /** One session: V, then the LED command; `started` is whether the write may have left. */
    method LedAttempt(tty: Path) returns (started: bool, version: Option<string>)
      requires world.Valid() && Idle(world.mon) && MayTalk(world.mon) && LeadsTo(world.mon, tty)
      requires Untouched(world.mon)
      modifies world`log, world`trace, world`stamps, world`mon
      ensures world.Valid() && old(world.trace) <= world.trace && old(world.log) <= world.log
      ensures Talked(old(world.mon), world.mon) && world.mon.bound == old(world.mon).bound
      ensures world.mon.led == started
      ensures version.Some? ==> started && world.mon.verified == ReadingOf(old(world.mon), version.value)
      ensures var n, reply := |old(world.log)|, ReplyAt(world.env, |old(world.log)|);
              && started == reply.Some? && version == (if started && world.env.written(n + 2) then reply else None)
              && (!started ==> |world.log| == n + CallsAt(world.env, n))
    {
      hide World.Valid, Told, World.Traced, Witnessed, Accepted, After, Fresh, Logged;
      started, version := false, None;
      var isOpen := world.Open(tty);
      if isOpen {
        started, version := LedSession(tty);
        world.Close();
      }
    }

    method LedSession(tty: Path) returns (started: bool, version: Option<string>)
      requires world.Valid() && world.mon.tty == Some(tty) && MayTalk(world.mon) && LeadsTo(world.mon, tty)
      requires Untouched(world.mon)
      modifies world`log, world`trace, world`stamps, world`mon
      ensures world.Valid() && old(world.trace) <= world.trace && old(world.log) <= world.log
      ensures SameDevice(old(world.mon), world.mon) && world.mon.bound == old(world.mon).bound
      ensures world.mon.led == started
      ensures version.Some? ==> started && world.mon.verified == ReadingOf(old(world.mon), version.value)
      ensures var reply := world.env.reply(|old(world.log)|);
              && started == (reply.Some? && SerialIo.SupportsCulLedControl(reply.value))
              && version == (if started && world.env.written(|old(world.log)| + 1) then reply else None)
      ensures !started ==> |world.log| == |old(world.log)| + 1
    {
      hide World.Valid, Told, World.Traced, Witnessed, Accepted, After, Fresh, Logged;
      started := false;
      version := world.Version(tty);
      if version.Some? {
        started := true;
        var sent := world.SendLed(tty);
        if !sent {
          version := None;
        }
      }
    }

    /** The guarded body of `verify_running_application`, `set_led` and `diagnostics`. */
    method ErrandBody(errand: Errand, ghost begin: Beginning) returns (version: Option<string>)
      requires Proper() && world.Valid() && Configured(world.mon)
      requires Idle(world.mon) && MayTalk(world.mon) && Untouched(world.mon)
      modifies world`log, world`disk, world`trace, world`stamps, world`mon, world`clock, world`naps, world`probes
      ensures world.Valid() && old(world.trace) <= world.trace && old(world.log) <= world.log
      ensures SameRest(old(world.mon), world.mon) && world.mon.ran == old(world.mon).ran
      ensures Idle(world.mon) && (world.mon.led ==> errand.SetLed?)
      ensures version.Some? ==>
                && world.mon.bound.Some?
                && world.mon.verified == Some(Reading(version.value, world.mon.bound.value.direct))
                && VerifiedOnDisk(world.mon.file, version.value, world.mon.bound.value.direct, settings.device)
                && (errand.SetLed? ==> world.mon.led)
      ensures Serving(world.env, |old(world.log)|, world.commands, settings.device, begin) ==>
                && version.Some?
                && world.mon.bound == Some(Endpoint(begin.tty, begin.target, begin.direct))
    {
      hide World.Valid, Told, World.Traced, Witnessed, Accepted, After, Fresh, Logged, RecordIn, VerifiedOnDisk,
        Serving, Helpful, Obedient, Talkative, Steady, Appears, ValidTopology, Listable;
      ghost var since, served := |world.log|, Serving(world.env, |world.log|, world.commands, settings.device, begin);
      var endpoint;
      endpoint, version := Consult(errand, begin);
      if served {
        ServingAt(world.env, since, |world.log|, world.commands, settings.device, begin);
      }
      if version.Some? {
        var ok := StoreVerifiedApplication(endpoint.value.direct, version.value);
        if !ok {
          version := None;
        }
      }
    }

    /** Its endpoint and its sessions. */
    method Consult(errand: Errand, ghost begin: Beginning) returns (endpoint: Option<Endpoint>, version: Option<string>)
      requires Proper() && world.Valid() && Configured(world.mon)
      requires Idle(world.mon) && MayTalk(world.mon) && Untouched(world.mon)
      modifies world`log, world`trace, world`stamps, world`mon, world`clock, world`naps
      ensures world.Valid() && old(world.trace) <= world.trace && old(world.log) <= world.log
      ensures Talked(old(world.mon), world.mon) && (world.mon.led ==> old(world.mon).led || errand.SetLed?)
      ensures version.Some? ==>
                && endpoint.Some? && world.mon.bound == endpoint && (errand.SetLed? ==> world.mon.led)
                && world.mon.verified == Some(Reading(version.value, endpoint.value.direct))
      ensures Serving(world.env, |old(world.log)|, world.commands, settings.device, begin) ==>
                version.Some? && endpoint == Some(Endpoint(begin.tty, begin.target, begin.direct))
    {
      hide World.Valid, Told, World.Traced, Witnessed, Accepted, After, Fresh, Logged, Serving, Helpful, Obedient,
        Talkative, Steady, Appears, ValidTopology, Listable, LedThere;
      version := None;
      ghost var since, served := |world.log|, Serving(world.env, |world.log|, world.commands, settings.device, begin);
      if served {
        ServingAt(world.env, since, since, world.commands, settings.device, begin);
      }
      ghost var bound;
      endpoint, bound := ConfiguredEndpoint(None, begin);
      if served {
        ServingAt(world.env, since, |world.log|, world.commands, settings.device, begin);
      }
      if endpoint.Some? {
        version := Errands(errand, endpoint.value.tty);
      }
    }

    /** The serial sessions of an errand; diagnostics swallow everything but a session that fails to open. */
    method Errands(errand: Errand, tty: Path) returns (version: Option<string>)
      requires world.Valid() && Idle(world.mon) && MayTalk(world.mon) && LeadsTo(world.mon, tty)
      requires Untouched(world.mon)
      modifies world`log, world`trace, world`stamps, world`mon, world`clock, world`naps
      ensures world.Valid() && old(world.trace) <= world.trace && old(world.log) <= world.log
      ensures Talked(old(world.mon), world.mon) && world.mon.bound == old(world.mon).bound
      ensures world.mon.led ==> errand.SetLed?
      ensures version.Some? ==> world.mon.verified == ReadingOf(old(world.mon), version.value)
      ensures version.Some? ==> (errand.SetLed? ==> world.mon.led)
      ensures Talkative(world.env, |old(world.log)|) ==> version.Some?
    {
      hide World.Valid, Told, World.Traced, Witnessed, Accepted, After, Fresh, Logged, ReplyWithin, LedWithin,
        Talkative;
      ghost var since := |world.log|;
      match errand {
        case SetLed => version := SetLedAfterVerification(tty);
        case Verify => version := ReadVersion(tty);
        case Diagnose =>
          version := ReadVersion(tty);
          if Talkative(world.env, since) {
            TalkativeAt(world.env, since, |world.log|);
          }
          if version.Some? {
            var isOpen := world.Open(tty);
            if isOpen {
              world.Close();
            } else {
              version := None;
            }
          }
      }
    }

    /**
     `verify_running_application`, `set_led` and `diagnostics`: none of them touches the firmware, only
     `set_led` writes an LED command, and every consumer they paused is started again or reported. With the
     application in its place and nothing failing around it they succeed.
     */
    method Run(errand: Errand, ghost begin: Beginning) returns (version: Option<string>, unrestored: seq<Slug>)
      requires Proper() && world.Valid()
      modifies world
      ensures world.Valid() && old(world.trace) + [Begin(settings.With(None))] <= world.trace
      ensures Current(world.trace) == world.trace[|old(world.trace)| + 1..]
      ensures forall s :: s in world.mon.stopped ==> PausedOnPurpose(world.mon, settings.additional, s)
      ensures Untouched(world.mon) && !world.mon.kept && (world.mon.led ==> errand.SetLed?)
      ensures forall s :: s in world.mon.stopped <==> s in world.mon.restored || s in unrestored
      ensures version.Some? ==>
                && unrestored == [] && world.mon.bound.Some?
                && world.mon.verified == Some(Reading(version.value, world.mon.bound.value.direct))
                && VerifiedOnDisk(world.mon.file, version.value, world.mon.bound.value.direct, settings.device)
                && (errand.SetLed? ==> world.mon.led)
      ensures Serving(world.env, |old(world.log)|, old(world.commands), settings.device, begin) ==>
                && version.Some?
                && world.mon.bound == Some(Endpoint(begin.tty, begin.target, begin.direct))
    {
      hide World.Valid, Told, World.Traced, Witnessed, Accepted, After, Fresh, Logged, VerifiedOnDisk, Selected,
        Serving;
      world.EmitBegin(settings.With(None));
      version, unrestored := PauseAndRun(errand, begin);
      WholeRun(|old(world.trace)| + 1);
    }

    /** The same once the lock is taken. */
    method PauseAndRun(errand: Errand, ghost begin: Beginning) returns (version: Option<string>, unrestored: seq<Slug>)
      requires Proper() && world.Valid() && world.mon == Boot(world.mon.file).(setup := settings.With(None))
      modifies world`log, world`disk, world`trace, world`stamps, world`mon, world`clock, world`naps, world`probes
      ensures world.Valid() && old(world.trace) <= world.trace && old(world.log) <= world.log
      ensures forall s :: s in world.mon.stopped ==> PausedOnPurpose(world.mon, settings.additional, s)
      ensures Untouched(world.mon) && !world.mon.kept && (world.mon.led ==> errand.SetLed?)
      ensures forall s :: s in world.mon.stopped <==> s in world.mon.restored || s in unrestored
      ensures version.Some? ==>
                && unrestored == [] && world.mon.bound.Some?
                && world.mon.verified == Some(Reading(version.value, world.mon.bound.value.direct))
                && VerifiedOnDisk(world.mon.file, version.value, world.mon.bound.value.direct, settings.device)
                && (errand.SetLed? ==> world.mon.led)
      ensures Serving(world.env, |old(world.log)|, world.commands, settings.device, begin) ==>
                && version.Some?
                && world.mon.bound == Some(Endpoint(begin.tty, begin.target, begin.direct))
    {
      hide World.Valid, Told, World.Traced, Witnessed, Accepted, After, Fresh, Logged, RecordIn,
        VerifiedOnDisk, Without, Reverse, SortedSet, MayRestart, Selected, SelectedAs, Serving, Helpful, Obedient,
        Talkative, Steady, Appears, ValidTopology, Listable, LedThere, PausedAs, OfKind, EndpointOf, Added,
        SameIdentity;
      version, unrestored := None, [];
      ghost var since, served := |world.log|, Serving(world.env, |world.log|, world.commands, settings.device, begin);
      if served {
        ServingAt(world.env, since, since, world.commands, settings.device, begin);
      }
      var endpoint, bound := ConfiguredEndpoint(None, begin);
      if endpoint.None? {
        return;
      }
      if served {
        ServingAt(world.env, since, |world.log|, world.commands, settings.device, begin);
      }
      var pause;
      pause, unrestored := supervisor.EnterPause(settings.additional);
      if pause == null {
        return;
      }
      if served {
        ServingAt(world.env, since, |world.log|, world.commands, settings.device, begin);
      }
      version, unrestored := RunPaused(errand, pause, begin);
    }

    /** The `with` block of an errand. */
    method RunPaused(errand: Errand, pause: CulConsumerPause, ghost begin: Beginning)
      returns (version: Option<string>, unrestored: seq<Slug>)
      requires Proper() && world.Valid() && Configured(world.mon) && pause.restoreAfterError && pause.retained == {}
      requires Idle(world.mon) && MayTalk(world.mon) && Untouched(world.mon) && !world.mon.led
      requires !world.mon.kept && !world.mon.done
      requires world.mon.stopped == Members(pause.Addons()) && world.mon.restored == []
      modifies world`log, world`disk, world`trace, world`stamps, world`mon, world`clock, world`naps, world`probes
      ensures world.Valid() && old(world.trace) <= world.trace && old(world.log) <= world.log
      ensures world.mon.stopped == old(world.mon).stopped && world.mon.listed == old(world.mon).listed
      ensures Untouched(world.mon) && !world.mon.kept && (world.mon.led ==> errand.SetLed?)
      ensures forall s :: s in world.mon.stopped <==> s in world.mon.restored || s in unrestored
      ensures version.Some? ==>
                && unrestored == [] && world.mon.bound.Some?
                && world.mon.verified == Some(Reading(version.value, world.mon.bound.value.direct))
                && VerifiedOnDisk(world.mon.file, version.value, world.mon.bound.value.direct, settings.device)
                && (errand.SetLed? ==> world.mon.led)
      ensures Serving(world.env, |old(world.log)|, world.commands, settings.device, begin) ==>
                && version.Some?
                && world.mon.bound == Some(Endpoint(begin.tty, begin.target, begin.direct))
    {
      hide World.Valid, Told, World.Traced, Witnessed, Accepted, After, Fresh, Logged, RecordIn,
        VerifiedOnDisk, Without, Reverse, SortedSet, MayRestart, Serving, Helpful, Obedient, Talkative, Steady, Appears,
        ValidTopology, Listable;
      ghost var since, served := |world.log|, Serving(world.env, |world.log|, world.commands, settings.device, begin);
      RetainedCases(pause.Addons(), pause.retained);
      version := ErrandBody(errand, begin);
      if served {
        ServingAt(world.env, since, |world.log|, world.commands, settings.device, begin);
      }
      var ok;
      ok, unrestored := supervisor.LeavePause(pause, version.Some?);
      WithoutAll(pause.Addons());
      SettledPause(pause.Addons(), [], world.mon.restored, unrestored);
      if !ok {
        version := None;
      }
    }

    /** The course came to its end. */
    predicate Finished(outcome: Outcome, aim: Aim)
    {
      outcome.Installed? && outcome.installation.application == aim.end.application
    }

    /** The firmware is verified and on record, but not every paused add-on could be started again. */
    ghost predicate OnlyRestoreFailed(outcome: Outcome)
      requires outcome.Failed?
      reads world
    {
      && outcome.unrestored != [] && world.mon.verified.Some?
      && VerifiedOnDisk(world.disk, world.mon.verified.value.version, world.mon.verified.value.target, settings.device)
      && forall s :: s in world.mon.stopped <==> s in world.mon.restored || s in outcome.unrestored
    }

    /** What a normal return of `flash` guarantees. */
    ghost predicate Succeeded(outcome: Outcome, before: seq<Probed>)
      requires outcome.Installed?
      reads world
    {
      var done := outcome.installation;
      && world.mon.done && world.mon.verified == Some(Reading(done.version, done.application))
      && VerifiedOnDisk(world.disk, done.version, done.application, settings.device)
      && (exists start ::
            Written(before, world.probes, world.mon.ran, start, settings.isSerialById, settings.device, done.migrated))
      && world.mon.stopped == Members(outcome.paused)
      && outcome.retained == (if done.migrated then outcome.paused else [])
      && world.mon.restored == Reverse(Without(outcome.paused, outcome.retained))
    }
  }

  /** The two ways a restore phase is conclusive: nobody failed, or nobody was retained. */
  lemma SettledPause(addons: seq<Slug>, kept: seq<Slug>, restored: seq<Slug>, failures: seq<Slug>)
    ensures var wanted := Without(addons, kept);
            restored == Without(Reverse(wanted), failures) ==>
              && (failures == [] ==> restored == Reverse(wanted))
              && (kept == [] && failures == Without(Reverse(wanted), restored) ==>
                    forall s :: s in addons <==> s in restored || s in failures)
              && (kept == addons && failures == Without(Reverse(wanted), restored) ==> failures == [])
  {
    var wanted := Without(addons, kept);
    assert kept == addons ==> wanted == [] by {
      assert wanted != [] ==> wanted[0] in wanted;
    }
    WithoutAll(Reverse(wanted));
    WithoutAll(addons);
    if restored == Without(Reverse(wanted), failures) && failures == Without(Reverse(wanted), restored) {
      StoppedAreSettled(wanted, restored, failures);
    }
  }

  lemma RetainedCases(addons: seq<Slug>, retained: set<Slug>)
    ensures retained == {} ==> KeptOf(addons, retained) == []
    ensures retained == Members(addons) ==> KeptOf(addons, retained) == addons
  {
    if retained == {} {
      assert forall x :: x !in KeptOf(addons, retained);
    }
    if retained == Members(addons) {
      ListedAll(addons, retained);
    }
  }

  lemma {:induction false} ListedAll(xs: seq<Slug>, chosen: set<Slug>)
    requires forall x :: x in xs ==> x in chosen
    ensures KeptOf(xs, chosen) == xs
  {
    if xs != [] {
      ListedAll(xs[1..], chosen);
    }
  }

  /** The state file holds a verified record of this version and application, as far as text can be kept. */
  predicate VerifiedOnDisk(file: File, version: string, application: Target, device: Path)
  {
    var r := RecordIn(file);
    && r.Some? && r.value.binding == VerifiedApplication && RecordFor(r.value, application, device)
    && r.value.version == SafeText(Some(version), 512)
  }
}
