/**
 Everything the flasher cannot decide: USB, serial replies, dfu-programmer, the state file's disk,
 the clocks and the Supervisor. Each call consumes the next answer of an arbitrary oracle, so a
 statement about a method holds for every way these calls may answer or fail.

 The log holds every call of the process with its answer; the n-th call gets the n-th answer. Each event of
 the trace is stamped with the length of the log when it happened, and what it rests on was asked
 after the event before it.

 Clock readings are milliseconds. Time spent inside a probe shows at the next clock reading.
 */
module Environment {
  import opened Common
  import opened DeviceState
  import opened UsbTopology
  import opened Planner
  import opened Consumers
  import opened Protocol
  import SerialIo

  /** Outcome of the atomic replacement; removing the temporary file may still raise after it. */
  datatype SaveAnswer = Replaced | Refused | ReplacedThenRaised

  /** Outcome of one `_runner` call, or of the temporary file it needs. */
  datatype ToolAnswer =
    | OutputDirectoryMissing       // FileNotFoundError before the call
    | OutputUnavailable            // another OSError before the call
    | ToolMissing                  // FileNotFoundError from the call
    | TimedOut
    | Broken                       // OSError from the call
    | Completed(code: int, transcriptRead: bool)

  /**
   Answers by the number of the call; sysfs also by how many commands were called for so far, an add-on also by
   whether the last request it took from this process was to stop.
   */
  datatype Oracle = Oracle(
    usb: (nat, nat) -> Snapshot,
    unixTime: nat -> int,
    delay: nat -> nat,
    stateReadable: nat -> bool,
    save: nat -> SaveAnswer,
    report: nat -> bool,
    imageUnchanged: nat -> bool,
    open: nat -> bool,
    reply: nat -> Option<string>,
    written: nat -> bool,
    toolPresent: nat -> bool,
    tool: (nat, Command) -> ToolAnswer,
    addons: nat -> Option<seq<ListedAddon>>,
    lifecycle: (nat, string) -> bool,
    addonState: (nat, string, bool) -> Option<string>,
    localAliases: nat -> Option<seq<Path>>,
    hostAliases: nat -> Option<seq<Path>>)

  predicate Attempted(answer: ToolAnswer) { !answer.OutputDirectoryMissing? && !answer.OutputUnavailable? }

  predicate Succeeded(answer: ToolAnswer) { answer == Completed(0, true) }

  /** What a probe was asked and what it answered, for the probes whose answers decide a result. */
  datatype Probed = ToolCall(command: Command, answer: ToolAnswer) | AliasCall(host: bool, aliases: Option<seq<Path>>)

  function AfterCommand(m: Monitor, command: Command, clean: bool): Monitor
  {
    m.(ran := m.ran + [command], clean := clean, spoke := None, verified := None, bound := None)
  }

  /** A sleep: when it was requested and for how long. */
  datatype Nap = Nap(at: int, ms: nat)

  /** One call and its answer; `Other` is a call whose answer only decides how the code goes on. */
  datatype Call =
    | Looked(view: Snapshot)
    | Dated(now: int)
    | Timed
    | Slept(ms: nat)
    | Asked(probe: Probed)
    | Queried(slug: string, state: Option<string>)
    | Requested(slug: string, start: bool, ok: bool)
    | GotAddons(entries: Option<seq<ListedAddon>>)
    | Checked(ok: bool)
    | Opening(tty: Path, ok: bool)
    | GotReply(tty: Path, version: Option<string>)
    | Handed(tty: Path)
    | Other

  /** The n-th call answers as the oracle does after so many commands and with these add-ons stopped. */
  predicate Gives(env: Oracle, n: nat, commands: nat, stopped: set<string>, call: Call)
  {
    match call
    case Looked(view) => view == env.usb(n, commands)
    case Dated(now) => now == env.unixTime(n)
    case Asked(ToolCall(command, answer)) => answer == env.tool(n, command)
    case Asked(AliasCall(host, aliases)) => aliases == if host then env.hostAliases(n) else env.localAliases(n)
    case Queried(slug, state) => state == env.addonState(n, slug, slug in stopped)
    case Requested(slug, _, ok) => ok == env.lifecycle(n, slug)
    case GotAddons(entries) => entries == env.addons(n)
    case Checked(ok) => ok == env.imageUnchanged(n)
    case Opening(_, ok) => ok == env.open(n)
    case GotReply(_, version) => version == env.reply(n)
    case _ => true
  }

  /** How often B01 or a DFU command was called for, whether or not the call could be made. */
  function CommandsIn(log: seq<Call>): nat
  {
    if log == [] then 0 else CommandsIn(log[..|log| - 1]) + if IsCommand(log[|log| - 1]) then 1 else 0
  }

  /** The add-ons whose last accepted request was to stop. */
  function StoppedIn(log: seq<Call>): set<string>
  {
    if log == [] then {}
    else
      var before, last := StoppedIn(log[..|log| - 1]), log[|log| - 1];
      if last.Requested? && last.ok then (if last.start then before - {last.slug} else before + {last.slug})
      else before
  }

  predicate IsCommand(call: Call) { call.Handed? || (call.Asked? && call.probe.ToolCall?) }

  ghost predicate Genuine(env: Oracle, log: seq<Call>)
  {
    forall n :: 0 <= n < |log| ==> Gives(env, n, CommandsIn(log[..n]), StoppedIn(log[..n]), log[n])
  }

  /** The monotonic clock after these calls. */
  function ClockAfter(env: Oracle, log: seq<Call>): int
  {
    if log == [] then 0
    else
      var before, n := log[..|log| - 1], |log| - 1;
      match log[n]
      case Timed => ClockAfter(env, before) + env.delay(n)
      case Slept(ms) => ClockAfter(env, before) + ms + env.delay(n)
      case _ => ClockAfter(env, before)
  }

  function NapsIn(env: Oracle, log: seq<Call>): seq<Nap>
  {
    if log == [] then []
    else
      var before, last := log[..|log| - 1], log[|log| - 1];
      if last.Slept? then NapsIn(env, before) + [Nap(ClockAfter(env, before), last.ms)] else NapsIn(env, before)
  }

  function ProbesIn(log: seq<Call>): seq<Probed>
  {
    if log == [] then []
    else
      var before, last := log[..|log| - 1], log[|log| - 1];
      if last.Asked? then ProbesIn(before) + [last.probe] else ProbesIn(before)
  }

  /** How often sysfs was looked at. */
  function Looks(log: seq<Call>): nat
  {
    if log == [] then 0 else Looks(log[..|log| - 1]) + if log[|log| - 1].Looked? then 1 else 0
  }

  lemma LogGrows(env: Oracle, log: seq<Call>, call: Call)
    ensures CommandsIn(log + [call]) == CommandsIn(log) + if IsCommand(call) then 1 else 0
    ensures ProbesIn(log + [call]) == ProbesIn(log) + if call.Asked? then [call.probe] else []
    ensures StoppedIn(log + [call]) ==
            if call.Requested? && call.ok
            then (if call.start then StoppedIn(log) - {call.slug} else StoppedIn(log) + {call.slug})
            else StoppedIn(log)
    ensures Looks(log + [call]) == Looks(log) + if call.Looked? then 1 else 0
    ensures NapsIn(env, log + [call]) ==
            NapsIn(env, log) + if call.Slept? then [Nap(ClockAfter(env, log), call.ms)] else []
    ensures ClockAfter(env, log + [call]) ==
            ClockAfter(env, log) + (if call.Timed? || call.Slept? then env.delay(|log|) else 0)
            + if call.Slept? then call.ms else 0
  {
    assert (log + [call])[..|log|] == log;
  }

  lemma GenuineGrows(env: Oracle, log: seq<Call>, call: Call)
    requires Genuine(env, log) && Gives(env, |log|, CommandsIn(log), StoppedIn(log), call)
    ensures Genuine(env, log + [call])
  {
    hide Gives, CommandsIn, StoppedIn;
    var all := log + [call];
    assert all[..|log|] == log;
    assert forall n :: 0 <= n < |log| ==> all[..n] == log[..n] && all[n] == log[n];
  }

  /** The log is what the oracle answered, and the clock and the other records follow from it. */
  ghost predicate Told(env: Oracle, log: seq<Call>, commands: nat, clock: int, naps: seq<Nap>, probes: seq<Probed>)
  {
    && Genuine(env, log) && commands == CommandsIn(log) && clock == ClockAfter(env, log)
    && naps == NapsIn(env, log) && probes == ProbesIn(log)
  }

  lemma ToldGrows(env: Oracle, log: seq<Call>, commands: nat, clock: int, naps: seq<Nap>, probes: seq<Probed>,
                  call: Call)
    requires Told(env, log, commands, clock, naps, probes) && Gives(env, |log|, commands, StoppedIn(log), call)
    ensures Told(env, log + [call], commands + (if IsCommand(call) then 1 else 0),
                 clock + (if call.Timed? || call.Slept? then env.delay(|log|) else 0)
                 + (if call.Slept? then call.ms else 0),
                 naps + (if call.Slept? then [Nap(clock, call.ms)] else []),
                 probes + (if call.Asked? then [call.probe] else []))
  {
    hide Genuine, Gives;
    GenuineGrows(env, log, call);
    LogGrows(env, log, call);
  }

  // ---------------------------------------------------------------- what events rest on

  /** This call was made, and so answered, from position `since` on and before `until`. */
  ghost predicate Logged(log: seq<Call>, since: nat, until: nat, call: Call)
  {
    exists t :: since <= t < until <= |log| && log[t] == call
  }

  ghost predicate Saw(log: seq<Call>, since: nat, until: nat, view: Snapshot)
  {
    Logged(log, since, until, Looked(view))
  }

  ghost predicate Clocked(log: seq<Call>, since: nat, until: nat, now: int)
  {
    Logged(log, since, until, Dated(now))
  }

  lemma LoggedLater(log: seq<Call>, longer: seq<Call>, since: nat, until: nat, call: Call)
    requires Logged(log, since, |log|, call) && log <= longer && until <= since
    ensures Logged(longer, until, |longer|, call)
  {
    var t :| since <= t < |log| && log[t] == call;
    assert longer[t] == call;
  }

  lemma JustAnswered(before: seq<Call>, log: seq<Call>, since: nat, call: Call)
    requires log == before + [call] && since <= |before|
    ensures Logged(log, since, |log|, call)
  {
    assert log[|before|] == call;
  }

  /** The probes of one planning call, one after the other. */
  predicate SurveyedAt(log: seq<Call>, n: nat, v: Views)
  {
    && n + 5 <= |log|
    && log[n] == Looked(v.application) && log[n + 1] == Looked(v.paired) && log[n + 2] == Looked(v.listing)
    && log[n + 3] == Looked(v.recheck) && log[n + 4] == Dated(v.now)
  }

  ghost predicate Surveyed(log: seq<Call>, since: nat, until: nat, v: Views)
  {
    until <= |log| && exists n: nat :: since <= n && n + 5 <= until && SurveyedAt(log, n, v)
  }

  lemma SurveyedParts(log: seq<Call>, since: nat, until: nat, v: Views)
    requires Surveyed(log, since, until, v)
    ensures since + 5 <= until && Clocked(log, since, until, v.now)
    ensures Saw(log, since, until, v.application) && Saw(log, since, until, v.paired)
    ensures Saw(log, since, until, v.listing) && Saw(log, since, until, v.recheck)
  {
    var n: nat :| since <= n && n + 5 <= until && SurveyedAt(log, n, v);
    assert log[n] == Looked(v.application);
  }

  /** The last call before `until`. */
  predicate LastAsked(log: seq<Call>, until: nat, probe: Probed)
  {
    0 < until <= |log| && log[until - 1] == Asked(probe)
  }

  /** What `e` rests on was asked from `since` on and before `until`. */
  ghost predicate Fresh(log: seq<Call>, since: nat, until: nat, e: Event)
  {
    match e
    case Planned(_, v, _) => Surveyed(log, since, until, v)
    case Listed(entries) => Logged(log, since, until, GotAddons(Some(entries)))
    case Halted(slug, state) => Logged(log, since, until, Queried(slug, Some(state)))
    case Restored(slug) => Logged(log, since, until, Queried(slug, Some("started")))
    case Bound(_, first, second, third) =>
      Saw(log, since, until, first) && Saw(log, since, until, second) && Saw(log, since, until, third)
    case Revalidated => Logged(log, since, until, Checked(true))
    case Opened(tty) => Logged(log, since, until, Opening(tty, true))
    case Replied(tty, version) => Logged(log, since, until, GotReply(tty, Some(version)))
    case Saved(file, at) =>
      var r := RecordIn(file);
      r.Some? && r.value.binding == HandoffPending ==> Clocked(log, since, until, at)
    case Found(_, view, _) => Saw(log, since, until, view)
    case Located(_, _, view, node, _) => Saw(log, since, until, view) && Saw(log, since, until, node)
    case Ran(command, _, view) =>
      && Saw(log, since, until, view)
      && exists answer :: Attempted(answer) && LastAsked(log, until, ToolCall(command, answer))
    case Exited(command) => LastAsked(log, until, ToolCall(command, Completed(0, true)))
    case _ => true
  }

  lemma FreshLater(log: seq<Call>, longer: seq<Call>, since: nat, until: nat, e: Event)
    requires Fresh(log, since, until, e) && log <= longer
    ensures Fresh(longer, since, until, e)
  {
    forall call | Logged(log, since, until, call) ensures Logged(longer, since, until, call) {
      var t :| since <= t < until <= |log| && log[t] == call;
      assert longer[t] == call;
    }
    if e.Planned? {
      var n: nat :| since <= n && n + 5 <= until && SurveyedAt(log, n, e.views);
      assert SurveyedAt(longer, n, e.views);
    }
  }

  /** What was fresh before the last call still is. */
  lemma FreshNow(log: seq<Call>, longer: seq<Call>, since: nat, e: Event)
    requires Fresh(log, since, |log|, e) && log <= longer && e.Saved?
    ensures Fresh(longer, since, |longer|, e)
  {
    if Clocked(log, since, |log|, e.at) {
      LoggedLater(log, longer, since, since, Dated(e.at));
    }
  }

  /** The probes of one planning call, made just now. */
  lemma PlanIsFresh(before: seq<Call>, since: nat, plan: Plan, v: Views, known: Option<KnownDevice>)
    requires since <= |before|
    ensures var log := before + Probing(v); Fresh(log, since, |log|, Planned(plan, v, known))
  {
    var log, n := before + Probing(v), |before|;
    assert SurveyedAt(log, n, v);
  }

  function Probing(v: Views): seq<Call>
  {
    [Looked(v.application), Looked(v.paired), Looked(v.listing), Looked(v.recheck), Dated(v.now)]
  }

  /** One more event, resting on calls made since `since`. */
  ghost predicate Added(before: seq<Event>, after: seq<Event>, e: Event, log: seq<Call>, since: nat)
  {
    after == before + [e] && Fresh(log, since, |log|, e)
  }

  lemma OneAdded(before: seq<Event>, e: Event, log: seq<Call>, since: nat)
    requires Fresh(log, since, |log|, e)
    ensures Added(before, before + [e], e, log, since)
  {
  }

  lemma CalledNow(log: seq<Call>, longer: seq<Call>, since: nat, command: Command, target: Target, view: Snapshot,
                  answer: ToolAnswer)
    requires longer == log + [Asked(ToolCall(command, answer))] && Attempted(answer)
    requires Saw(log, since, |log|, view) && since <= |log|
    ensures Fresh(longer, since, |longer|, Ran(command, target, view))
  {
    LoggedLater(log, longer, since, since, Looked(view));
    assert LastAsked(longer, |longer|, ToolCall(command, answer));
  }

  /** The events of one dfu-programmer call. */
  function CommandEvents(command: Command, target: Target, view: Snapshot, answer: ToolAnswer): seq<Event>
  {
    if !Attempted(answer) then []
    else [Ran(command, target, view)] + if Succeeded(answer) then [Exited(command)] else []
  }

  /** The stamp of the event before the k-th one. */
  function StampBefore(stamps: seq<nat>, k: nat): nat
    requires k <= |stamps|
  {
    if k == 0 then 0 else stamps[k - 1]
  }

  /** Every event of this process, that is from `base` on, rests on calls made since the event before it. */
  ghost predicate Witnessed(log: seq<Call>, base: nat, trace: seq<Event>, stamps: seq<nat>)
  {
    && base <= |trace| == |stamps| && StampBefore(stamps, |stamps|) <= |log|
    && forall k :: base <= k < |trace| ==>
         StampBefore(stamps, k) <= stamps[k] && Fresh(log, StampBefore(stamps, k), stamps[k], trace[k])
  }

  lemma WitnessedLater(log: seq<Call>, longer: seq<Call>, base: nat, trace: seq<Event>, stamps: seq<nat>)
    requires Witnessed(log, base, trace, stamps) && log <= longer
    ensures Witnessed(longer, base, trace, stamps)
  {
    hide Fresh;
    forall k | base <= k < |trace| ensures Fresh(longer, StampBefore(stamps, k), stamps[k], trace[k]) {
      FreshLater(log, longer, StampBefore(stamps, k), stamps[k], trace[k]);
    }
  }

  lemma WitnessedGrows(log: seq<Call>, base: nat, trace: seq<Event>, stamps: seq<nat>, e: Event)
    requires Witnessed(log, base, trace, stamps) && Fresh(log, StampBefore(stamps, |stamps|), |log|, e)
    ensures Witnessed(log, base, trace + [e], stamps + [|log|])
  {
    hide Fresh;
    var all, events := stamps + [|log|], trace + [e];
    forall k | base <= k < |events|
      ensures StampBefore(all, k) <= all[k] && Fresh(log, StampBefore(all, k), all[k], events[k])
    {
      assert StampBefore(all, k) == StampBefore(stamps, k);
    }
  }

  /** From call `since` on, until the next command, sysfs shows `view`, and no time passes outside sleeps. */
  ghost predicate Steady(env: Oracle, since: nat, commands: nat, view: Snapshot)
  {
    forall t :: t >= since ==> env.usb(t, commands) == view && env.delay(t) == 0
  }

  /** From call `since` on this add-on takes every request, is down once stopped and runs once started. */
  ghost predicate Startable(env: Oracle, since: nat, slug: string)
  {
    forall t :: t >= since ==>
      && env.lifecycle(t, slug) && env.delay(t) == 0
      && env.addonState(t, slug, true) == Some("stopped") && env.addonState(t, slug, false) == Some("started")
  }

  ghost predicate Obedient(env: Oracle, since: nat) { forall slug :: Startable(env, since, slug) }

  lemma StartableAt(env: Oracle, since: nat, t: nat, slug: string)
    requires Startable(env, since, slug) && since <= t
    ensures env.lifecycle(t, slug) && env.delay(t) == 0 && Startable(env, t, slug)
    ensures env.addonState(t, slug, true) == Some("stopped") && env.addonState(t, slug, false) == Some("started")
  {
  }

  lemma ObedientAt(env: Oracle, since: nat, t: nat)
    requires Obedient(env, since) && since <= t
    ensures Obedient(env, t)
  {
    hide Startable;
    forall slug ensures Startable(env, t, slug) {
      StartableAt(env, since, t, slug);
    }
  }

  /** How USB and dfu-programmer behave during a firmware write that begins after `first` commands. */
  datatype Script = Script(first: nat, view: Snapshot, erase: ToolAnswer, flash: ToolAnswer, start: ToolAnswer)
  {
    function Answer(command: Command): ToolAnswer
    {
      match command
      case Erase => erase
      case FlashImage => flash
      case Start => start
    }
  }

  /** From call `since` on only the commands on bootloader `b` can fail, and each answers as in the script. */
  ghost predicate Cooperative(env: Oracle, since: nat, b: Target, script: Script)
  {
    && BootloaderFor(script.view, b.topology) == Ok(Some(b))
    && (forall k :: script.first <= k < script.first + 3 ==> Steady(env, since, k, script.view))
    && (forall t :: t >= since ==> env.report(t) && env.toolPresent(t))
    && (forall t, command :: t >= since ==> env.tool(t, command) == script.Answer(command))
  }

  lemma CooperativeLater(env: Oracle, since: nat, later: nat, b: Target, script: Script)
    requires Cooperative(env, since, b, script) && since <= later
    ensures Cooperative(env, later, b, script)
  {
    hide BootloaderFor;
    forall k | script.first <= k < script.first + 3 ensures Steady(env, later, k, script.view) {
      assert Steady(env, since, k, script.view);
    }
  }

  lemma SaveIsAllowed(m: Monitor, file: File, at: int)
    requires MaySave(m, Saved(file, at))
    ensures Allowed(m, Saved(file, at)) && Step(m, Saved(file, at)) == m.(file := file, wrote := true)
  {
    hide MaySave;
  }

  lemma {:induction false} CurrentIsSuffix(trace: seq<Event>)
    ensures Current(trace) == trace[|trace| - |Current(trace)|..]
  {
    if trace != [] && !trace[|trace| - 1].Begin? {
      CurrentIsSuffix(trace[..|trace| - 1]);
    }
  }

  class World {
    const env: Oracle
    ghost const origin: File
    ghost const base: nat
    var log: seq<Call>
    var commands: nat
    var clock: int
    var disk: File
    ghost var trace: seq<Event>
    ghost var stamps: seq<nat>
    ghost var since: nat
    ghost var mon: Monitor
    ghost var naps: seq<Nap>
    ghost var probes: seq<Probed>

    ghost predicate Valid()
      reads this
    {
      && Told(env, log, commands, clock, naps, probes) && Traced() && disk == mon.file
      && Witnessed(log, base, trace, stamps)
    }

    /** The trace is accepted, and from `since` on it is the present run. */
    ghost predicate Traced()
      reads this`trace, this`mon, this`since
    {
      && Accepted(Boot(origin), trace) && mon == After(Boot(origin), trace)
      && since <= |trace| && Current(trace) == trace[since..]
    }

    /** How long the log was at the last event. */
    ghost function Mark(): nat
      reads this`stamps
    {
      StampBefore(stamps, |stamps|)
    }

    lemma Parts()
      requires Valid()
      ensures Told(env, log, commands, clock, naps, probes) && Traced()
      ensures Witnessed(log, base, trace, stamps) && disk == mon.file
    {
    }

    lemma ClockIs()
      requires Valid()
      ensures clock == ClockAfter(env, log)
    {
    }

    lemma MarkIsPast()
      requires Valid()
      ensures Mark() <= |log|
    {
    }

    /** What the next reading of the monotonic clock will be. */
    function NextReading(): int
      reads this
    {
      clock + env.delay(|log|)
    }

    /** A process start: only the file of the crashed history `past` is left. */
    constructor (env: Oracle, disk: File, ghost origin: File, ghost past: seq<Event>)
      requires Accepted(Boot(origin), past) && disk == After(Boot(origin), past).file
      ensures Valid() && this.origin == origin && this.env == env && trace == past && this.disk == disk
      ensures mon == After(Boot(origin), past) && log == [] && commands == 0 && base == |past|
    {
      this.env := env;
      this.origin := origin;
      this.base := |past|;
      this.disk := disk;
      log, commands, clock := [], 0, 0;
      trace, stamps, naps, probes := past, seq(|past|, _ => 0), [], [];
      since := |past| - |Current(past)|;
      mon := After(Boot(origin), past);
      new;
      CurrentIsSuffix(past);
    }

    /** One more call that no other record follows. */
    method Note(call: Call)
      requires Valid() && Gives(env, |log|, commands, StoppedIn(log), call) && !call.Timed? && !call.Slept?
      requires !call.Asked? && !call.Handed?
      modifies this`log
      ensures Valid() && log == old(log) + [call]
    {
      hide Told, Traced, Witnessed, Gives, Fresh, IsCommand;
      Noted(call);
      NotCounted(call);
      log := log + [call];
    }

    lemma Noted(call: Call)
      requires Valid() && Gives(env, |log|, commands, StoppedIn(log), call)
      ensures Told(env, log + [call], commands + (if IsCommand(call) then 1 else 0),
                   clock + (if call.Timed? || call.Slept? then env.delay(|log|) else 0)
                   + (if call.Slept? then call.ms else 0),
                   naps + (if call.Slept? then [Nap(clock, call.ms)] else []),
                   probes + (if call.Asked? then [call.probe] else []))
      ensures Witnessed(log + [call], base, trace, stamps)
      ensures naps + [] == naps && probes + [] == probes
    {
      hide Told, Traced, Witnessed, Gives, Fresh, IsCommand;
      ToldGrows(env, log, commands, clock, naps, probes, call);
      WitnessedLater(log, log + [call], base, trace, stamps);
    }

    lemma NotCounted(call: Call)
      ensures IsCommand(call) <==> call.Handed? || (call.Asked? && call.probe.ToolCall?)
    {
    }

    /** One more call whose answer only decides how the code goes on. */
    method Pass()
      requires Valid()
      modifies this`log
      ensures Valid() && log == old(log) + [Other]
    {
      hide Told, Traced, Witnessed;
      Note(Other);
    }

    /** One more alias lookup. */
    method NoteLookup(host: bool, aliases: Option<seq<Path>>)
      requires Valid() && Gives(env, |log|, commands, StoppedIn(log), Asked(AliasCall(host, aliases)))
      modifies this`log, this`probes
      ensures Valid() && log == old(log) + [Asked(AliasCall(host, aliases))]
      ensures probes == old(probes) + [AliasCall(host, aliases)]
    {
      hide Told, Traced, Witnessed, Gives, Fresh, IsCommand;
      var call := Asked(AliasCall(host, aliases));
      Noted(call);
      NotCounted(call);
      log, probes := log + [call], probes + [AliasCall(host, aliases)];
    }

    /** One more DFU command. */
    method NoteTool(command: Command, answer: ToolAnswer)
      requires Valid() && Gives(env, |log|, commands, StoppedIn(log), Asked(ToolCall(command, answer)))
      modifies this`log, this`commands, this`probes
      ensures Valid() && log == old(log) + [Asked(ToolCall(command, answer))] && commands == old(commands) + 1
      ensures probes == old(probes) + [ToolCall(command, answer)]
    {
      hide Told, Traced, Witnessed, Gives, Fresh, IsCommand;
      var call := Asked(ToolCall(command, answer));
      Noted(call);
      NotCounted(call);
      log, commands, probes := log + [call], commands + 1, probes + [ToolCall(command, answer)];
    }

    /** B01 is on its way. */
    method NoteHanded(tty: Path)
      requires Valid() && Gives(env, |log|, commands, StoppedIn(log), Handed(tty))
      modifies this`log, this`commands
      ensures Valid() && log == old(log) + [Handed(tty)] && commands == old(commands) + 1
    {
      hide Told, Traced, Witnessed, Gives, Fresh, IsCommand;
      Noted(Handed(tty));
      NotCounted(Handed(tty));
      log, commands := log + [Handed(tty)], commands + 1;
    }

    ghost method Emit(e: Event)
      requires Valid() && !e.Saved? && !e.Begin? && Allowed(mon, e) && Fresh(log, Mark(), |log|, e)
      modifies this`trace, this`stamps, this`mon
      ensures Valid() && trace == old(trace) + [e] && mon == Step(old(mon), e)
    {
      hide Accepted, After, Witnessed, Step, Current, Allowed, Fresh, Genuine, Told, Boot;
      Grown(e);
      trace, stamps, mon := trace + [e], stamps + [|log|], Step(mon, e);
    }

    /** What holds after one more event. */
    lemma Grown(e: Event)
      requires Accepted(Boot(origin), trace) && mon == After(Boot(origin), trace) && Allowed(mon, e)
      requires Witnessed(log, base, trace, stamps) && Fresh(log, Mark(), |log|, e)
      ensures Accepted(Boot(origin), trace + [e]) && Step(mon, e) == After(Boot(origin), trace + [e])
      ensures Witnessed(log, base, trace + [e], stamps + [|log|])
      ensures Current(trace + [e]) == if e.Begin? then [] else Current(trace) + [e]
      ensures !e.Saved? ==> Step(mon, e).file == mon.file
    {
      FileStep(mon, e);
      hide Allowed, Step, Fresh;
      AcceptOne(Boot(origin), trace, e);
      WitnessedGrows(log, base, trace, stamps, e);
      assert (trace + [e])[..|trace|] == trace;
    }

    ghost method EmitBegin(setup: Setup)
      requires Valid() && MIN_TIMEOUT <= setup.timeout <= MAX_TIMEOUT
      modifies this`trace, this`stamps, this`mon, this`since
      ensures Valid() && trace == old(trace) + [Begin(setup)] && mon == Boot(disk).(setup := setup)
      ensures since == |trace|
    {
      hide Accepted, After, Witnessed, Current, Genuine, Told;
      Grown(Begin(setup));
      trace, stamps, mon := trace + [Begin(setup)], stamps + [|log|], Step(mon, Begin(setup));
      since := |trace|;
    }

    /** GET /addons, with the info of each add-on it names. */
    method ListAddons() returns (entries: Option<seq<ListedAddon>>)
      requires Valid() && !mon.chosen
      modifies this`log, this`trace, this`stamps, this`mon
      ensures Valid() && old(trace) <= trace && log == old(log) + [GotAddons(entries)]
      ensures entries == env.addons(|old(log)|)
      ensures mon == if entries.Some? then old(mon).(listed := entries) else old(mon)
    {
      hide Told, Traced, Witnessed, Fresh, Logged;
      MarkIsPast();
      entries := env.addons(|log|);
      Note(GotAddons(entries));
      if entries.Some? {
        JustAnswered(old(log), log, Mark(), GotAddons(entries));
        EmitListed(entries.value);
      }
    }

    ghost method EmitListed(entries: seq<ListedAddon>)
      requires Valid() && !mon.chosen && Logged(log, Mark(), |log|, GotAddons(Some(entries)))
      modifies this`trace, this`stamps, this`mon
      ensures Valid() && trace == old(trace) + [Listed(entries)] && mon == old(mon).(listed := Some(entries))
    {
      hide Told, Traced, Witnessed;
      Emit(Listed(entries));
    }

    ghost method EmitMatched(slugs: seq<string>)
      requires Valid() && MayMatch(mon, Matched(slugs))
      modifies this`trace, this`stamps, this`mon
      ensures Valid() && trace == old(trace) + [Matched(slugs)]
      ensures mon == old(mon).(chosen := true, matched := (set s | s in slugs), bound := None)
    {
      Emit(Matched(slugs));
    }

    /** A stopped add-on was reported in this state since the last event. */
    ghost method EmitHalted(slug: string, state: string)
      requires Valid() && slug in mon.stopped && Reached(Some(state), "stopped")
      requires Logged(log, Mark(), |log|, Queried(slug, Some(state)))
      modifies this`trace, this`stamps, this`mon
      ensures Valid() && old(trace) <= trace && mon == old(mon).(halted := old(mon).halted + {slug}, bound := None)
    {
      Emit(Halted(slug, state));
    }

    ghost method EmitResuming()
      requires Valid() && mon.tty.None?
      modifies this`trace, this`stamps, this`mon
      ensures Valid() && trace == old(trace) + [Resuming] && mon == old(mon).(resuming := true)
    {
      Emit(Resuming);
    }

    ghost method EmitRestored(slug: string)
      requires Valid() && MayRestart(mon, slug) && mon.resuming
      requires Logged(log, Mark(), |log|, Queried(slug, Some("started")))
      modifies this`trace, this`stamps, this`mon
      ensures Valid() && trace == old(trace) + [Restored(slug)]
      ensures mon == old(mon).(restored := old(mon).restored + [slug])
    {
      Emit(Restored(slug));
    }

    ghost method EmitKeptStopped()
      requires Valid() && mon.plan.Some? && !mon.done
      modifies this`trace, this`stamps, this`mon
      ensures Valid() && trace == old(trace) + [KeptStopped] && mon == old(mon).(kept := true)
    {
      Emit(KeptStopped);
    }

    ghost method EmitDone()
      requires Valid() && mon.verified.Some? && !mon.done
      modifies this`trace, this`stamps, this`mon
      ensures Valid() && trace == old(trace) + [Done] && mon == old(mon).(done := true)
    {
      Emit(Done);
    }

    /** POST /addons/{slug}/stop; an accepted request is on record before anything else happens. */
    method StopAddon(slug: string) returns (ok: bool)
      requires Valid() && slug in mon.matched && Untouched(mon) && !mon.kept && !mon.done && !mon.resuming
      modifies this`log, this`trace, this`stamps, this`mon
      ensures Valid() && old(trace) <= trace && log == old(log) + [Requested(slug, false, ok)]
      ensures ok == env.lifecycle(|old(log)|, slug)
      ensures mon == if ok then old(mon).(stopped := old(mon).stopped + {slug}, bound := None) else old(mon)
    {
      hide Told, Traced, Witnessed;
      ok := env.lifecycle(|log|, slug);
      Note(Requested(slug, false, ok));
      if ok {
        Emit(StopRequested(slug));
      }
    }

    /** POST /addons/{slug}/start. */
    method StartAddon(slug: string) returns (ok: bool)
      requires Valid() && MayRestart(mon, slug) && mon.resuming
      modifies this`log, this`trace, this`stamps, this`mon
      ensures Valid() && trace == old(trace) + [StartRequested(slug)] && mon == old(mon)
      ensures log == old(log) + [Requested(slug, true, ok)] && ok == env.lifecycle(|old(log)|, slug)
    {
      hide Told, Traced, Witnessed;
      ok := env.lifecycle(|log|, slug);
      Note(Requested(slug, true, ok));
      Emit(StartRequested(slug));
    }

    /** GET /addons/{slug}/info; `None` is SupervisorError. */
    method AddonState(slug: string) returns (state: Option<string>)
      requires Valid()
      modifies this`log
      ensures Valid() && log == old(log) + [Queried(slug, state)]
      ensures state == env.addonState(|old(log)|, slug, slug in StoppedIn(old(log)))
    {
      state := env.addonState(|log|, slug, slug in StoppedIn(log));
      Note(Queried(slug, state));
    }

    method Snapshot() returns (s: Snapshot)
      requires Valid()
      modifies this`log
      ensures Valid() && log == old(log) + [Looked(s)] && s == env.usb(|old(log)|, commands)
    {
      s := env.usb(|log|, commands);
      Note(Looked(s));
    }

    method UnixTime() returns (t: int)
      requires Valid()
      modifies this`log
      ensures Valid() && log == old(log) + [Dated(t)] && t == env.unixTime(|old(log)|)
    {
      t := env.unixTime(|log|);
      Note(Dated(t));
    }

    /** `which(dfu-programmer)`. */
    method ToolPresent() returns (present: bool)
      requires Valid()
      modifies this`log
      ensures Valid() && log == old(log) + [Other] && present == env.toolPresent(|old(log)|)
    {
      present := env.toolPresent(|log|);
      Pass();
    }

    /** `_revalidate_image`: the staged file still has the validated size and digest. */
    method ImageUnchanged() returns (ok: bool)
      requires Valid()
      modifies this`log, this`trace, this`stamps, this`mon
      ensures Valid() && old(trace) <= trace && log == old(log) + [Checked(ok)] && ok == env.imageUnchanged(|old(log)|)
      ensures mon == if ok then old(mon).(checked := true) else old(mon)
    {
      MarkIsPast();
      hide Told, Traced, Witnessed;
      ok := env.imageUnchanged(|log|);
      Note(Checked(ok));
      if ok {
        Emit(Revalidated);
      }
    }

    /** Serial-by-id aliases seen from the container, or from the host through the Supervisor. */
    method Aliases(host: bool) returns (aliases: Option<seq<Path>>)
      requires Valid()
      modifies this`log, this`probes
      ensures Valid() && old(log) <= log && probes == old(probes) + [AliasCall(host, aliases)]
    {
      aliases := if host then env.hostAliases(|log|) else env.localAliases(|log|);
      NoteLookup(host, aliases);
    }

    method Monotonic() returns (t: int)
      requires Valid()
      modifies this`log, this`clock
      ensures Valid() && log == old(log) + [Timed] && t == clock == old(NextReading())
      ensures clock == old(clock) + env.delay(|old(log)|)
    {
      hide Told, Traced, Witnessed, Genuine;
      Noted(Timed);
      clock := clock + env.delay(|log|);
      log, t := log + [Timed], clock;
    }

    method Sleep(ms: nat)
      requires Valid()
      modifies this`log, this`clock, this`naps
      ensures Valid() && log == old(log) + [Slept(ms)] && naps == old(naps) + [Nap(old(clock), ms)]
      ensures clock == old(clock) + ms + env.delay(|old(log)|)
    {
      hide Told, Traced, Witnessed, Genuine;
      Noted(Slept(ms));
      naps := naps + [Nap(clock, ms)];
      clock := clock + ms + env.delay(|log|);
      log := log + [Slept(ms)];
    }

    /** The progress callback; it may raise like any other call. */
    method Report(percent: nat) returns (ok: bool)
      requires Valid() && percent <= 100
      modifies this`log
      ensures Valid() && log == old(log) + [Other] && ok == env.report(|old(log)|)
    {
      ok := env.report(|log|);
      Pass();
    }

    /** `DeviceStateStore.load`: an unreadable file counts as no record. */
    method LoadState() returns (known: Option<KnownDevice>)
      requires Valid()
      modifies this`log
      ensures Valid() && log == old(log) + [Other]
      ensures known == if env.stateReadable(|old(log)|) then Load(disk) else None
    {
      known := if env.stateReadable(|log|) then Load(disk) else None;
      Pass();
    }

    /** This record may be saved, and a clock reading it rests on was taken since the last event. */
    ghost predicate MaySaveNow(record: KnownDevice, at: int)
      reads this
    {
      var e := Saved(FileOf(record), at);
      Savable(record) ==> MaySave(mon, e) && Fresh(log, Mark(), |log|, e)
    }

    lemma SavingFollows(record: KnownDevice, at: int)
      requires var e := Saved(FileOf(record), at);
               Savable(record) ==> MaySave(mon, e) && Fresh(log, Mark(), |log|, e)
      ensures MaySaveNow(record, at)
    {
    }

    lemma SavingIs(record: KnownDevice, at: int)
      requires MaySaveNow(record, at)
      ensures var e := Saved(FileOf(record), at);
              Savable(record) ==> MaySave(mon, e) && Fresh(log, Mark(), |log|, e)
    {
    }

    /** `DeviceStateStore.save`; `at` is the clock reading behind a deadline. */
    method SaveState(record: KnownDevice, ghost at: int) returns (ok: bool)
      requires Valid() && MaySaveNow(record, at)
      modifies this`log, this`disk, this`trace, this`stamps, this`mon
      ensures Valid() && old(trace) <= trace && old(log) <= log
      ensures mon == old(mon).(file := mon.file, wrote := mon.wrote)
      ensures || (!ok && mon == old(mon) && trace == old(trace))
              || (Savable(record) && mon.file == FileOf(record) && mon.wrote
                  && trace == old(trace) + [Saved(FileOf(record), at)])
      ensures ok <==> Savable(record) && env.save(|old(log)|).Replaced?
    {
      hide *;
      MarkIsPast();
      SavingIs(record, at);
      ghost var before := log;
      var answer := env.save(|log|);
      Pass();
      if !Savable(record) || answer.Refused? {
        return false;
      }
      FreshNow(before, log, Mark(), Saved(FileOf(record), at));
      Parts();
      disk := FileOf(record);
      EmitSaved(disk, at);
      ok := answer.Replaced?;
    }

    /** The file was just replaced. */
    ghost method EmitSaved(file: File, at: int)
      requires Told(env, log, commands, clock, naps, probes) && Traced() && disk == file
      requires Witnessed(log, base, trace, stamps)
      requires MaySave(mon, Saved(file, at)) && Fresh(log, Mark(), |log|, Saved(file, at))
      modifies this`trace, this`stamps, this`mon
      ensures Valid() && trace == old(trace) + [Saved(file, at)]
      ensures mon == old(mon).(file := file, wrote := true)
    {
      hide Accepted, After, Witnessed, MaySave, Fresh, Current, Allowed, Step, Genuine, Told, Boot;
      SaveIsAllowed(mon, file, at);
      Grown(Saved(file, at));
      trace, stamps, mon := trace + [Saved(file, at)], stamps + [|log|], mon.(file := file, wrote := true);
    }

    method Open(tty: Path) returns (ok: bool)
      requires Valid() && MayTalk(mon) && LeadsTo(mon, tty)
      modifies this`log, this`trace, this`stamps, this`mon
      ensures Valid() && old(trace) <= trace && log == old(log) + [Opening(tty, ok)] && ok == env.open(|old(log)|)
      ensures mon == if ok then old(mon).(tty := Some(tty), spoke := None, sessions := old(mon).sessions + 1)
                     else old(mon)
    {
      MarkIsPast();
      hide Told, Traced, Witnessed;
      ok := env.open(|log|);
      Note(Opening(tty, ok));
      if ok {
        EmitOpened(tty);
      }
    }

    ghost method EmitOpened(tty: Path)
      requires Valid() && MayTalk(mon) && LeadsTo(mon, tty) && Logged(log, Mark(), |log|, Opening(tty, true))
      modifies this`trace, this`stamps, this`mon
      ensures Valid() && trace == old(trace) + [Opened(tty)]
      ensures mon == old(mon).(tty := Some(tty), spoke := None, sessions := old(mon).sessions + 1)
    {
      hide Told, Traced, Witnessed;
      Emit(Opened(tty));
    }

    method Close()
      requires Valid()
      modifies this`trace, this`stamps, this`mon
      ensures Valid() && old(trace) <= trace && mon == old(mon).(tty := None, spoke := None)
    {
      Emit(Closed);
    }

    /** `CulSerial.version`, with the promise SerialIo.Version proves about every reply it returns. */
    method Version(tty: Path) returns (version: Option<string>)
      requires Valid() && mon.tty == Some(tty) && MayTalk(mon) && LeadsTo(mon, tty)
      modifies this`log, this`trace, this`stamps, this`mon
      ensures Valid() && old(trace) <= trace && log == old(log) + [GotReply(tty, env.reply(|old(log)|))]
      ensures version.Some? ==> SerialIo.SupportsCulLedControl(version.value)
      ensures var reply := env.reply(|old(log)|);
              version == if reply.Some? && SerialIo.SupportsCulLedControl(reply.value) then reply else None
      ensures mon == if version.Some? then old(mon).(spoke := version, verified := ReadingOf(old(mon), version.value))
                     else old(mon)
    {
      MarkIsPast();
      hide Told, Traced, Witnessed;
      version := env.reply(|log|);
      Note(GotReply(tty, version));
      if version.Some? && !SerialIo.SupportsCulLedControl(version.value) {
        version := None;
      }
      if version.Some? {
        EmitReplied(tty, version.value);
      }
    }

    ghost method EmitReplied(tty: Path, version: string)
      requires Valid() && mon.tty == Some(tty) && MayTalk(mon) && LeadsTo(mon, tty)
      requires Logged(log, Mark(), |log|, GotReply(tty, Some(version)))
      modifies this`trace, this`stamps, this`mon
      ensures Valid() && old(trace) <= trace
      ensures mon == old(mon).(spoke := Some(version), verified := ReadingOf(old(mon), version))
    {
      hide Told, Traced, Witnessed;
      Emit(Replied(tty, version));
    }

    /** `enter_bootloader`: the bytes count as sent whether or not the call returns normally. */
    method SendB01(tty: Path) returns (ok: bool)
      requires Valid() && MaySendB01(mon, SentB01(tty))
      modifies this`log, this`commands, this`trace, this`stamps, this`mon
      ensures Valid() && old(trace) <= trace && log == old(log) + [Handed(tty)] && commands == old(commands) + 1
      ensures mon == old(mon).(b01 := true, spoke := None, verified := None, bound := None)
      ensures ok == env.written(|old(log)|)
    {
      hide Told, Traced, Witnessed;
      EmitSentB01(tty);
      ok := env.written(|log|);
      NoteHanded(tty);
    }

    ghost method EmitSentB01(tty: Path)
      requires Valid() && MaySendB01(mon, SentB01(tty))
      modifies this`trace, this`stamps, this`mon
      ensures Valid() && trace == old(trace) + [SentB01(tty)]
      ensures mon == old(mon).(b01 := true, spoke := None, verified := None, bound := None)
    {
      hide Told, Traced, Witnessed, MaySendB01;
      Emit(SentB01(tty));
    }

    /** The dfu-programmer call with its output file; only calls that happen are attempts. */
    method RunTool(command: Command, target: Target, ghost view: Snapshot) returns (answer: ToolAnswer)
      requires Valid() && MayRun(mon, Ran(command, target, view)) && Saw(log, Mark(), |log|, view)
      modifies this`log, this`commands, this`trace, this`stamps, this`mon, this`probes
      ensures Valid() && |log| == |old(log)| + 1 && old(log) <= log && commands == old(commands) + 1
      ensures probes == old(probes) + [ToolCall(command, answer)]
      ensures answer == env.tool(|old(log)|, command)
      ensures trace == old(trace) + CommandEvents(command, target, view, answer)
      ensures mon == if Attempted(answer) then AfterCommand(old(mon), command, Succeeded(answer)) else old(mon)
    {
      hide Accepted, After, MayRun, Witnessed, Told, Traced;
      MarkIsPast();
      ghost var before := log;
      answer := env.tool(|log|, command);
      NoteTool(command, answer);
      if Attempted(answer) {
        CalledNow(before, log, Mark(), command, target, view, answer);
        EmitRan(command, target, view);
        if Succeeded(answer) {
          EmitExited(command);
        }
      }
    }

    ghost method EmitRan(command: Command, target: Target, view: Snapshot)
      requires Valid() && MayRun(mon, Ran(command, target, view))
      requires Fresh(log, Mark(), |log|, Ran(command, target, view))
      modifies this`trace, this`stamps, this`mon
      ensures Valid() && trace == old(trace) + [Ran(command, target, view)]
      ensures mon == AfterCommand(old(mon), command, false) && mon.ran == Before(command) + [command]
    {
      Emit(Ran(command, target, view));
    }

    ghost method EmitExited(command: Command)
      requires Valid() && mon.ran == Before(command) + [command]
      requires LastAsked(log, |log|, ToolCall(command, Completed(0, true)))
      modifies this`trace, this`stamps, this`mon
      ensures Valid() && trace == old(trace) + [Exited(command)] && mon == old(mon).(clean := true)
    {
      Emit(Exited(command));
    }

    /** The plan, bound to the probes behind it, made after `before`. */
    ghost method EmitPlanned(before: seq<Call>, plan: Plan, views: Views, known: Option<KnownDevice>)
      requires Valid() && MayPlan(mon, Planned(plan, views, known))
      requires log == before + Probing(views) && Mark() <= |before|
      modifies this`trace, this`stamps, this`mon
      ensures Valid() && trace == old(trace) + [Planned(plan, views, known)] && mon == old(mon).(plan := Some(plan))
    {
      hide Told, Traced, Witnessed, MayPlan, Fresh;
      PlanIsFresh(before, Mark(), plan, views, known);
      Emit(Planned(plan, views, known));
    }

    ghost method EmitBound(tty: Path, first: Snapshot, second: Snapshot, third: Snapshot, endpoint: Endpoint)
      requires Valid() && NothingAmbiguous(mon) && Untouched(mon) && mon.tty.None?
      requires EndpointOf(mon.setup.device, Bound(tty, first, second, third)) == Some(endpoint)
      requires Fresh(log, Mark(), |log|, Bound(tty, first, second, third))
      modifies this`trace, this`stamps, this`mon
      ensures Valid() && trace == old(trace) + [Bound(tty, first, second, third)]
      ensures mon == old(mon).(bound := Some(endpoint), sessions := 0)
    {
      Emit(Bound(tty, first, second, third));
    }

    ghost method EmitFound(target: Target, view: Snapshot, moved: bool)
      requires Valid() && MayFind(mon, Found(target, view, moved)) && Saw(log, Mark(), |log|, view)
      modifies this`trace, this`stamps, this`mon
      ensures Valid() && old(trace) <= trace && mon == old(mon).(boot := Some(target))
    {
      hide Told, Traced, Witnessed;
      Emit(Found(target, view, moved));
    }

    ghost method EmitLocated(target: Target, tty: Path, view: Snapshot, node: Snapshot, moved: bool)
      requires Valid() && MayLocate(mon, Located(target, tty, view, node, moved))
      requires Saw(log, Mark(), |log|, view) && Saw(log, Mark(), |log|, node)
      modifies this`trace, this`stamps, this`mon
      ensures Valid() && trace == old(trace) + [Located(target, tty, view, node, moved)]
      ensures mon == old(mon).(bound := Some(Endpoint(tty, target, target)), sessions := 0)
    {
      hide Told, Traced, Witnessed;
      Emit(Located(target, tty, view, node, moved));
    }

    method SendLed(tty: Path) returns (ok: bool)
      requires Valid() && Allowed(mon, SentLed(tty))
      modifies this`log, this`trace, this`stamps, this`mon
      ensures Valid() && old(trace) <= trace && old(log) <= log && mon == old(mon).(led := true)
      ensures ok == env.written(|old(log)|)
    {
      hide Told, Traced, Witnessed;
      Emit(SentLed(tty));
      ok := env.written(|log|);
      Pass();
    }
  }
}
