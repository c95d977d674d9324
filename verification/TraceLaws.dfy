/**
 What every accepted trace guarantees. Accepted traces are closed under prefixes, so each law
 holds at every point of every sequence of runs, wherever a crash cuts it.

 The laws speak of the trace alone: `Current` is the part of the present run, `SetupOf` what it was
 started with, `DiskAfter` the state file as the last replacement left it.
 */
module TraceLaws {
  import opened Common
  import opened DeviceState
  import opened UsbTopology
  import opened Planner
  import opened Consumers
  import opened Protocol

  // ---------------------------------------------------------------- reading a trace

  function DiskAfter(file: File, trace: seq<Event>): File
  {
    if trace == [] then file
    else
      var last := trace[|trace| - 1];
      if last.Saved? then last.file else DiskAfter(file, trace[..|trace| - 1])
  }

  function Commands(c: seq<Event>): seq<Command>
  {
    if c == [] then []
    else
      var rest, last := Commands(c[..|c| - 1]), c[|c| - 1];
      if last.Ran? then rest + [last.command] else rest
  }

  ghost predicate NothingDestructiveFrom(trace: seq<Event>, k: nat)
  {
    forall n :: k <= n < |trace| ==> !IsDestructive(trace[n])
  }

  /** Bytes to or from the device, or the opening of a session. */
  predicate IsSerial(e: Event) { e.Opened? || e.Replied? || e.SentB01? || e.SentLed? }

  /** What makes an endpoint outdated: a newer one, a pause, or a command that may change the device. */
  predicate Unsettles(e: Event)
  {
    e.Bound? || e.Located? || e.Matched? || e.StopRequested? || e.Halted? || IsDestructive(e)
  }

  /** Sessions opened in this part of a run. */
  function Opens(c: seq<Event>): nat
  {
    if c == [] then 0 else Opens(c[..|c| - 1]) + if c[|c| - 1].Opened? then 1 else 0
  }

  /** `endpoint` was settled on at `k`, is not outdated, and so many sessions were opened since. */
  ghost predicate SettledAt(c: seq<Event>, k: nat, device: Path, endpoint: Endpoint, sessions: nat)
  {
    && k < |c| && EndpointIn(device, c[k]) == Some(endpoint) && Opens(c[k..]) == sessions
    && forall n :: k < n < |c| ==> !Unsettles(c[n])
  }

  ghost predicate Settled(c: seq<Event>, device: Path, endpoint: Endpoint, sessions: nat)
  {
    exists k: nat :: SettledAt(c, k, device, endpoint, sessions)
  }

  /** `tty` is where the run found application `target`. */
  ghost predicate LedTo(before: seq<Event>, tty: Path, target: Target)
  {
    exists endpoint, sessions: nat ::
      && Settled(Current(before), SetupOf(before).device, endpoint, sessions)
      && endpoint.tty == tty && endpoint.direct == target
  }

  /** The application of `reading` gave its version at `k`, and nothing destructive happened since. */
  ghost predicate VouchedAt(trace: seq<Event>, k: nat, reading: Reading)
  {
    && k < |trace| && trace[k].Replied? && trace[k].version == reading.version
    && LedTo(trace[..k], trace[k].tty, reading.target) && NothingDestructiveFrom(trace, k)
  }

  ghost predicate Vouched(trace: seq<Event>, reading: Reading)
  {
    exists k: nat :: VouchedAt(trace, k, reading)
  }

  /** The same within the present run. */
  ghost predicate VouchedNow(trace: seq<Event>, reading: Reading)
  {
    exists k: nat :: |trace| - |Current(trace)| <= k && VouchedAt(trace, k, reading)
  }

  /** The session in which `tty` gave a version at `k` is still the open one. */
  ghost predicate InSessionAt(c: seq<Event>, k: nat, tty: Path)
  {
    && k < |c| && c[k].Replied? && c[k].tty == tty
    && forall n :: k < n < |c| ==> !c[n].Opened? && !c[n].Closed? && !IsDestructive(c[n])
  }

  ghost predicate InSession(c: seq<Event>, tty: Path) { exists k: nat :: InSessionAt(c, k, tty) }

  ghost predicate FoundAt(c: seq<Event>, k: nat, target: Target) { k < |c| && c[k].Found? && c[k].target == target }

  ghost predicate PlannedAt(c: seq<Event>, k: nat, plan: Plan) { k < |c| && c[k].Planned? && c[k].plan == plan }

  ghost predicate Has(c: seq<Event>, e: Event) { exists k :: 0 <= k < |c| && c[k] == e }

  // ---------------------------------------------------------------- the monitor reads the trace correctly

  lemma VouchedStep(trace: seq<Event>, reading: Reading, e: Event)
    requires !IsDestructive(e)
    ensures Vouched(trace, reading) ==> Vouched(trace + [e], reading)
    ensures VouchedNow(trace, reading) && !e.Begin? ==> VouchedNow(trace + [e], reading)
  {
    hide LedTo;
    var all := trace + [e];
    assert all[..|trace|] == trace;
    assert forall k :: 0 <= k < |trace| ==> all[..k] == trace[..k] && all[k] == trace[k];
    if Vouched(trace, reading) {
      var k: nat :| VouchedAt(trace, k, reading);
      assert VouchedAt(all, k, reading);
    }
    if VouchedNow(trace, reading) {
      var k: nat :| |trace| - |Current(trace)| <= k && VouchedAt(trace, k, reading);
      assert VouchedAt(all, k, reading);
    }
  }

  lemma Split(trace: seq<Event>) returns (init: seq<Event>, e: Event)
    requires trace != []
    ensures trace == init + [e] && init == trace[..|trace| - 1]
  {
    init, e := trace[..|trace| - 1], trace[|trace| - 1];
  }

  lemma {:induction false} FileIsLastSaved(file: File, trace: seq<Event>)
    ensures After(Boot(file), trace).file == DiskAfter(file, trace)
  {
    hide Step;
    if trace != [] {
      var init, e := Split(trace);
      FileIsLastSaved(file, init);
      FileStep(After(Boot(file), init), e);
    }
  }

  ghost predicate SessionReflects(m: Monitor, c: seq<Event>)
  {
    m.spoke.Some? ==> m.tty.Some? && InSession(c, m.tty.value)
  }

  lemma SessionStep(m: Monitor, c: seq<Event>, e: Event)
    requires SessionReflects(m, c) && (e.Replied? ==> m.tty == Some(e.tty))
    ensures SessionReflects(Step(m, e), if e.Begin? then [] else c + [e])
  {
    var m' := Step(m, e);
    if m'.spoke.Some? {
      if e.Replied? {
        assert InSessionAt(c + [e], |c|, e.tty);
      } else {
        var k: nat :| InSessionAt(c, k, m.tty.value);
        assert InSessionAt(c + [e], k, m.tty.value);
      }
    }
  }

  lemma {:induction false} SessionIsOpen(file: File, trace: seq<Event>)
    requires Accepted(Boot(file), trace)
    ensures SessionReflects(After(Boot(file), trace), Current(trace))
  {
    hide Step;
    if trace != [] {
      var init, e := Split(trace);
      SessionIsOpen(file, init);
      SessionStep(After(Boot(file), init), Current(init), e);
    }
  }

  lemma StoppedStep(m: Monitor, e: Event, slug: string)
    ensures slug in Step(m, e).stopped <==> !e.Begin? && (slug in m.stopped || e == StopRequested(slug))
  {
  }

  lemma {:induction false} StoppedWereRequested(file: File, trace: seq<Event>, slug: string)
    ensures slug in After(Boot(file), trace).stopped <==> Has(Current(trace), StopRequested(slug))
  {
    hide Step;
    if trace != [] {
      var init, e := Split(trace);
      StoppedWereRequested(file, init, slug);
      StoppedStep(After(Boot(file), init), e, slug);
      HasStep(Current(init), e, StopRequested(slug));
    }
  }

  lemma HasStep(c: seq<Event>, e: Event, wanted: Event)
    ensures Has(c + [e], wanted) <==> Has(c, wanted) || e == wanted
  {
    if Has(c, wanted) {
      var k :| 0 <= k < |c| && c[k] == wanted;
      assert (c + [e])[k] == wanted;
    }
    if e == wanted {
      assert (c + [e])[|c|] == wanted;
    }
  }

  /** The monitor's plain fields, read off the present run. */
  ghost predicate Reflects(m: Monitor, c: seq<Event>)
  {
    && m.ran == Commands(c)
    && (m.b01 <==> exists k :: 0 <= k < |c| && c[k].SentB01?)
    && (m.led <==> exists k :: 0 <= k < |c| && c[k].SentLed?)
    && (m.kept <==> exists k :: 0 <= k < |c| && c[k].KeptStopped?)
    && (m.done <==> exists k :: 0 <= k < |c| && c[k].Done?)
    && (m.wrote <==> exists k :: 0 <= k < |c| && c[k].Saved?)
    && (m.resuming <==> exists k :: 0 <= k < |c| && c[k].Resuming?)
    && (m.checked <==> exists k :: 0 <= k < |c| && c[k].Revalidated?)
  }

  lemma CommandsChange(m: Monitor, e: Event)
    ensures Step(m, e).ran == if e.Begin? then [] else if e.Ran? then m.ran + [e.command] else m.ran
  {
  }

  lemma B01Change(m: Monitor, e: Event)
    ensures Step(m, e).b01 <==> !e.Begin? && (m.b01 || e.SentB01?)
  {
  }

  lemma LedChange(m: Monitor, e: Event)
    ensures Step(m, e).led <==> !e.Begin? && (m.led || e.SentLed?)
  {
  }

  lemma KeptChange(m: Monitor, e: Event)
    ensures Step(m, e).kept <==> !e.Begin? && (m.kept || e.KeptStopped?)
  {
  }

  lemma DoneChange(m: Monitor, e: Event)
    ensures Step(m, e).done <==> !e.Begin? && (m.done || e.Done?)
  {
  }

  lemma WroteChange(m: Monitor, e: Event)
    ensures Step(m, e).wrote <==> !e.Begin? && (m.wrote || e.Saved?)
  {
  }

  lemma ResumingChange(m: Monitor, e: Event)
    ensures Step(m, e).resuming <==> !e.Begin? && (m.resuming || e.Resuming?)
  {
  }

  lemma CheckedChange(m: Monitor, e: Event)
    ensures Step(m, e).checked <==> !e.Begin? && (m.checked || e.Revalidated?)
  {
  }

  lemma ReflectsStep(m: Monitor, c: seq<Event>, e: Event)
    requires Reflects(m, c) && !e.Begin?
    ensures Reflects(Step(m, e), c + [e])
  {
    CommandsChange(m, e);
    B01Change(m, e);
    LedChange(m, e);
    KeptChange(m, e);
    DoneChange(m, e);
    WroteChange(m, e);
    ResumingChange(m, e);
    CheckedChange(m, e);
    hide Step;
    var all := c + [e];
    assert all[..|c|] == c;
    assert forall k :: 0 <= k < |c| ==> all[k] == c[k];
    assert all[|c|] == e;
  }

  lemma BeginReflects(m: Monitor, e: Event)
    requires e.Begin?
    ensures Reflects(Step(m, e), [])
  {
  }

  lemma {:induction false} MonitorReflects(file: File, trace: seq<Event>)
    ensures Reflects(After(Boot(file), trace), Current(trace))
  {
    hide Step;
    if trace != [] {
      var init, e := Split(trace);
      MonitorReflects(file, init);
      if e.Begin? {
        BeginReflects(After(Boot(file), init), e);
      } else {
        ReflectsStep(After(Boot(file), init), Current(init), e);
      }
    }
  }

  /** Plan, endpoint and bootloader of the monitor each stem from an event of the present run. */
  ghost predicate Originates(m: Monitor, c: seq<Event>)
  {
    && (m.plan.Some? ==> exists k: nat :: PlannedAt(c, k, m.plan.value))
    && (m.bound.Some? ==> Settled(c, m.setup.device, m.bound.value, m.sessions))
    && (m.boot.Some? ==> exists k: nat :: FoundAt(c, k, m.boot.value))
  }

  lemma OriginatesKept(m: Monitor, c: seq<Event>, e: Event)
    requires Originates(m, c)
    ensures m.plan.Some? ==> exists k: nat :: PlannedAt(c + [e], k, m.plan.value)
    ensures m.boot.Some? ==> exists k: nat :: FoundAt(c + [e], k, m.boot.value)
  {
    if m.plan.Some? {
      var k: nat :| PlannedAt(c, k, m.plan.value);
      assert PlannedAt(c + [e], k, m.plan.value);
    }
    if m.boot.Some? {
      var k: nat :| FoundAt(c, k, m.boot.value);
      assert FoundAt(c + [e], k, m.boot.value);
    }
  }

  lemma SettledKept(c: seq<Event>, e: Event, device: Path, endpoint: Endpoint, sessions: nat)
    requires Settled(c, device, endpoint, sessions) && !Unsettles(e)
    ensures Settled(c + [e], device, endpoint, sessions + if e.Opened? then 1 else 0)
  {
    hide EndpointIn;
    var all := c + [e];
    var k: nat :| SettledAt(c, k, device, endpoint, sessions);
    assert all[k..] == c[k..] + [e] && (c[k..] + [e])[..|c| - k] == c[k..];
    assert SettledAt(all, k, device, endpoint, sessions + if e.Opened? then 1 else 0);
  }

  lemma SettledNow(c: seq<Event>, e: Event, device: Path)
    requires EndpointIn(device, e).Some?
    ensures Settled(c + [e], device, EndpointIn(device, e).value, 0)
  {
    var all := c + [e];
    assert all[|c|..] == [e] && [e][..0] == [];
    assert SettledAt(all, |c|, device, EndpointIn(device, e).value, 0);
  }

  lemma OriginChange(m: Monitor, e: Event)
    ensures var n := Step(m, e);
            && n.plan == (if e.Begin? then None else if e.Planned? then Some(e.plan) else m.plan)
            && n.boot == (if e.Begin? then None else if e.Found? then Some(e.target) else m.boot)
            && n.setup == (if e.Begin? then e.setup else m.setup)
  {
  }

  lemma EndpointChange(m: Monitor, e: Event)
    ensures var n := Step(m, e);
            && n.bound == (if e.Begin? then None else if e.Bound? || e.Located? then EndpointIn(m.setup.device, e)
                           else if Unsettles(e) then None else m.bound)
            && n.sessions == (if e.Begin? || e.Bound? || e.Located? then 0
                              else if e.Opened? then m.sessions + 1 else m.sessions)
  {
  }

  lemma OriginatesStep(m: Monitor, c: seq<Event>, e: Event)
    requires Originates(m, c)
    ensures Originates(Step(m, e), if e.Begin? then [] else c + [e])
  {
    hide Step, Settled, EndpointIn;
    OriginChange(m, e);
    EndpointChange(m, e);
    OriginatesKept(m, c, e);
    if e.Planned? {
      assert PlannedAt(c + [e], |c|, e.plan);
    } else if e.Found? {
      assert FoundAt(c + [e], |c|, e.target);
    }
    if e.Bound? || e.Located? {
      if EndpointIn(m.setup.device, e).Some? {
        SettledNow(c, e, m.setup.device);
      }
    } else if m.bound.Some? && !e.Begin? && !Unsettles(e) {
      SettledKept(c, e, m.setup.device, m.bound.value, m.sessions);
    }
  }

  lemma {:induction false} MonitorOriginates(file: File, trace: seq<Event>)
    ensures Originates(After(Boot(file), trace), Current(trace))
  {
    hide Step;
    if trace != [] {
      var init, e := Split(trace);
      MonitorOriginates(file, init);
      OriginatesStep(After(Boot(file), init), Current(init), e);
    }
  }

  // ---------------------------------------------------------------- what a run was started with

  lemma SetupChange(m: Monitor, e: Event)
    ensures Step(m, e).setup == if e.Begin? then e.setup else m.setup
    ensures Allowed(m, e) && e.Begin? ==> MIN_TIMEOUT <= e.setup.timeout <= MAX_TIMEOUT
  {
  }

  /** The monitor works with the setup of the present run, whose boot timeout is within its bounds. */
  lemma {:induction false} SetupIsConfigured(file: File, trace: seq<Event>)
    requires Accepted(Boot(file), trace)
    ensures After(Boot(file), trace).setup == SetupOf(trace)
    ensures MIN_TIMEOUT <= SetupOf(trace).timeout <= MAX_TIMEOUT
  {
    hide Step, Allowed;
    if trace != [] {
      var init, e := Split(trace);
      SetupIsConfigured(file, init);
      SetupChange(After(Boot(file), init), e);
    }
  }

  /** This plan needs a confirmation, and it is the one the operator gave. */
  predicate ConfirmedBy(setup: Setup, e: Event)
  {
    e.Planned? && e.plan.ManualRecovery? ==> setup.consent == Some(e.plan.consent)
  }

  /**
   Every plan follows a check of the staged image and is the planner's answer for the configured device,
   timeout and consent of its run; so an unpaired bootloader is only ever used for the target the operator
   confirmed for this very run.
   */
  lemma PlansFollowTheSetup(file: File, trace: seq<Event>, i: nat)
    requires Accepted(Boot(file), trace) && i < |trace| && trace[i].Planned?
    ensures var setup := SetupOf(trace[..i]);
            && PlannedBy(setup, trace[i]) && ConfirmedBy(setup, trace[i])
            && (trace[i].plan.Recovery? ==> setup.consent.None?)
            && exists k :: 0 <= k < |Current(trace[..i])| && Current(trace[..i])[k].Revalidated?
  {
    AcceptedPrefix(Boot(file), trace, i);
    SetupIsConfigured(file, trace[..i]);
    MonitorReflects(file, trace[..i]);
    assert MayPlan(After(Boot(file), trace[..i]), trace[i]);
  }

  /** The same for the whole present run. */
  lemma {:induction false} RunIsConfirmed(file: File, trace: seq<Event>)
    requires Accepted(Boot(file), trace)
    ensures forall e :: e in Current(trace) ==> ConfirmedBy(SetupOf(trace), e)
  {
    if trace != [] {
      var init, e := Split(trace);
      RunIsConfirmed(file, init);
      if e.Planned? {
        PlansFollowTheSetup(file, trace, |init|);
      }
    }
  }

  /** Every record that is saved names the configured device. */
  lemma RecordsNameTheDevice(file: File, trace: seq<Event>, i: nat)
    requires Accepted(Boot(file), trace) && i < |trace| && trace[i].Saved?
    ensures var r := RecordIn(trace[i].file);
            r.Some? && r.value.configured == SafeDevicePath(Some(SetupOf(trace[..i]).device))
  {
    AcceptedPrefix(Boot(file), trace, i);
    SetupIsConfigured(file, trace[..i]);
    assert MaySave(After(Boot(file), trace[..i]), trace[i]);
  }

  // ---------------------------------------------------------------- who gave a version

  lemma VerifiedChange(m: Monitor, e: Event)
    ensures Step(m, e).verified ==
            if e.Replied? then ReadingOf(m, e.version)
            else if e.Begin? || IsDestructive(e) then None else m.verified
    ensures Allowed(m, e) && e.Replied? ==> LeadsTo(m, e.tty)
  {
  }

  /** The endpoint of the monitor is where the run found the application it leads to. */
  lemma EndpointLeads(file: File, trace: seq<Event>)
    requires Accepted(Boot(file), trace)
    ensures var m := After(Boot(file), trace);
            m.bound.Some? ==> LedTo(trace, m.bound.value.tty, m.bound.value.direct)
  {
    SetupIsConfigured(file, trace);
    MonitorOriginates(file, trace);
    hide Settled, Accepted;
  }

  lemma ReplyVouches(init: seq<Event>, e: Event, target: Target)
    requires e.Replied? && LedTo(init, e.tty, target)
    ensures Vouched(init + [e], Reading(e.version, target)) && VouchedNow(init + [e], Reading(e.version, target))
  {
    hide LedTo;
    var all := init + [e];
    assert all[..|init|] == init;
    assert VouchedAt(all, |init|, Reading(e.version, target));
  }

  /** The monitor's `verified` is a version an application gave this run, with nothing destructive since. */
  lemma {:induction false} VerifiedIsVouched(file: File, trace: seq<Event>)
    requires Accepted(Boot(file), trace)
    ensures var v := After(Boot(file), trace).verified;
            v.Some? ==> VouchedNow(trace, v.value) && Vouched(trace, v.value)
  {
    hide Step, Allowed, Vouched, VouchedNow, LedTo;
    if trace != [] {
      var init, e := Split(trace);
      var m := After(Boot(file), init);
      VerifiedIsVouched(file, init);
      VerifiedChange(m, e);
      if e.Replied? {
        EndpointLeads(file, init);
        ReplyVouches(init, e, m.bound.value.direct);
      } else if m.verified.Some? && !IsDestructive(e) {
        VouchedStep(init, m.verified.value, e);
      }
    }
  }

  /**
   Every session goes to a TTY where this run found an application, through the configured path or after the
   commands, by looks taken after all consumers had stopped and after the last destructive command.
   */
  lemma SessionsLeadToApplications(file: File, trace: seq<Event>, i: nat)
    requires Accepted(Boot(file), trace) && i < |trace| && IsSerial(trace[i])
    ensures exists target :: LedTo(trace[..i], trace[i].tty, target)
  {
    hide Accepted, Allowed, LedTo;
    AcceptedPrefix(Boot(file), trace, i);
    var m := After(Boot(file), trace[..i]);
    SerialLeads(m, trace[i]);
    EndpointLeads(file, trace[..i]);
    assert LedTo(trace[..i], trace[i].tty, m.bound.value.direct);
  }

  lemma SerialLeads(m: Monitor, e: Event)
    requires Allowed(m, e) && IsSerial(e)
    ensures LeadsTo(m, e.tty)
  {
  }

  lemma EndpointsNameTheTty(device: Path)
    ensures forall e: Event :: e.Bound? && EndpointOf(device, e).Some? ==> EndpointOf(device, e).value.tty == e.tty
  {
  }

  /** How the application of the new firmware was found. */
  ghost predicate LocationJustified(before: seq<Event>, e: Event, b: Target)
    requires e.Located?
  {
    var c := Current(before);
    && (exists k: nat :: FoundAt(c, k, b)) && [Erase, FlashImage] <= Commands(c)
    && IsApplication(e.target) && TtyFor(e.node, e.target.topology) == Ok(Some(e.tty))
    && (e.target.topology != b.topology ==> e.moved)
    && (e.moved ==> SetupOf(before).workaround && ApplicationTargets(e.view) == Ok([e.target]))
  }

  /**
   After the commands the application is one where the accepted bootloader was, or elsewhere only with the
   workaround and as the only one visible; and it is reached through its own TTY.
   */
  lemma LocationIsJustified(file: File, trace: seq<Event>, i: nat)
    requires Accepted(Boot(file), trace) && i < |trace| && trace[i].Located?
    ensures exists b :: LocationJustified(trace[..i], trace[i], b)
  {
    AcceptedPrefix(Boot(file), trace, i);
    var before, e := trace[..i], trace[i];
    MonitorReflects(file, before);
    MonitorOriginates(file, before);
    SetupIsConfigured(file, before);
    var b := After(Boot(file), before).boot.value;
    SingleAnswers(e.view, b.topology, "03eb", "204b");
    assert MayLocate(After(Boot(file), before), e);
    hide Accepted, Allowed;
    assert LocationJustified(before, e, b);
  }

  /** After a DFU command sessions go only to applications found after it. */
  lemma SessionsAfterCommandsAreLocated(file: File, trace: seq<Event>, i: nat)
    requires Accepted(Boot(file), trace) && i < |trace| && IsSerial(trace[i])
    ensures var c := Current(trace[..i]);
            Commands(c) != [] ==> exists k :: 0 <= k < |c| && c[k].Located? && c[k].tty == trace[i].tty
                                    && forall n :: k < n < |c| ==> !Unsettles(c[n])
  {
    hide Allowed, Accepted, Opens, EndpointOf;
    AcceptedPrefix(Boot(file), trace, i);
    var m := After(Boot(file), trace[..i]);
    SerialLeads(m, trace[i]);
    MonitorReflects(file, trace[..i]);
    MonitorOriginates(file, trace[..i]);
    EndpointsNameTheTty(m.setup.device);
    var c := Current(trace[..i]);
    var k: nat :| SettledAt(c, k, m.setup.device, m.bound.value, m.sessions);
    if c[k].Bound? && Commands(c) != [] {
      BindingsComeFirst(file, trace[..i], k);
    }
  }

  /** An endpoint is bound through the configured path only before anything destructive in its run. */
  lemma {:induction false} BindingsComeFirst(file: File, trace: seq<Event>, k: nat)
    requires Accepted(Boot(file), trace) && k < |Current(trace)| && Current(trace)[k].Bound?
    requires forall n :: k < n < |Current(trace)| ==> !IsDestructive(Current(trace)[n])
    ensures Commands(Current(trace)) == []
  {
    hide Allowed, Step;
    var init, e := Split(trace);
    if k == |Current(init)| {
      MonitorReflects(file, init);
      BindingIsUntouched(After(Boot(file), init), e);
    } else {
      assert Current(trace)[|Current(init)|] == e;
      assert forall n :: 0 <= n < |Current(init)| ==> Current(trace)[n] == Current(init)[n];
      BindingsComeFirst(file, init, k);
    }
    assert Current(trace)[..|Current(init)|] == Current(init);
  }

  lemma BindingIsUntouched(m: Monitor, e: Event)
    requires Allowed(m, e) && e.Bound?
    ensures m.ran == []
  {
  }

  // ---------------------------------------------------------------- write-ahead trust

  ghost predicate NothingDestructive(trace: seq<Event>) { NothingDestructiveFrom(trace, 0) }

  /** The application of `reading` is the one on record. */
  predicate RecordedFrom(r: KnownDevice, reading: Reading)
  {
    && r.version == SafeText(Some(reading.version), 512)
    && r.topology == reading.target.topology && r.serial == SafeText(reading.target.serial, 128)
  }

  /**
   At every point, a record that names a version is one that the recorded application itself gave, on the
   TTY it was found at, and neither B01 nor a DFU command was sent since; a record older than the trace counts
   as given at its start.
   */
  lemma {:induction false} WriteAheadTrust(file: File, trace: seq<Event>)
    requires Accepted(Boot(file), trace)
    ensures var disk := DiskAfter(file, trace);
            var r := RecordIn(disk);
            r.Some? && r.value.version.Some? ==>
              (exists reading :: RecordedFrom(r.value, reading) && Vouched(trace, reading))
              || (disk == file && NothingDestructive(trace))
  {
    hide Allowed, Step, RecordIn, SafeText, Vouched, VouchedNow, RecordedFrom;
    if trace != [] {
      var init, e := Split(trace);
      WriteAheadTrust(file, init);
      FileIsLastSaved(file, init);
      VerifiedIsVouched(file, init);
      var m := After(Boot(file), init);
      TrustStep(m, e);
      var r := RecordIn(DiskAfter(file, trace));
      if r.Some? && r.value.version.Some? {
        if e.Saved? {
          VouchedStep(init, m.verified.value, e);
        } else {
          assert !IsDestructive(e);
          if !(DiskAfter(file, init) == file && NothingDestructive(init)) {
            var reading :| RecordedFrom(r.value, reading) && Vouched(init, reading);
            VouchedStep(init, reading, e);
          }
        }
      }
    }
  }

  /** Destructive steps happen over an unversioned record, and only a verified version is saved. */
  lemma TrustStep(m: Monitor, e: Event)
    requires Allowed(m, e)
    ensures IsDestructive(e) ==> RecordIn(m.file).Some? && RecordIn(m.file).value.version.None?
    ensures e.Saved? && RecordIn(e.file).Some? && RecordIn(e.file).value.version.Some? ==>
              m.verified.Some? && RecordedFrom(RecordIn(e.file).value, m.verified.value)
  {
  }

  // ---------------------------------------------------------------- B01

  ghost predicate B01Justified(file: File, before: seq<Event>, tty: Path, target: Target, endpoint: Endpoint)
  {
    var c, device := Current(before), SetupOf(before).device;
    && endpoint.tty == tty && SameIdentity(target, endpoint.configured) && SameIdentity(target, endpoint.direct)
    && (exists k: nat, known :: PlannedAt(c, k, Application(target, known)))
    && Settled(c, device, endpoint, 1)
    && InSession(c, tty)
    && (exists k :: 0 <= k < |c| && c[k].Saved?)
    && (exists k :: 0 <= k < |c| && c[k].KeptStopped?)
    && PendingFor(DiskAfter(file, before), target, device)
    && (forall k :: 0 <= k < |c| ==> !c[k].SentB01?)
  }

  /**
   B01 is sent at most once a run, in the session that just gave a version, on a TTY whose identity
   equals the planned target through the configured path and through the node, in the first session since
   it was bound, after the run itself replaced the state file by a pending handoff of exactly that target and
   device and decided to keep consumers stopped.
   */
  lemma B01IsJustified(file: File, trace: seq<Event>, i: nat)
    requires Accepted(Boot(file), trace) && i < |trace| && trace[i].SentB01?
    ensures exists target, endpoint :: B01Justified(file, trace[..i], trace[i].tty, target, endpoint)
  {
    AcceptedPrefix(Boot(file), trace, i);
    var before := trace[..i];
    var m := After(Boot(file), before);
    FileIsLastSaved(file, before);
    SessionIsOpen(file, before);
    MonitorReflects(file, before);
    MonitorOriginates(file, before);
    SetupIsConfigured(file, before);
    var plan := m.plan.value;
    assert plan == Application(plan.target, plan.known);
    assert B01Justified(file, before, trace[i].tty, plan.target, m.bound.value);
  }

  /** The LED command is likewise sent at most once a run, in a session that gave a version. */
  lemma LedIsJustified(file: File, trace: seq<Event>, i: nat)
    requires Accepted(Boot(file), trace) && i < |trace| && trace[i].SentLed?
    ensures var c := Current(trace[..i]);
            && InSession(c, trace[i].tty)
            && (forall k :: 0 <= k < |c| ==> !c[k].SentLed?)
            && exists endpoint, sessions: nat ::
                 Settled(c, SetupOf(trace[..i]).device, endpoint, sessions) && endpoint.tty == trace[i].tty
  {
    AcceptedPrefix(Boot(file), trace, i);
    SessionIsOpen(file, trace[..i]);
    MonitorReflects(file, trace[..i]);
    MonitorOriginates(file, trace[..i]);
    SetupIsConfigured(file, trace[..i]);
  }

  // ---------------------------------------------------------------- DFU commands

  /** The commands of a run are always a prefix of erase, flash, start. */
  lemma {:induction false} CommandsAreInOrder(file: File, trace: seq<Event>)
    requires Accepted(Boot(file), trace)
    ensures After(Boot(file), trace).ran <= [Erase, FlashImage, Start]
    ensures Commands(Current(trace)) <= [Erase, FlashImage, Start]
  {
    hide Step;
    MonitorReflects(file, trace);
    if trace != [] {
      var init, e := Split(trace);
      CommandsAreInOrder(file, init);
      CommandsChange(After(Boot(file), init), e);
      OrderStep(After(Boot(file), init), e);
    }
  }

  lemma OrderStep(m: Monitor, e: Event)
    ensures Allowed(m, e) && e.Ran? ==> m.ran + [e.command] <= [Erase, FlashImage, Start]
  {
  }

  ghost predicate CleanReflects(m: Monitor, c: seq<Event>)
  {
    m.clean ==> m.ran != [] && Has(c, Exited(m.ran[|m.ran| - 1]))
  }

  lemma CleanChange(m: Monitor, e: Event)
    ensures Step(m, e).clean == if e.Begin? || e.Ran? then false else e.Exited? || m.clean
  {
  }

  lemma CleanStep(m: Monitor, c: seq<Event>, e: Event)
    requires CleanReflects(m, c) && (e.Exited? ==> m.ran == Before(e.command) + [e.command])
    ensures CleanReflects(Step(m, e), if e.Begin? then [] else c + [e])
  {
    hide Step;
    CleanChange(m, e);
    CommandsChange(m, e);
    if m.clean {
      HasStep(c, e, Exited(m.ran[|m.ran| - 1]));
    }
    if e.Exited? {
      HasStep(c, e, e);
    }
  }

  lemma {:induction false} CleanMeansExited(file: File, trace: seq<Event>)
    requires Accepted(Boot(file), trace)
    ensures CleanReflects(After(Boot(file), trace), Current(trace))
  {
    hide Step;
    if trace != [] {
      var init, e := Split(trace);
      CleanMeansExited(file, init);
      CleanStep(After(Boot(file), init), Current(init), e);
    }
  }

  /** Everything that holds when dfu-programmer is started on `target` with bootloader `b` accepted. */
  ghost predicate RunJustified(file: File, before: seq<Event>, e: Event, b: Target)
    requires e.Ran?
  {
    var c := Current(before);
    && (exists k: nat :: FoundAt(c, k, b))
    && (exists k :: 0 <= k < |c| && c[k].Saved?)
    && ObservedFor(DiskAfter(file, before), b, SetupOf(before).device)
    && IsBootloader(e.target) && e.target.topology == b.topology && Compatible(b.serial, e.target.serial)
    && BootloaderFor(e.view, b.topology) == Ok(Some(e.target))
    && (exists k :: 0 <= k < |c| && c[k].KeptStopped?)
    && Commands(c) == Before(e.command)
    && (e.command == FlashImage ==> Has(c, Exited(Erase)))
    && (e.command == Start ==> Has(c, Exited(FlashImage)))
  }

  /**
   Each command addresses a 03eb:2ff4 device just seen at the topology of the persisted
   observed-bootloader record, with a compatible serial; consumers are already kept stopped; and
   the previous command of the run returned 0.
   */
  lemma CommandIsJustified(file: File, trace: seq<Event>, i: nat)
    requires Accepted(Boot(file), trace) && i < |trace| && trace[i].Ran?
    ensures exists b :: RunJustified(file, trace[..i], trace[i], b)
  {
    hide Step;
    AcceptedPrefix(Boot(file), trace, i);
    var before := trace[..i];
    FileIsLastSaved(file, before);
    MonitorReflects(file, before);
    MonitorOriginates(file, before);
    CleanMeansExited(file, before);
    SetupIsConfigured(file, before);
    RunIsJustified(file, before, After(Boot(file), before), trace[i]);
  }

  lemma RunIsJustified(file: File, before: seq<Event>, m: Monitor, e: Event)
    requires e.Ran? && MayRun(m, e) && m.file == DiskAfter(file, before) && m.setup == SetupOf(before)
    requires Reflects(m, Current(before)) && Originates(m, Current(before)) && CleanReflects(m, Current(before))
    ensures RunJustified(file, before, e, m.boot.value)
  {
    hide EndpointOf, RecordIn;
    SingleAnswers(e.view, m.boot.value.topology, "03eb", "2ff4");
  }

  /** How the bootloader of a run was accepted: planned, or moved with the workaround enabled, and alone. */
  ghost predicate AcceptanceJustified(before: seq<Event>, e: Event, plan: Plan)
    requires e.Found?
  {
    var c := Current(before);
    && (exists k: nat :: PlannedAt(c, k, plan))
    && IsBootloader(e.target)
    && (if plan.Application? then exists k :: 0 <= k < |c| && c[k].SentB01?
        else Compatible(PlannedSerial(plan), e.target.serial))
    && (e.target.topology != plan.Topology() ==> e.moved)
    && (e.moved ==> SetupOf(before).workaround && BootloaderTargets(e.view) == Ok([e.target]))
  }

  lemma AcceptanceIsJustified(file: File, trace: seq<Event>, i: nat)
    requires Accepted(Boot(file), trace) && i < |trace| && trace[i].Found?
    ensures exists plan :: AcceptanceJustified(trace[..i], trace[i], plan)
  {
    AcceptedPrefix(Boot(file), trace, i);
    var before, e := trace[..i], trace[i];
    MonitorReflects(file, before);
    MonitorOriginates(file, before);
    SetupIsConfigured(file, before);
    var plan := After(Boot(file), before).plan.value;
    SingleAnswers(e.view, plan.Topology(), "03eb", "2ff4");
    hide Accepted;
    assert AcceptanceJustified(before, e, plan);
  }

  // ---------------------------------------------------------------- consumer restarts

  lemma {:induction false} CommandsEmpty(c: seq<Event>)
    ensures Commands(c) == [] <==> forall k :: 0 <= k < |c| ==> !c[k].Ran?
  {
    if c != [] {
      CommandsEmpty(c[..|c| - 1]);
      assert forall k :: 0 <= k < |c| - 1 ==> c[k] == c[..|c| - 1][k];
    }
  }

  ghost predicate RestartJustified(before: seq<Event>, slug: string)
  {
    var c := Current(before);
    && Has(c, StopRequested(slug))
    && (|| ((exists k :: 0 <= k < |c| && c[k].Done?) && exists reading :: VouchedNow(before, reading))
        || ((forall k :: 0 <= k < |c| ==> !c[k].KeptStopped?) && NothingDestructive(c)))
  }

  /**
   The Supervisor listed add-ons at `j`, and at `k` exactly the running consumers among them were matched,
   by their options or by the operator's list `additional`.
   */
  ghost predicate MatchedFrom(c: seq<Event>, j: nat, k: nat, additional: set<string>)
  {
    && j < k < |c| && c[j].Listed? && c[k].Matched?
    && forall s :: s in c[k].slugs <==> Selected(c[j].entries, |c[j].entries|, additional, s)
  }

  ghost predicate ListedAt(c: seq<Event>, j: nat, entries: seq<ListedAddon>) { j < |c| && c[j] == Listed(entries) }

  ghost predicate HaltedAt(c: seq<Event>, h: nat, slug: string) { h < |c| && c[h].Halted? && c[h].slug == slug }

  function SlugSet(slugs: seq<string>): set<string> { set s | s in slugs }

  /** What the monitor knows of consumers, read off the present run. */
  ghost predicate Selects(m: Monitor, c: seq<Event>)
  {
    && (m.listed.Some? ==> exists j: nat :: ListedAt(c, j, m.listed.value))
    && (m.chosen ==> exists j: nat, k: nat ::
          MatchedFrom(c, j, k, m.setup.additional) && m.matched == SlugSet(c[k].slugs))
    && (!m.chosen ==> m.matched == {})
    && (forall s :: s in m.halted ==> exists h: nat :: HaltedAt(c, h, s))
  }

  lemma SelectsKept(m: Monitor, c: seq<Event>, e: Event)
    requires Selects(m, c)
    ensures Selects(m, c + [e])
  {
    var all := c + [e];
    if m.listed.Some? {
      var j: nat :| ListedAt(c, j, m.listed.value);
      assert ListedAt(all, j, m.listed.value);
    }
    if m.chosen {
      var j: nat, k: nat :| MatchedFrom(c, j, k, m.setup.additional) && m.matched == SlugSet(c[k].slugs);
      assert all[j] == c[j] && all[k] == c[k];
      assert MatchedFrom(all, j, k, m.setup.additional);
    }
    forall s | s in m.halted ensures exists h: nat :: HaltedAt(all, h, s) {
      var h: nat :| HaltedAt(c, h, s);
      assert HaltedAt(all, h, s);
    }
  }

  lemma ConsumersChange(m: Monitor, e: Event)
    ensures var n := Step(m, e);
            && n.setup == (if e.Begin? then e.setup else m.setup)
            && n.listed == (if e.Begin? then None else if e.Listed? then Some(e.entries) else m.listed)
            && n.chosen == (!e.Begin? && (e.Matched? || m.chosen))
            && n.matched == (if e.Begin? then {} else if e.Matched? then SlugSet(e.slugs) else m.matched)
            && n.halted == (if e.Begin? then {} else if e.Halted? then m.halted + {e.slug} else m.halted)
  {
  }

  lemma SelectsStep(m: Monitor, c: seq<Event>, e: Event)
    requires Selects(m, c) && (e.Matched? ==> MayMatch(m, e))
    ensures Selects(Step(m, e), if e.Begin? then [] else c + [e])
  {
    hide Step, Selected;
    ConsumersChange(m, e);
    var all := c + [e];
    SelectsKept(m, c, e);
    if e.Listed? {
      assert ListedAt(all, |c|, e.entries);
    } else if e.Matched? {
      var j: nat :| ListedAt(c, j, m.listed.value);
      assert all[j] == c[j] && all[|c|] == e;
      assert MatchedFrom(all, j, |c|, m.setup.additional);
    } else if e.Halted? {
      assert HaltedAt(all, |c|, e.slug);
    }
  }

  lemma {:induction false} MonitorSelects(file: File, trace: seq<Event>)
    requires Accepted(Boot(file), trace)
    ensures Selects(After(Boot(file), trace), Current(trace))
  {
    hide Step, Selects;
    if trace == [] {
      NothingSelected(file);
    } else {
      var init, e := Split(trace);
      MonitorSelects(file, init);
      SelectsStep(After(Boot(file), init), Current(init), e);
    }
  }

  lemma NothingSelected(file: File)
    ensures Selects(Boot(file), [])
  {
  }

  /**
   A stop request goes only to an add-on that the Supervisor listed to this run as a running consumer of the
   radio, by its options or by the operator's list, and never once the device may have left its application.
   */
  lemma StopIsJustified(file: File, trace: seq<Event>, i: nat)
    requires Accepted(Boot(file), trace) && i < |trace| && trace[i].StopRequested?
    ensures var c := Current(trace[..i]);
            && (exists j: nat, k: nat ::
                  MatchedFrom(c, j, k, SetupOf(trace[..i]).additional) && trace[i].slug in c[k].slugs)
            && NothingDestructive(c) && forall k :: 0 <= k < |c| ==> !c[k].KeptStopped?
  {
    AcceptedPrefix(Boot(file), trace, i);
    MonitorSelects(file, trace[..i]);
    MonitorReflects(file, trace[..i]);
    CommandsEmpty(Current(trace[..i]));
    SetupIsConfigured(file, trace[..i]);
    hide MatchedFrom;
  }

  /**
   A consumer is only started again if this run stopped it, and either the run sent neither B01 nor
   a DFU command, or the device gave a version after the last of them and the run's body finished.
   In particular a run that failed after its uncertain transition restarts nobody.
   */
  lemma RestartIsJustified(file: File, trace: seq<Event>, i: nat)
    requires Accepted(Boot(file), trace) && i < |trace| && (trace[i].StartRequested? || trace[i].Restored?)
    ensures RestartJustified(trace[..i], trace[i].slug)
  {
    hide Accepted, Allowed, Boot;
    AcceptedPrefix(Boot(file), trace, i);
    var before := trace[..i];
    RestartIsAllowed(After(Boot(file), before), trace[i]);
    StoppedWereRequested(file, before, trace[i].slug);
    MonitorReflects(file, before);
    VerifiedIsVouched(file, before);
    hide Vouched, VouchedNow, Has, Reflects;
    RestartIsRead(After(Boot(file), before), before, trace[i].slug);
  }

  lemma RestartIsRead(m: Monitor, before: seq<Event>, slug: string)
    requires MayRestart(m, slug) && Reflects(m, Current(before)) && Has(Current(before), StopRequested(slug))
    requires m.verified.Some? ==> VouchedNow(before, m.verified.value)
    ensures RestartJustified(before, slug)
  {
    hide VouchedNow, Has;
    CommandsEmpty(Current(before));
  }

  lemma RestartIsAllowed(m: Monitor, e: Event)
    requires Allowed(m, e) && (e.StartRequested? || e.Restored?)
    ensures MayRestart(m, e.slug)
  {
  }

  // ---------------------------------------------------------------- serial sessions

  predicate IsRestart(e: Event) { e.StartRequested? || e.Restored? }

  ghost predicate ClosedAfter(c: seq<Event>, k: nat) { exists n :: k < n < |c| && c[n].Closed? }

  /** Restarts come after the restore phase began, and then no session is open. */
  ghost predicate Apart(m: Monitor, c: seq<Event>)
  {
    && ((exists k :: 0 <= k < |c| && IsRestart(c[k])) ==> m.resuming)
    && (m.resuming ==> m.tty.None?)
    && (m.tty.None? ==> forall k :: 0 <= k < |c| && c[k].Opened? ==> ClosedAfter(c, k))
  }

  lemma TtyChange(m: Monitor, e: Event)
    ensures Step(m, e).tty == if e.Opened? then Some(e.tty) else if e.Begin? || e.Closed? then None else m.tty
    ensures Allowed(m, e) && e.Opened? ==> !m.resuming
    ensures Allowed(m, e) && IsRestart(e) ==> m.resuming
    ensures Allowed(m, e) && e.Resuming? ==> m.tty.None?
  {
  }

  lemma ApartStep(m: Monitor, c: seq<Event>, e: Event)
    requires Apart(m, c) && Allowed(m, e)
    ensures Apart(Step(m, e), if e.Begin? then [] else c + [e])
  {
    TtyChange(m, e);
    ResumingChange(m, e);
    hide Step, Allowed;
    if !e.Begin? {
      var all := c + [e];
      assert forall k :: 0 <= k < |c| ==> all[k] == c[k];
      if Step(m, e).tty.None? {
        forall k | 0 <= k < |all| && all[k].Opened? ensures ClosedAfter(all, k) {
          if e.Closed? {
            assert all[|c|].Closed?;
          } else {
            assert ClosedAfter(c, k);
            var n :| k < n < |c| && c[n].Closed?;
            assert all[n].Closed?;
          }
        }
      }
    }
  }

  lemma {:induction false} SessionsAreApart(file: File, trace: seq<Event>)
    requires Accepted(Boot(file), trace)
    ensures Apart(After(Boot(file), trace), Current(trace))
  {
    hide Step, Allowed;
    if trace != [] {
      var init, e := Split(trace);
      SessionsAreApart(file, init);
      ApartStep(After(Boot(file), init), Current(init), e);
    }
  }

  /** All running consumers of the run were seen stopped, and none was started again. */
  ghost predicate ConsumersStopped(c: seq<Event>, additional: set<string>)
  {
    && (exists j: nat, k: nat ::
          MatchedFrom(c, j, k, additional) && forall s :: s in c[k].slugs ==> exists h: nat :: HaltedAt(c, h, s))
    && forall k :: 0 <= k < |c| ==> !IsRestart(c[k])
  }

  /**
   Exclusive serial ownership: a session is opened, and bytes cross it, only after every matched consumer
   was seen stopped and before any is started again.
   */
  lemma SerialIsExclusive(file: File, trace: seq<Event>, i: nat)
    requires Accepted(Boot(file), trace) && i < |trace| && IsSerial(trace[i])
    ensures ConsumersStopped(Current(trace[..i]), SetupOf(trace[..i]).additional)
  {
    AcceptedPrefix(Boot(file), trace, i);
    var before := trace[..i];
    var m := After(Boot(file), before);
    MonitorSelects(file, before);
    SessionsAreApart(file, before);
    SetupIsConfigured(file, before);
    assert ConsumersAway(m);
    hide Accepted, Allowed;
    var j: nat, k: nat :|
      MatchedFrom(Current(before), j, k, m.setup.additional) && m.matched == SlugSet(Current(before)[k].slugs);
    assert forall s :: s in Current(before)[k].slugs ==> s in m.halted;
  }

  /** And no session is open any more when a consumer is started again. */
  lemma RestartsFollowClosing(file: File, trace: seq<Event>, i: nat)
    requires Accepted(Boot(file), trace) && i < |trace| && IsRestart(trace[i])
    ensures forall k :: 0 <= k < |Current(trace[..i])| && Current(trace[..i])[k].Opened? ==>
            ClosedAfter(Current(trace[..i]), k)
  {
    AcceptedPrefix(Boot(file), trace, i);
    SessionsAreApart(file, trace[..i]);
  }

  /**
   A write whose effect is unknown is followed by silence: after B01 the run neither binds nor opens nor
   reads nor sends anything until it found a bootloader, after the LED command not at all.
   */
  lemma SilenceAfterWrites(file: File, trace: seq<Event>, i: nat)
    requires Accepted(Boot(file), trace) && i < |trace| && (IsSerial(trace[i]) || trace[i].Bound?)
    ensures var c := Current(trace[..i]);
            && (forall k :: 0 <= k < |c| ==> !c[k].SentLed?)
            && ((exists k :: 0 <= k < |c| && c[k].SentB01?) ==> exists k :: 0 <= k < |c| && c[k].Found?)
  {
    AcceptedPrefix(Boot(file), trace, i);
    var m := After(Boot(file), trace[..i]);
    assert NothingAmbiguous(m);
    hide Accepted, Allowed;
    MonitorReflects(file, trace[..i]);
    MonitorOriginates(file, trace[..i]);
    if m.boot.Some? {
      var k: nat :| FoundAt(Current(trace[..i]), k, m.boot.value);
      assert Current(trace[..i])[k].Found?;
    }
  }
}
