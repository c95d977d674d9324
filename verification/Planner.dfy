/**
 Target resolution, cul868_flasher/app/flasher.py:136-217,670-740,795-890.

 `_plan`, `status` and `preflight` are read-only decisions over what USB, the record and the
 clock answer. Each USB probe may see a different world, so a plan takes one snapshot a probe.
 */
module Planner {
  import opened Common
  import opened DeviceState
  import opened UsbTopology

  datatype Plan =
    | Application(target: Target, known: Option<KnownDevice>)
    | Recovery(record: KnownDevice, bootloader: Target)
    | ManualRecovery(consent: Consent, bootloader: Target)
  {
    function Topology(): string
    {
      match this
      case Application(t, _) => t.topology
      case Recovery(k, _) => k.topology
      case ManualRecovery(c, _) => c.topology
    }
  }

  /** What each probe of one planning call sees, and int(time()). */
  datatype Views = Views(application: Snapshot, paired: Snapshot, listing: Snapshot, recheck: Snapshot, now: int)

  datatype Status =
    | Running(topology: string) | InBootloader(topology: string) | Unpaired(consent: Consent) | Unavailable

  datatype Preflight = Preflight(mode: string, topology: string, consent: Option<Consent>)

  // ---------------------------------------------------------------- serial matching

  /** Lenient: an absent descriptor serial matches every other. Not transitive. */
  predicate Compatible(a: Option<string>, b: Option<string>) { a.None? || b.None? || a == b }

  /** `_handoff_descriptor_change_is_current`. */
  predicate HandoffCurrent(known: KnownDevice, now: int, window: int)
  {
    known.binding == HandoffPending && known.deadline.Some? && 0 <= known.deadline.value - now <= window
  }

  /** `_post_dfu_timeout`. */
  function PostDfuTimeout(bootTimeout: int): (window: int)
    ensures window >= 90 && window >= bootTimeout && (window == 90 || window == bootTimeout)
  {
    Max(bootTimeout, 90)
  }

  // ---------------------------------------------------------------- decisions

  predicate MatchesConfiguration(known: KnownDevice, device: Path) { known.configured == Some(device) }

  function ForConfiguration(known: Option<KnownDevice>, device: Path): Option<KnownDevice>
  {
    if known.Some? && MatchesConfiguration(known.value, device) then known else None
  }

  function BootloaderForKnown(s: Snapshot, known: KnownDevice, now: int, window: int): Probe<Option<Target>>
  {
    match BootloaderFor(s, known.topology)
    case Err => Err
    case Ok(None) => Ok(None)
    case Ok(Some(b)) =>
      if !Compatible(known.serial, b.serial) && !HandoffCurrent(known, now, window) then Err else Ok(Some(b))
  }

  /** `_single_unpaired_recovery_target`. */
  function SingleUnpaired(s: Snapshot): Probe<Option<Consent>>
  {
    match BootloaderTargets(s)
    case Err => Err
    case Ok(ts) =>
      if ts == [] then Ok(None) else if |ts| != 1 then Err else Ok(Some(Consent(ts[0].topology, ts[0].serial)))
  }

  /** `_manual_bootloader_for_target`: stricter than `Compatible`, a vanished serial is a change. */
  function ManualBootloader(s: Snapshot, expected: Consent): Probe<Target>
  {
    match BootloaderFor(s, expected.topology)
    case Err => Err
    case Ok(None) => Err
    case Ok(Some(b)) => if expected.serial.Some? && b.serial != expected.serial then Err else Ok(b)
  }

  function PlanFor(v: Views, known: Option<KnownDevice>, device: Path, window: int,
                   consent: Option<Consent>, allowUnpaired: bool): Probe<Plan>
  {
    match ConfiguredApplication(v.application, device)
    case Ok(target) => if consent.Some? then Err else Ok(Application(target, known))
    case Err =>
      if consent.Some? then
        match ManualBootloader(v.recheck, consent.value)
        case Ok(b) => Ok(ManualRecovery(consent.value, b))
        case Err => Err
      else
        var paired := ForConfiguration(known, device);
        var found := if paired.Some? then BootloaderForKnown(v.paired, paired.value, v.now, window) else Ok(None);
        if found.Ok? && found.value.Some? then Ok(Recovery(paired.value, found.value.value))
        else if !allowUnpaired then Err
        else
          match SingleUnpaired(v.listing)
          case Err => Err
          case Ok(None) => Err
          case Ok(Some(c)) =>
            match ManualBootloader(v.recheck, c)
            case Ok(b) => Ok(ManualRecovery(c, b))
            case Err => Err
  }

  function PreflightFor(v: Views, known: Option<KnownDevice>, device: Path, window: int): Probe<Preflight>
  {
    match PlanFor(v, known, device, window, None, true)
    case Err => Err
    case Ok(plan) =>
      if plan.Application? then Ok(Preflight("application", plan.Topology(), None))
      else if plan.ManualRecovery? then Ok(Preflight("manual-recovery", plan.Topology(), Some(plan.consent)))
      else Ok(Preflight("recovery", plan.Topology(), None))
  }

  function StatusFor(v: Views, known: Option<KnownDevice>, device: Path, window: int): Status
  {
    match ConfiguredApplication(v.application, device)
    case Ok(target) => Running(target.topology)
    case Err =>
      var paired := ForConfiguration(known, device);
      var found := if paired.Some? then BootloaderForKnown(v.paired, paired.value, v.now, window) else Ok(None);
      if found.Ok? && found.value.Some? then InBootloader(paired.value.topology)
      else
        match SingleUnpaired(v.listing)
        case Ok(Some(c)) => Unpaired(c)
        case _ => Unavailable
  }

  // ---------------------------------------------------------------- laws

  function Fixed(s: Snapshot, now: int): Views { Views(s, s, s, s, now) }

  lemma UnpairedIsConfirmed(s: Snapshot)
    requires Coherent(s)
    ensures var r := SingleUnpaired(s);
            r.Ok? && r.value.Some? ==> ManualBootloader(s, r.value.value) == Ok(BootloaderTargets(s).value[0])
  {
    if SingleUnpaired(s).Ok? && SingleUnpaired(s).value.Some? {
      ListedIsFound(s, "03eb", "2ff4", 0);
    }
  }

  /** On one fixed snapshot, record and clock, the page's status and the flash admission agree. */
  lemma StatusAgreesWithPreflight(s: Snapshot, now: int, known: Option<KnownDevice>, device: Path, window: int)
    requires Coherent(s)
    ensures var v := Fixed(s, now);
            PreflightFor(v, known, device, window) ==
            match StatusFor(v, known, device, window)
            case Running(topology) => Ok(Preflight("application", topology, None))
            case InBootloader(topology) => Ok(Preflight("recovery", topology, None))
            case Unpaired(consent) => Ok(Preflight("manual-recovery", consent.topology, Some(consent)))
            case Unavailable => Err
  {
    UnpairedIsConfirmed(s);
    hide SingleUnpaired, ManualBootloader, BootloaderForKnown, ConfiguredApplication, ForConfiguration,
      BootloaderTargets;
  }

  /** Handing the confirmed preflight target back to `_plan` reproduces its mode and topology. */
  lemma PreflightIsReplayable(s: Snapshot, now: int, known: Option<KnownDevice>, device: Path, window: int)
    requires Coherent(s) && PreflightFor(Fixed(s, now), known, device, window).Ok?
    ensures var v := Fixed(s, now);
            var preflight := PreflightFor(v, known, device, window).value;
            var plan := PlanFor(v, known, device, window, preflight.consent, false);
            && plan.Ok?
            && plan.value.Topology() == preflight.topology
            && (plan.value.Application? <==> preflight.mode == "application")
            && (plan.value.Recovery? <==> preflight.mode == "recovery")
            && (plan.value.ManualRecovery? <==> preflight.mode == "manual-recovery")
  {
    UnpairedIsConfirmed(s);
    hide SingleUnpaired, ManualBootloader, BootloaderForKnown, ConfiguredApplication, ForConfiguration,
      BootloaderTargets;
  }

  // ---------------------------------------------------------------- the decisions, exactly

  /** `b` is at the place of this record of the configured device, with its serial or inside the handoff window. */
  predicate Pairs(v: Views, record: KnownDevice, device: Path, window: int, b: Target)
  {
    && record.configured == Some(device)
    && BootloaderFor(v.paired, record.topology) == Ok(Some(b))
    && (|| record.serial.None? || b.serial.None? || record.serial.value == b.serial.value
        || (record.binding.HandoffPending? && record.deadline.Some?
            && v.now <= record.deadline.value <= v.now + window))
  }

  ghost predicate Unpairable(v: Views, known: Option<KnownDevice>, device: Path, window: int)
  {
    known.Some? ==> forall b :: !Pairs(v, known.value, device, window, b)
  }

  /** The only bootloader there is, as the operator is asked about it. */
  ghost predicate LoneBootloader(s: Snapshot, c: Consent)
  {
    exists t: Target :: BootloaderTargets(s) == Ok([t]) && c.topology == t.topology && c.serial == t.serial
  }

  lemma SingleUnpairedExactly(s: Snapshot)
    ensures forall c :: SingleUnpaired(s) == Ok(Some(c)) <==> LoneBootloader(s, c)
    ensures SingleUnpaired(s) == Ok(None) <==> BootloaderTargets(s) == Ok([])
  {
    var ts := BootloaderTargets(s);
    if ts.Ok? && |ts.value| == 1 {
      assert ts.value == [ts.value[0]];
    }
  }

  lemma PairingExactly(v: Views, known: Option<KnownDevice>, device: Path, window: int)
    ensures var paired := ForConfiguration(known, device);
            var found := if paired.Some? then BootloaderForKnown(v.paired, paired.value, v.now, window) else Ok(None);
            && (found.Ok? && found.value.Some? ==>
                  paired == known && known.Some? && Pairs(v, known.value, device, window, found.value.value))
            && (found.Ok? && found.value.Some? <==> !Unpairable(v, known, device, window))
            && forall b :: known.Some? && Pairs(v, known.value, device, window, b) ==> found == Ok(Some(b))
  {
    hide BootloaderFor;
  }

  /**
   The status: the application behind the configured path; else a bootloader that pairs with the record;
   else a bootloader that is the only one; otherwise, so also with two of them, nothing.
   */
  lemma StatusExactly(v: Views, known: Option<KnownDevice>, device: Path, window: int)
    ensures var status := StatusFor(v, known, device, window);
            var application := ConfiguredApplication(v.application, device);
            && (status.Running? <==> application.Ok?)
            && (application.Ok? ==> status.topology == application.value.topology)
            && (status.InBootloader? <==> application.Err? && !Unpairable(v, known, device, window))
            && (status.InBootloader? ==> known.Some? && status.topology == known.value.topology)
            && (forall c :: status == Unpaired(c) <==>
                  application.Err? && Unpairable(v, known, device, window) && LoneBootloader(v.listing, c))
  {
    hide ConfiguredApplication, ForConfiguration, BootloaderForKnown, SingleUnpaired, Unpairable, LoneBootloader;
    PairingExactly(v, known, device, window);
    SingleUnpairedExactly(v.listing);
  }

  /** What each plan needs of the probes, the record and the operator. */
  ghost predicate Plans(v: Views, known: Option<KnownDevice>, device: Path, window: int, consent: Option<Consent>,
                        allowUnpaired: bool, plan: Plan)
  {
    var application := ConfiguredApplication(v.application, device);
    match plan
    case Application(target, record) => consent.None? && application == Ok(target) && record == known
    case Recovery(record, b) =>
      consent.None? && application.Err? && known == Some(record) && Pairs(v, record, device, window, b)
    case ManualRecovery(c, b) =>
      && application.Err? && BootloaderFor(v.recheck, c.topology) == Ok(Some(b))
      && (c.serial.Some? ==> b.serial == c.serial)
      && (consent == Some(c)
          || (consent.None? && allowUnpaired && Unpairable(v, known, device, window) && LoneBootloader(v.listing, c)))
  }

  /** `_plan` answers a plan exactly if its conditions are met, and raises where no plan has them. */
  lemma PlanExactly(v: Views, known: Option<KnownDevice>, device: Path, window: int, consent: Option<Consent>,
                    allowUnpaired: bool)
    ensures forall plan :: PlanFor(v, known, device, window, consent, allowUnpaired) == Ok(plan) <==>
                           Plans(v, known, device, window, consent, allowUnpaired, plan)
  {
    hide ConfiguredApplication, ForConfiguration, BootloaderForKnown, SingleUnpaired, Unpairable, LoneBootloader, Pairs,
      BootloaderFor;
    PairingExactly(v, known, device, window);
    SingleUnpairedExactly(v.listing);
    PairsOnce(v, known, device, window);
  }

  lemma PairsOnce(v: Views, known: Option<KnownDevice>, device: Path, window: int)
    ensures Unpairable(v, known, device, window) ==>
              known.None? || forall b :: !Pairs(v, known.value, device, window, b)
  {
  }

  /** The admission of a flash: the mode and place of the only plan there may be. */
  lemma PreflightExactly(v: Views, known: Option<KnownDevice>, device: Path, window: int)
    ensures forall p :: PreflightFor(v, known, device, window) == Ok(p) <==>
              exists plan :: Plans(v, known, device, window, None, true, plan) && Announces(p, plan)
  {
    hide PlanFor, Plans;
    PlanExactly(v, known, device, window, None, true);
  }

  predicate Announces(p: Preflight, plan: Plan)
  {
    match plan
    case Application(t, _) => p.mode == "application" && p.topology == t.topology && p.consent.None?
    case Recovery(record, _) => p.mode == "recovery" && p.topology == record.topology && p.consent.None?
    case ManualRecovery(c, _) => p.mode == "manual-recovery" && p.topology == c.topology && p.consent == Some(c)
  }

  /** Two bootloaders and nothing else to plan for: the admission fails and the status offers none of them. */
  lemma TwoBootloadersAreRefused(v: Views, known: Option<KnownDevice>, device: Path, window: int)
    requires ConfiguredApplication(v.application, device).Err? && Unpairable(v, known, device, window)
    requires v.listing.usb.Some? && exists i: nat, j: nat ::
               && IsDevice(v.listing.usb.value, i, "03eb", "2ff4") && IsDevice(v.listing.usb.value, j, "03eb", "2ff4")
               && v.listing.usb.value[i].identity != v.listing.usb.value[j].identity
    ensures PreflightFor(v, known, device, window).Err? && StatusFor(v, known, device, window).Unavailable?
  {
    hide ConfiguredApplication, Unpairable, PlanFor, StatusFor, Targets, BootloaderFor;
    StatusExactly(v, known, device, window);
    PlanExactly(v, known, device, window, None, true);
    ListedAloneExactly(v.listing, "03eb", "2ff4");
    PairsOnce(v, known, device, window);
    assert forall c :: !LoneBootloader(v.listing, c);
    assert forall plan :: !Plans(v, known, device, window, None, true, plan);
  }

  /** Without consent a flash never uses an unpaired bootloader, whatever the probes answer. */
  lemma NoManualRecoveryWithoutConsent(v: Views, known: Option<KnownDevice>, device: Path, window: int)
    ensures var plan := PlanFor(v, known, device, window, None, false); plan.Ok? ==> !plan.value.ManualRecovery?
  {
  }

  /** What an accepted recovery plan proves about its target. */
  lemma RecoveryIsBound(v: Views, known: Option<KnownDevice>, device: Path, window: int, consent: Option<Consent>)
    requires PlanFor(v, known, device, window, consent, false).Ok?
    requires PlanFor(v, known, device, window, consent, false).value.Recovery?
    ensures var plan := PlanFor(v, known, device, window, consent, false).value;
            && known == Some(plan.record) && MatchesConfiguration(plan.record, device)
            && consent.None?
            && IsBootloader(plan.bootloader) && plan.bootloader.topology == plan.record.topology
            && (Compatible(plan.record.serial, plan.bootloader.serial) || HandoffCurrent(plan.record, v.now, window))
  {
    SingleAnswers(v.paired, known.value.topology, "03eb", "2ff4");
  }

  /** What a confirmed plan proves: the operator's own topology and descriptor, strictly. */
  lemma ManualRecoveryIsBound(v: Views, known: Option<KnownDevice>, device: Path, window: int, consent: Option<Consent>)
    requires PlanFor(v, known, device, window, consent, false).Ok?
    requires PlanFor(v, known, device, window, consent, false).value.ManualRecovery?
    ensures var plan := PlanFor(v, known, device, window, consent, false).value;
            && consent == Some(plan.consent)
            && IsBootloader(plan.bootloader) && plan.bootloader.topology == plan.consent.topology
            && (plan.consent.serial.Some? ==> plan.bootloader.serial == plan.consent.serial)
  {
    SingleAnswers(v.recheck, consent.value.topology, "03eb", "2ff4");
  }

  /** With an unchanged timeout the window of a handoff is the closed interval after its save. */
  lemma HandoffWindowExactly(known: KnownDevice, saved: int, now: int, window: int)
    requires known.binding == HandoffPending && known.deadline == Some(saved + window)
    ensures HandoffCurrent(known, now, window) <==> saved <= now <= saved + window
  {
  }

  /**
   A recovery run accepts its bootloader twice: once planning, compared with the record, and
   once waiting, compared with the planned one. The second is compatible with the record for
   every device exactly if the planned device showed a serial or the record holds none.
   */
  lemma WaitedBootloaderMatchesRecordExactly(record: Option<string>, planned: Option<string>)
    requires Compatible(record, planned)
    ensures (forall waited: Option<string> :: Compatible(planned, waited) ==> Compatible(record, waited))
            <==> (planned.Some? || record.None?)
  {
    if record.Some? && planned.None? {
      var other := Some(record.value + "x");
      assert Compatible(planned, other) && !Compatible(record, other);
    }
  }
}
