/**
 The consumer pause transaction, cul868_flasher/app/supervisor.py:31-87,106-154,195-279.
 */
module Supervisor {
  import opened Common
  import opened Consumers
  import opened Protocol
  import opened Environment
  import opened Slugs

  const STATE_TIMEOUT_MS := 30_000
  const RESTORE_ATTEMPTS := 3

  class CulConsumerPause {
    const wmbusmeters: seq<Slug>
    const max2mqtt: seq<Slug>
    const additional: seq<Slug>
    var restoreAfterError: bool
    var retained: set<Slug>

    constructor (wmbusmeters: seq<Slug>, max2mqtt: seq<Slug>, additional: seq<Slug>)
      ensures this.wmbusmeters == wmbusmeters && this.max2mqtt == max2mqtt && this.additional == additional
      ensures restoreAfterError && retained == {}
    {
      this.wmbusmeters, this.max2mqtt, this.additional := wmbusmeters, max2mqtt, additional;
      restoreAfterError, retained := true, {};
    }

    function Addons(): seq<Slug> { SortedSet(wmbusmeters + max2mqtt + additional) }

    function Consumers(): Matches { Matches(wmbusmeters, max2mqtt, additional) }

    method LeaveStoppedAfterError()
      modifies this`restoreAfterError
      ensures !restoreAfterError
    {
      restoreAfterError := false;
    }

    method RetainAddons(addons: seq<Slug>)
      modifies this`retained
      ensures retained == old(retained) + set s | s in addons && s in Addons()
    {
      retained := retained + set s | s in addons && s in Addons();
    }

    function AddonsToRestore(): seq<Slug>
      reads this
    {
      Without(Addons(), RetainedAddons())
    }

    /** `sorted(self._retained_addons)`, the retained set being part of the paused one. */
    function RetainedAddons(): seq<Slug>
      reads this
    {
      KeptOf(Addons(), retained)
    }
  }

  /** The elements of `xs` in `chosen`, in the order of `xs`. */
  function KeptOf(xs: seq<Slug>, chosen: set<Slug>): (r: seq<Slug>)
    ensures forall x :: x in r <==> x in xs && x in chosen
  {
    if xs == [] then []
    else
      assert xs == [xs[0]] + xs[1..];
      if xs[0] in chosen then [xs[0]] + KeptOf(xs[1..], chosen) else KeptOf(xs[1..], chosen)
  }

  /** Retained and restorable add-ons partition the paused ones, whatever was asked to be retained. */
  lemma RetainedAndRestorablePartition(addons: seq<Slug>, retained: set<Slug>)
    ensures var kept := KeptOf(addons, retained);
            var restored := Without(addons, kept);
            && (forall s :: s in addons <==> s in kept || s in restored)
            && (forall s :: !(s in kept && s in restored))
            && (forall s :: s in restored <==> s in addons && s !in retained)
  {
  }

  class SupervisorClient {
    const world: World

    constructor (world: World)
      ensures this.world == world
    {
      this.world := world;
    }

    /**
     `running_cul_consumers_using_device`: exactly the running consumers, each under its kind; it fails exactly
     if the list, or the info of an add-on of a known kind that the operator did not list, cannot be had.
     */
    method RunningCulConsumers(additional: set<Slug>) returns (r: Option<Matches>)
      requires world.Valid() && !world.mon.chosen
      modifies world`log, world`trace, world`stamps, world`mon
      ensures world.Valid() && old(world.trace) <= world.trace && old(world.log) <= world.log
      ensures if world.env.addons(|old(world.log)|).Some?
              then world.mon == old(world.mon).(listed := world.env.addons(|old(world.log)|))
              else r.None? && world.mon == old(world.mon)
      ensures r.Some? ==>
                var listed := world.mon.listed;
                && listed.Some? && ListedAt(world.log, |old(world.log)|, listed)
                && listed == world.env.addons(|old(world.log)|)
                && (forall s :: s in SlugsOf(r.value) <==> Selected(listed.value, |listed.value|, additional, s))
                && forall kind, s :: s in OfKind(r.value, kind) <==>
                                     SelectedAs(listed.value, |listed.value|, additional, kind, s)
      ensures var listed := world.env.addons(|old(world.log)|);
              r.None? <==> listed.None?
                           || exists i :: 0 <= i < |listed.value| && Unreadable(listed.value[i], additional)
    {
      hide World.Valid, World.Traced, Told, Witnessed, Fresh, Accepted, After, Selected, SelectedAs, SlugsOf,
        Unreadable, Logged;
      var listed := world.ListAddons();
      if listed.None? {
        return None;
      }
      r := MatchesAmong(listed.value, additional);
    }

    static method MatchesAmong(entries: seq<ListedAddon>, additional: set<Slug>) returns (r: Option<Matches>)
      ensures r.None? <==> exists i :: 0 <= i < |entries| && Unreadable(entries[i], additional)
      ensures r.Some? ==> forall kind, s :: s in OfKind(r.value, kind) <==>
                                            SelectedAs(entries, |entries|, additional, kind, s)
      ensures r.Some? ==> forall s :: s in SlugsOf(r.value) <==> Selected(entries, |entries|, additional, s)
    {
      hide Contribution, ConsumesAs, Unreadable, SelectedAs, Selected;
      var m := NoMatches();
      NobodyYet(entries, additional);
      for n := 0 to |entries|
        invariant forall i :: 0 <= i < n ==> !Unreadable(entries[i], additional)
        invariant forall kind, s :: s in OfKind(m, kind) <==> SelectedAs(entries, n, additional, kind, s)
      {
        var c := Contribution(entries[n], additional);
        ContributionExactly(entries[n], additional);
        if c.None? {
          return None;
        }
        var next := Matches(m.wmbusmeters + c.value.wmbusmeters, m.max2mqtt + c.value.max2mqtt,
          m.additional + c.value.additional);
        forall kind, s ensures s in OfKind(next, kind) <==> SelectedAs(entries, n + 1, additional, kind, s) {
          SelectedStep(entries, n, additional, kind);
          assert s in OfKind(next, kind) <==> s in OfKind(m, kind) || s in OfKind(c.value, kind);
        }
        m := next;
      }
      r := Some(Matches(SortedSet(m.wmbusmeters), SortedSet(m.max2mqtt), SortedSet(m.additional)));
      assert forall kind, s :: s in OfKind(r.value, kind) <==> s in OfKind(m, kind);
      forall s ensures s in SlugsOf(r.value) <==> Selected(entries, |entries|, additional, s) {
        SelectedByKind(entries, additional, s);
        assert s in SlugsOf(r.value) <==> s in OfKind(m, Wmbusmeters) || s in OfKind(m, Max2mqtt)
                                          || s in OfKind(m, Additional);
      }
    }

    /**
     `wait_for_state`: normal return means the state was observed during the call; it gives up only at the
     end of its 30 seconds or after a failed request, and never past an answer that would do.
     */
    method WaitForState(slug: Slug, expected: string) returns (ok: bool, ghost state: string)
      requires world.Valid()
      modifies world`log, world`clock, world`naps
      ensures world.Valid() && old(world.log) <= world.log
      ensures ok ==> Settles(state, expected) && Observed(world.log, |old(world.log)|, slug, Some(state))
      ensures !ok ==>
                || world.clock >= old(world.NextReading()) + 30_000
                || Observed(world.log, |old(world.log)|, slug, None)
      ensures !ok ==> forall st :: Observed(world.log, |old(world.log)|, slug, Some(st)) ==> !Settles(st, expected)
      ensures var n, stopped := |old(world.log)|, slug in StoppedIn(old(world.log));
              world.env.delay(n + 1) == 0 && SettlesIn(world.env.addonState(n + 2, slug, stopped), expected) ==> ok
    {
      hide World.Valid, Settles, Logged, StoppedIn, Observed, ClockAfter, Reached;
      TwoReadings(world.env, world.log, slug);
      var start := world.Monotonic();
      var now := world.Monotonic();
      ok, state := PollState(slug, expected, start + STATE_TIMEOUT_MS, |old(world.log)|);
    }

    /** Its polls, after `since`. */
    method PollState(slug: Slug, expected: string, deadline: int, ghost since: nat)
      returns (ok: bool, ghost state: string)
      requires world.Valid() && since <= |world.log| && forall answer :: !Observed(world.log, since, slug, answer)
      modifies world`log, world`clock, world`naps
      ensures world.Valid() && old(world.log) <= world.log
      ensures ok ==> Settles(state, expected) && Observed(world.log, since, slug, Some(state))
      ensures !ok ==> world.clock >= deadline || Observed(world.log, since, slug, None)
      ensures !ok ==> forall st :: Observed(world.log, since, slug, Some(st)) ==> !Settles(st, expected)
      ensures var stopped := slug in StoppedIn(old(world.log));
              (old(world.clock) < deadline
               && SettlesIn(world.env.addonState(|old(world.log)|, slug, stopped), expected)) ==> ok
    {
      hide *;
      ok, state := false, "";
      var now := world.clock;
      ghost var first := world.env.addonState(|world.log|, slug, slug in StoppedIn(world.log));
      while now < deadline
        invariant world.Valid() && old(world.log) <= world.log && world.clock >= now && !ok
        invariant forall st :: Observed(world.log, since, slug, Some(st)) ==> !Settles(st, expected)
        invariant |world.log| == |old(world.log)| ==> now == old(world.clock)
        invariant |world.log| > |old(world.log)| && old(world.clock) < deadline ==> !SettlesIn(first, expected)
        decreases deadline - now
      {
        ghost var before := world.log;
        var seen := world.AddonState(slug);
        assert |before| == |old(world.log)| ==> before == old(world.log);
        Answers(before, slug, seen);
        if seen.None? {
          NothingSettles(expected);
          return;
        }
        ReachedSettles(seen.value, expected);
        if Reached(seen, expected) {
          return true, seen.value;
        }
        ClockSaysNothing(world.env, world.log, slug);
        world.Sleep(500);
        ClockSaysNothing(world.env, world.log, slug);
        now := world.Monotonic();
      }
    }

    /**
     One add-on of `_restore`: at most three attempts, each checking before it starts. It is given up only
     after three attempts that each had a reason to fail.
     */
    method RestoreOne(slug: Slug) returns (restored: bool)
      requires world.Valid() && MayRestart(world.mon, slug) && world.mon.resuming
      modifies world`log, world`clock, world`naps, world`trace, world`stamps, world`mon
      ensures world.Valid() && old(world.trace) <= world.trace && old(world.log) <= world.log
      ensures exists starts :: Restarts(old(world.trace), starts, slug, restored, world.trace)
      ensures if restored then world.mon == old(world.mon).(restored := old(world.mon).restored + [slug])
              else world.mon == old(world.mon)
      ensures restored ==> Observed(world.log, |old(world.log)|, slug, Some("started"))
      ensures !restored ==> Failing(world.env, world.log, |old(world.log)|, 3, slug)
      ensures Startable(world.env, |old(world.log)|, slug) ==> restored
    {
      hide World.Valid, World.Traced, Told, Witnessed, Fresh, Accepted, After, MayRestart, Reached, Logged, Failing,
        Resting, AttemptFails, Startable, Observed, Restarts;
      ghost var starts: seq<Event> := [];
      NothingFails(world.env, world.log, |world.log|, slug);
      for attempt := 1 to RESTORE_ATTEMPTS + 1
        invariant world.Valid() && world.mon == old(world.mon) && old(world.log) <= world.log
        invariant world.trace == old(world.trace) + starts && |starts| <= attempt - 1
        invariant forall e :: e in starts ==> e == StartRequested(slug)
        invariant attempt <= RESTORE_ATTEMPTS ==>
                    Resting(world.env, world.log, |old(world.log)|, attempt - 1, slug)
        invariant attempt > RESTORE_ATTEMPTS ==>
                    Failing(world.env, world.log, |old(world.log)|, RESTORE_ATTEMPTS, slug)
        invariant Startable(world.env, |old(world.log)|, slug) ==> attempt == 1 && world.log == old(world.log)
      {
        ghost var before, asked := world.trace, world.log;
        restored := Attempt(slug);
        starts := if world.trace == before then starts else starts + [StartRequested(slug)];
        if restored {
          ObservedSooner(world.log, |asked|, |old(world.log)|, slug, "started");
          world.EmitRestored(slug);
          RestartsAre(old(world.trace), starts, slug);
          assert world.trace == old(world.trace) + starts + [Restored(slug)];
          return true;
        }
        OneMoreFails(world.env, asked, world.log, |old(world.log)|, attempt - 1, slug);
        if attempt != RESTORE_ATTEMPTS {
          ghost var failed := world.log;
          world.Sleep(1000 * attempt);
          NowResting(world.env, failed, |old(world.log)|, attempt, slug);
        }
      }
      RestartsAre(old(world.trace), starts, slug);
      return false;
    }

    /** One attempt: a start request exactly if the add-on does not run, then a wait until it does. */
    method Attempt(slug: Slug) returns (fine: bool)
      requires world.Valid() && MayRestart(world.mon, slug) && world.mon.resuming
      modifies world`log, world`clock, world`naps, world`trace, world`stamps, world`mon
      ensures world.Valid() && world.mon == old(world.mon) && old(world.log) <= world.log
      ensures var first := world.env.addonState(|old(world.log)|, slug, slug in StoppedIn(old(world.log)));
              && |world.log| > |old(world.log)| && world.log[|old(world.log)|] == Queried(slug, first)
              && world.trace == old(world.trace)
                                + if first.Some? && first.value != "started" then [StartRequested(slug)] else []
      ensures fine ==>
                && Observed(world.log, |old(world.log)|, slug, Some("started"))
                && Logged(world.log, world.Mark(), |world.log|, Queried(slug, Some("started")))
      ensures !fine ==> AttemptFails(world.env, world.log, |old(world.log)|, slug)
      ensures Startable(world.env, |old(world.log)|, slug) ==> fine
    {
      hide World.Valid, World.Traced, Told, Witnessed, Fresh, Accepted, After, MayRestart, Logged, StoppedIn, Startable,
        AttemptFails;
      world.MarkIsPast();
      world.ClockIs();
      ghost var start, startable := world.log, Startable(world.env, |world.log|, slug);
      if startable {
        StartsUp(world.env, start, slug);
      }
      var state := world.AddonState(slug);
      fine := state.Some?;
      RefusedFails(world.env, start, slug, state);
      if fine && state.value != "started" {
        fine := world.StartAddon(slug);
      }
      if fine {
        fine := AwaitStart(slug, start);
      }
    }

    /** The wait of that attempt, which began with a query after `start`. */
    method AwaitStart(slug: Slug, ghost start: seq<Call>) returns (fine: bool)
      requires world.Valid() && start < world.log && world.log[|start|].Queried? && world.log[|start|].slug == slug
      requires world.clock == ClockAfter(world.env, start)
      modifies world`log, world`clock, world`naps
      ensures world.Valid() && old(world.log) <= world.log
      ensures fine ==>
                && Observed(world.log, |start|, slug, Some("started"))
                && Observed(world.log, world.Mark(), slug, Some("started"))
      ensures !fine ==> AttemptFails(world.env, world.log, |start|, slug)
      ensures Startable(world.env, |start|, slug) && slug !in StoppedIn(old(world.log)) ==> fine
    {
      hide World.Valid, World.Traced, Told, Witnessed, Logged, StoppedIn, Startable;
      world.MarkIsPast();
      ghost var before, seen := world.log, "";
      if Startable(world.env, |start|, slug) {
        StartableAt(world.env, |start|, |before| + 1, slug);
        StartableAt(world.env, |start|, |before| + 2, slug);
      }
      fine, seen := WaitForState(slug, "started");
      if fine {
        LoggedLater(world.log, world.log, |before|, |start|, Queried(slug, Some(seen)));
        LoggedLater(world.log, world.log, |before|, world.Mark(), Queried(slug, Some(seen)));
      } else {
        world.ClockIs();
        assert world.log[..|start|] == start;
        if Observed(world.log, |before|, slug, None) {
          LoggedLater(world.log, world.log, |before|, |start| + 1, Queried(slug, None));
        }
      }
    }

    /** `_restore`: every slug once, last stopped first; each ends up restored or among the failures. */
    method Restore(slugs: seq<Slug>) returns (failures: seq<Slug>, ghost done: seq<Slug>)
      requires world.Valid() && Distinct(slugs) && (forall s :: s in slugs ==> MayRestart(world.mon, s))
               && world.mon.tty.None?
      modifies world`log, world`clock, world`naps, world`trace, world`stamps, world`mon
      ensures world.Valid() && old(world.trace) <= world.trace && old(world.log) <= world.log
      ensures && world.mon == WithRestored(old(world.mon).(resuming := true), done)
              && done == Without(Reverse(slugs), failures)
              && failures == Without(Reverse(slugs), done)
      ensures Obedient(world.env, |old(world.log)|) ==> failures == []
    {
      ResumingRestarts(world.mon, slugs);
      ghost var order := Reverse(slugs);
      assert order[..0] == [] && Without([], []) == [];
      hide World.Valid, World.Traced, Told, Witnessed, Fresh, Accepted, After, MayRestart, WithRestored, Without,
        Reverse, Distinct, Restarts, Failing, Startable, Obedient, Observed;
      failures, done := [], [];
      world.EmitResuming();
      ghost var before := world.mon;
      assert WithRestored(world.mon, []) == world.mon by { RestoredNobody(world.mon); }
      for n := 0 to |slugs|
        invariant world.Valid() && old(world.trace) <= world.trace && old(world.log) <= world.log
        invariant world.mon == WithRestored(before, done)
        invariant done == Without(order[..n], failures) && failures == Without(order[..n], done)
        invariant Obedient(world.env, |old(world.log)|) ==> failures == []
      {
        var slug := slugs[|slugs| - 1 - n];
        ReverseIsDistinct(slugs, n);
        RestartKept(before, slug, done);
        if Obedient(world.env, |old(world.log)|) {
          ObedientFor(world.env, |old(world.log)|, |world.log|, slug);
        }
        var restored := RestoreOne(slug);
        RestoreStep(order[..n], slug, done, failures, restored);
        if restored {
          WithRestoredOneMore(before, done, slug);
          done := done + [slug];
        } else {
          failures := failures + [slug];
        }
      }
      assert order[..|slugs|] == order;
    }

    /** The stop loop: a request that was accepted is on the list before its effect is awaited. */
    method StopAll(addons: seq<Slug>) returns (all: bool, stopped: seq<Slug>)
      requires world.Valid() && world.mon.stopped == {} && world.mon.halted == {}
               && world.mon.matched == Members(addons)
      requires Untouched(world.mon) && !world.mon.kept && !world.mon.done && !world.mon.resuming
      requires world.mon.bound.None?
      modifies world`log, world`clock, world`naps, world`trace, world`stamps, world`mon
      ensures world.Valid() && old(world.trace) <= world.trace && old(world.log) <= world.log
      ensures stopped <= addons && (all ==> stopped == addons && world.mon.halted == Members(addons))
      ensures world.mon == old(world.mon).(stopped := Members(stopped), halted := world.mon.halted)
      ensures addons == [] || Obedient(world.env, |old(world.log)|) ==> all
    {
      hide World.Valid, World.Traced, Told, Witnessed, Fresh, Accepted, After, Reached, Obedient, Startable, Stopping,
        Members;
      stopped := [];
      ghost var before := world.mon;
      NobodyStopped(before);
      StoppingIs(before, addons);
      for n := 0 to |addons|
        invariant world.Valid() && old(world.trace) <= world.trace && old(world.log) <= world.log
        invariant stopped == addons[..n]
        invariant world.mon == Stopping(before, addons[..n], addons[..n])
      {
        StoppingReady(before, addons, n);
        if Obedient(world.env, |old(world.log)|) {
          ObedientFor(world.env, |old(world.log)|, |world.log|, addons[n]);
        }
        var asked;
        asked, all := StopOne(addons[n]);
        if asked {
          stopped := stopped + [addons[n]];
        }
        if !all {
          return;
        }
      }
      all := true;
    }

    /** One add-on of it: whether the request was accepted, and whether the add-on was then seen stopped. */
    method StopOne(slug: Slug) returns (asked: bool, ok: bool)
      requires world.Valid() && slug in world.mon.matched && world.mon.bound.None?
      requires Untouched(world.mon) && !world.mon.kept && !world.mon.done && !world.mon.resuming
      modifies world`log, world`clock, world`naps, world`trace, world`stamps, world`mon
      ensures world.Valid() && old(world.trace) <= world.trace && old(world.log) <= world.log
      ensures world.mon == old(world.mon).(
                             stopped := if asked then old(world.mon).stopped + {slug} else old(world.mon).stopped,
                             halted := if ok then old(world.mon).halted + {slug} else old(world.mon).halted)
      ensures asked == world.env.lifecycle(|old(world.log)|, slug) && (ok ==> asked)
      ensures Startable(world.env, |old(world.log)|, slug) ==> ok
    {
      hide World.Valid, World.Traced, Told, Witnessed, Fresh, Accepted, After, Reached, Startable, StoppedIn, Observed;
      if Startable(world.env, |world.log|, slug) {
        StopsDown(world.env, world.log, slug);
      }
      asked := world.StopAddon(slug);
      ok := false;
      if asked {
        ok := AwaitHalt(slug);
      }
    }

    /** Waiting for `stopped`; what was seen is on record. */
    method AwaitHalt(slug: Slug) returns (ok: bool)
      requires world.Valid() && slug in world.mon.stopped
      requires world.mon.bound.None?
      modifies world`log, world`clock, world`naps, world`trace, world`stamps, world`mon
      ensures world.Valid() && old(world.trace) <= world.trace && old(world.log) <= world.log
      ensures world.mon == if ok then old(world.mon).(halted := old(world.mon).halted + {slug}) else old(world.mon)
      ensures Startable(world.env, |old(world.log)|, slug) && slug in StoppedIn(old(world.log)) ==> ok
      ensures !ok ==>
                || world.clock >= old(world.NextReading()) + 30_000
                || Observed(world.log, |old(world.log)|, slug, None)
    {
      hide World.Valid, World.Traced, Told, Witnessed, Fresh, Accepted, After, Logged, StoppedIn, Startable;
      world.MarkIsPast();
      ghost var before, state := world.log, "";
      if Startable(world.env, |before|, slug) {
        StartableAt(world.env, |before|, |before| + 1, slug);
        StartableAt(world.env, |before|, |before| + 2, slug);
      }
      ok, state := WaitForState(slug, "stopped");
      if ok {
        LoggedLater(world.log, world.log, |before|, world.Mark(), Queried(slug, Some(state)));
        world.EmitHalted(slug, state);
      }
    }

    /** The stop loop; where it fails, what it stopped is restored or reported. */
    method StopOrRestore(addons: seq<Slug>) returns (all: bool, unrestored: seq<Slug>)
      requires world.Valid() && Distinct(addons) && world.mon.matched == Members(addons) && world.mon.tty.None?
      requires world.mon.stopped == {} && world.mon.halted == {} && world.mon.restored == []
      requires Untouched(world.mon) && !world.mon.kept && !world.mon.done && !world.mon.resuming
      requires world.mon.bound.None?
      modifies world`log, world`clock, world`naps, world`trace, world`stamps, world`mon
      ensures world.Valid() && old(world.trace) <= world.trace && old(world.log) <= world.log
      ensures all ==>
                && unrestored == []
                && world.mon == old(world.mon).(stopped := Members(addons), halted := Members(addons))
      ensures SameRun(world.mon, old(world.mon)) && world.mon.listed == old(world.mon).listed
      ensures !all ==>
                && (forall s :: s in world.mon.stopped ==> s in addons)
                && (forall s :: s in world.mon.stopped <==> s in world.mon.restored || s in unrestored)
                && (forall s :: !(s in world.mon.restored && s in unrestored))
      ensures addons == [] || Obedient(world.env, |old(world.log)|) ==> all
    {
      hide World.Valid, World.Traced, Told, Witnessed, Fresh, Accepted, After, Obedient;
      unrestored := [];
      var stopped;
      all, stopped := StopAll(addons);
      if !all {
        ghost var done;
        unrestored, done := Restore(stopped);
        StoppedAreSettled(stopped, done, unrestored);
      }
    }

    /** The stop phase of `temporarily_stop_cul_consumers`; null means it raised, after restoring. */
    method EnterPause(additional: set<Slug>) returns (pause: CulConsumerPause?, unrestored: seq<Slug>)
      requires world.Valid() && Rested(world.mon) && additional == world.mon.setup.additional
      modifies world`log, world`clock, world`naps, world`trace, world`stamps, world`mon
      ensures world.Valid() && old(world.trace) <= world.trace && old(world.log) <= world.log
      ensures pause != null ==>
                && fresh(pause) && pause.restoreAfterError && pause.retained == {}
                && world.mon == Paused(old(world.mon), world.mon.listed, Members(pause.Addons()))
                && ListedAt(world.log, |old(world.log)|, world.mon.listed)
                && (forall s :: s in pause.Addons() <==> PausedOnPurpose(world.mon, additional, s))
                && (forall kind, s :: s in OfKind(pause.Consumers(), kind) <==>
                                      PausedAs(world.mon, additional, kind, s))
      ensures pause == null ==>
                && SameRun(world.mon, old(world.mon)) && !world.mon.kept
                && (forall s :: s in world.mon.stopped <==> s in world.mon.restored || s in unrestored)
                && (forall s :: !(s in world.mon.restored && s in unrestored))
                && (forall s :: s in world.mon.stopped ==> PausedOnPurpose(world.mon, additional, s))
      ensures Listable(world.env.addons(|old(world.log)|)) && Obedient(world.env, |old(world.log)|) ==> pause != null
    {
      hide *;
      pause := null;
      var matches;
      matches, unrestored := HaltConsumers(additional);
      if matches.Some? {
        pause := PauseOf(matches.value);
      }
    }

    method PauseOf(matches: Matches) returns (pause: CulConsumerPause)
      ensures fresh(pause) && pause.restoreAfterError && pause.retained == {} && pause.Addons() == SlugsOf(matches)
      ensures pause.Consumers() == matches
    {
      var addons := SlugsOf(matches);
      SortedSetAscends(matches.wmbusmeters + matches.max2mqtt + matches.additional);
      assert forall kind, s :: s in OfKind(matches, kind) ==> s in addons;
      pause := new CulConsumerPause(Only(matches.wmbusmeters, addons), Only(matches.max2mqtt, addons),
                                    Only(matches.additional, addons));
      OnlyAll(matches.wmbusmeters, addons);
      OnlyAll(matches.max2mqtt, addons);
      OnlyAll(matches.additional, addons);
    }

    /** Everything up to the last stop; `None` means it raised, after restoring. */
    method HaltConsumers(additional: set<Slug>) returns (halted: Option<Matches>, unrestored: seq<Slug>)
      requires world.Valid() && Rested(world.mon) && additional == world.mon.setup.additional
      modifies world`log, world`clock, world`naps, world`trace, world`stamps, world`mon
      ensures world.Valid() && old(world.trace) <= world.trace && old(world.log) <= world.log
      ensures halted.Some? ==>
                && world.mon == Paused(old(world.mon), world.mon.listed, Members(SlugsOf(halted.value)))
                && ListedAt(world.log, |old(world.log)|, world.mon.listed)
                && (forall s :: s in SlugsOf(halted.value) <==> PausedOnPurpose(world.mon, additional, s))
                && (forall kind, s :: s in OfKind(halted.value, kind) <==>
                                      PausedAs(world.mon, additional, kind, s))
      ensures halted.None? ==>
                && SameRun(world.mon, old(world.mon)) && !world.mon.kept
                && (forall s :: s in world.mon.stopped <==> s in world.mon.restored || s in unrestored)
                && (forall s :: !(s in world.mon.restored && s in unrestored))
                && (forall s :: s in world.mon.stopped ==> PausedOnPurpose(world.mon, additional, s))
      ensures Listable(world.env.addons(|old(world.log)|)) && Obedient(world.env, |old(world.log)|) ==> halted.Some?
    {
      hide World.Valid, World.Traced, Told, Witnessed, Fresh, Accepted, After, Selected, SelectedAs, SlugsOf,
        Logged, Obedient;
      ghost var since := |world.log|;
      halted, unrestored := None, [];
      var matches := RunningCulConsumers(additional);
      if matches.None? {
        return;
      }
      var addons := SlugsOf(matches.value);
      world.EmitMatched(addons);
      MatchesAscend(matches.value);
      if Obedient(world.env, since) {
        ObedientAt(world.env, since, |world.log|);
      }
      var all;
      all, unrestored := StopOrRestore(addons);
      if all {
        halted := matches;
      }
    }

    lemma MatchesAscend(matches: Matches)
      ensures Distinct(SlugsOf(matches))
    {
      SortedSetAscends(matches.wmbusmeters + matches.max2mqtt + matches.additional);
    }

    /** The end of the `with` block: `bodyOk` is whether the body finished without an exception. */
    method LeavePause(pause: CulConsumerPause, bodyOk: bool) returns (ok: bool, unrestored: seq<Slug>)
      requires world.Valid() && world.mon.restored == [] && !world.mon.done && world.mon.tty.None?
      requires world.mon.stopped == Members(pause.Addons())
      requires bodyOk ==> world.mon.verified.Some?
      requires pause.restoreAfterError ==> !world.mon.kept && Untouched(world.mon)
      modifies world`log, world`clock, world`naps, world`trace, world`stamps, world`mon
      ensures world.Valid() && old(world.trace) <= world.trace && old(world.log) <= world.log
      ensures world.mon == old(world.mon).(done := bodyOk, restored := world.mon.restored,
              resuming := world.mon.resuming)
      ensures ok <==> bodyOk && unrestored == []
      ensures if bodyOk || pause.restoreAfterError
              then world.mon.restored == Without(Reverse(pause.AddonsToRestore()), unrestored)
                   && unrestored == Without(Reverse(pause.AddonsToRestore()), world.mon.restored)
              else world.mon.restored == []
      ensures Obedient(world.env, |old(world.log)|) ==> unrestored == []
    {
      hide World.Valid, World.Traced, Told, Witnessed, Fresh, Accepted, After, Obedient;
      ghost var done;
      unrestored := [];
      SortedSetAscends(pause.wmbusmeters + pause.max2mqtt + pause.additional);
      WithoutAscends(pause.Addons(), pause.RetainedAddons());
      if bodyOk {
        world.EmitDone();
        unrestored, done := Restore(pause.AddonsToRestore());
        ok := unrestored == [];
      } else {
        if pause.restoreAfterError {
          unrestored, done := Restore(pause.AddonsToRestore());
        }
        ok := false;
      }
    }
  }

  lemma ObservedSooner(log: seq<Call>, since: nat, sooner: nat, slug: Slug, state: string)
    requires Observed(log, since, slug, Some(state)) && sooner <= since
    ensures Observed(log, sooner, slug, Some(state))
  {
    LoggedLater(log, log, since, sooner, Queried(slug, Some(state)));
  }

  lemma RestartsAre(before: seq<Event>, starts: seq<Event>, slug: Slug)
    requires |starts| <= RESTORE_ATTEMPTS && forall e :: e in starts ==> e == StartRequested(slug)
    ensures Restarts(before, starts, slug, true, before + starts + [Restored(slug)])
    ensures Restarts(before, starts, slug, false, before + starts)
  {
    assert before + starts + [] == before + starts;
  }

  /** What a wait accepts: a stopped consumer may also be reported in error. */
  predicate Settles(state: string, expected: string)
  {
    state == expected || (expected == "stopped" && state == "error")
  }

  predicate SettlesIn(state: Option<string>, expected: string) { state.Some? && Settles(state.value, expected) }

  lemma ReachedSettles(state: string, expected: string)
    ensures Reached(Some(state), expected) <==> Settles(state, expected)
    ensures SettlesIn(Some(state), expected) <==> Settles(state, expected)
  {
  }

  lemma NothingSettles(expected: string)
    ensures !SettlesIn(None, expected)
  {
  }

  lemma TwoReadings(env: Oracle, log: seq<Call>, slug: Slug)
    ensures var all := log + [Timed] + [Timed];
            StoppedIn(all) == StoppedIn(log) && forall answer :: !Observed(all, |log|, slug, answer)
  {
    LogGrows(env, log, Timed);
    LogGrows(env, log + [Timed], Timed);
  }

  /** Neither the clock nor a sleep says anything about an add-on. */
  lemma ClockSaysNothing(env: Oracle, log: seq<Call>, slug: Slug)
    ensures forall call: Call, since: nat, answer :: (call.Timed? || call.Slept?) && since <= |log| ==>
              (Observed(log + [call], since, slug, answer) <==> Observed(log, since, slug, answer))
    ensures forall call: Call :: call.Timed? || call.Slept? ==> StoppedIn(log + [call]) == StoppedIn(log)
  {
    hide StoppedIn;
    forall call: Call | call.Timed? || call.Slept?
      ensures StoppedIn(log + [call]) == StoppedIn(log)
      ensures forall since: nat, answer :: since <= |log| ==>
                (Observed(log + [call], since, slug, answer) <==> Observed(log, since, slug, answer))
    {
      LogGrows(env, log, call);
      forall since: nat, answer | since <= |log| && Observed(log, since, slug, answer)
        ensures Observed(log + [call], since, slug, answer)
      {
        LoggedLater(log, log + [call], since, since, Queried(slug, answer));
      }
    }
  }

  lemma Answers(log: seq<Call>, slug: Slug, seen: Option<string>)
    ensures forall since: nat, answer :: since <= |log| ==>
              (Observed(log + [Queried(slug, seen)], since, slug, answer) <==>
                 Observed(log, since, slug, answer) || answer == seen)
  {
    var all := log + [Queried(slug, seen)];
    assert all[|log|] == Queried(slug, seen);
    forall since: nat, answer | since <= |log| && Observed(log, since, slug, answer)
      ensures Observed(all, since, slug, answer)
    {
      LoggedLater(log, all, since, since, Queried(slug, answer));
    }
  }

  /** Why the attempt that began at `p` and ended with the log failed. */
  ghost predicate AttemptFails(env: Oracle, log: seq<Call>, p: nat, slug: Slug)
  {
    && p < |log| && log[p].Queried? && log[p].slug == slug
    && (|| log[p].state.None?
        || (log[p].state != Some("started") && p + 1 < |log| && log[p + 1] == Requested(slug, true, false))
        || Observed(log, p + 1, slug, None)
        || ClockAfter(env, log) >= ClockAfter(env, log[..p]) + 30_000)
  }

  /** So many attempts failed, one after the other, from `since` on. */
  ghost predicate Failing(env: Oracle, log: seq<Call>, since: nat, n: nat, slug: Slug)
    decreases n, 1
  {
    n == 0 || exists p: nat, q: nat :: since <= p < q <= |log| && FailsBetween(env, log, p, q, since, n, slug)
  }

  ghost predicate FailsBetween(env: Oracle, log: seq<Call>, p: nat, q: nat, since: nat, n: nat, slug: Slug)
    requires p < q <= |log| && n > 0
    decreases n, 0
  {
    && AttemptFails(env, log[..q], p, slug) && Failing(env, log[..p], since, n - 1, slug)
    && (n > 1 ==> p > 0 && log[p - 1] == Slept(1000 * (n - 1)))
  }

  /** An attempt that got no answer, or whose start was refused. */
  lemma RefusedFails(env: Oracle, start: seq<Call>, slug: Slug, state: Option<string>)
    ensures state.None? ==> AttemptFails(env, start + [Queried(slug, state)], |start|, slug)
    ensures state != Some("started") ==>
              AttemptFails(env, start + [Queried(slug, state)] + [Requested(slug, true, false)], |start|, slug)
  {
    var asked := start + [Queried(slug, state)];
    assert asked[|start|] == Queried(slug, state);
    assert (asked + [Requested(slug, true, false)])[|start|] == Queried(slug, state);
  }

  lemma ObedientFor(env: Oracle, since: nat, t: nat, slug: Slug)
    requires Obedient(env, since) && since <= t
    ensures Startable(env, t, slug)
  {
    hide Startable;
    ObedientAt(env, since, t);
  }

  lemma StopsDown(env: Oracle, log: seq<Call>, slug: Slug)
    requires Startable(env, |log|, slug)
    ensures env.lifecycle(|log|, slug) && Startable(env, |log| + 1, slug)
    ensures slug in StoppedIn(log + [Requested(slug, false, true)])
  {
    hide StoppedIn;
    LogGrows(env, log, Requested(slug, false, true));
  }

  /** Whether it was down or not, it runs once an accepted start was asked for where it was down. */
  lemma StartsUp(env: Oracle, start: seq<Call>, slug: Slug)
    requires Startable(env, |start|, slug)
    ensures var first := env.addonState(|start|, slug, slug in StoppedIn(start));
            var asked := start + [Queried(slug, first)];
            && first == Some(if slug in StoppedIn(start) then "stopped" else "started")
            && (slug in StoppedIn(asked) <==> slug in StoppedIn(start)) && env.lifecycle(|asked|, slug)
            && slug !in StoppedIn(asked + [Requested(slug, true, true)])
  {
    hide StoppedIn;
    var first := env.addonState(|start|, slug, slug in StoppedIn(start));
    LogGrows(env, start, Queried(slug, first));
    LogGrows(env, start + [Queried(slug, first)], Requested(slug, true, true));
  }

  lemma NothingFails(env: Oracle, log: seq<Call>, since: nat, slug: Slug)
    ensures Resting(env, log, since, 0, slug)
  {
  }

  /** The same, after the sleep before the next attempt. */
  ghost predicate Resting(env: Oracle, log: seq<Call>, since: nat, n: nat, slug: Slug)
  {
    Failing(env, log, since, n, slug) && (n > 0 ==> log != [] && log[|log| - 1] == Slept(1000 * n))
  }

  lemma NowResting(env: Oracle, log: seq<Call>, since: nat, n: nat, slug: Slug)
    requires Failing(env, log, since, n, slug)
    ensures Resting(env, log + [Slept(1000 * n)], since, n, slug)
  {
    var longer := log + [Slept(1000 * n)];
    if n > 0 {
      var p: nat, q: nat :| since <= p < q <= |log| && FailsBetween(env, log, p, q, since, n, slug);
      assert longer[..q] == log[..q] && longer[..p] == log[..p];
      assert FailsBetween(env, longer, p, q, since, n, slug);
    }
  }

  lemma OneMoreFails(env: Oracle, before: seq<Call>, log: seq<Call>, since: nat, n: nat, slug: Slug)
    requires Resting(env, before, since, n, slug) && before <= log && since <= |before| < |log|
    requires AttemptFails(env, log, |before|, slug)
    ensures Failing(env, log, since, n + 1, slug)
  {
    hide AttemptFails;
    assert log[..|before|] == before && log[..|log|] == log;
    assert FailsBetween(env, log, |before|, |log|, since, n + 1, slug);
  }

  /** The state of `slug` was asked for from `since` on and answered so. */
  ghost predicate Observed(log: seq<Call>, since: nat, slug: Slug, state: Option<string>)
  {
    Logged(log, since, |log|, Queried(slug, state))
  }

  /** The call at `n` asked the Supervisor for its list and got this one. */
  ghost predicate ListedAt(log: seq<Call>, n: nat, listed: Option<seq<ListedAddon>>)
  {
    n < |log| && log[n] == GotAddons(listed)
  }

  /** At most three start requests for `slug`, and the sight of it started if it is restored. */
  ghost predicate Restarts(before: seq<Event>, starts: seq<Event>, slug: Slug, restored: bool, after: seq<Event>)
  {
    && |starts| <= RESTORE_ATTEMPTS && (forall e :: e in starts ==> e == StartRequested(slug))
    && after == before + starts + if restored then [Restored(slug)] else []
  }

  /** A run that has only just begun. */
  predicate Rested(m: Monitor)
  {
    && m.matched == {} && m.stopped == {} && m.halted == {} && m.restored == [] && Untouched(m)
    && !m.chosen && !m.kept && !m.done && !m.resuming && m.tty.None?
  }

  /** All of `addons` were matched in `listed`, asked to stop and seen stopped. */
  function Paused(m: Monitor, listed: Option<seq<ListedAddon>>, addons: set<Slug>): Monitor
  {
    m.(listed := listed, chosen := true, matched := addons, stopped := addons, halted := addons, bound := None)
  }

  /** The Supervisor's list shows `s` as a running consumer of the radio. */
  ghost predicate PausedOnPurpose(m: Monitor, additional: set<Slug>, s: Slug)
  {
    m.listed.Some? && Selected(m.listed.value, |m.listed.value|, additional, s)
  }

  /** And as one of this kind. */
  ghost predicate PausedAs(m: Monitor, additional: set<Slug>, kind: Kind, s: Slug)
  {
    m.listed.Some? && SelectedAs(m.listed.value, |m.listed.value|, additional, kind, s)
  }

  /** The device side of a run is where it was. */
  predicate SameRun(a: Monitor, b: Monitor)
  {
    && a.setup == b.setup && a.file == b.file && a.plan == b.plan && a.b01 == b.b01 && a.led == b.led && a.ran == b.ran
    && a.kept == b.kept && a.done == b.done && a.verified == b.verified
  }

  /** These add-ons were asked to stop, and those seen stopped. */
  function Stopping(m: Monitor, asked: seq<Slug>, seen: seq<Slug>): Monitor
  {
    m.(stopped := Members(asked), halted := Members(seen))
  }

  lemma NobodyStopped(m: Monitor)
    requires m.stopped == {} && m.halted == {}
    ensures Stopping(m, [], []) == m
  {
  }

  lemma StoppingIs(m: Monitor, addons: seq<Slug>)
    ensures forall asked, seen :: Stopping(m, asked, seen) ==
              m.(stopped := Members(asked), halted := Stopping(m, asked, seen).halted)
    ensures Stopping(m, addons, addons).halted == Members(addons)
  {
  }

  lemma StoppingReady(m: Monitor, addons: seq<Slug>, n: nat)
    requires n < |addons| && m.matched == Members(addons) && m.bound.None?
    requires Untouched(m) && !m.kept && !m.done && !m.resuming
    ensures var now, slug := Stopping(m, addons[..n], addons[..n]), addons[n];
            && slug in now.matched && now.bound.None? && Untouched(now) && !now.kept && !now.done && !now.resuming
            && addons[..n + 1] == addons[..n] + [slug]
            && now.(stopped := now.stopped + {slug}) == Stopping(m, addons[..n + 1], addons[..n])
            && now.(stopped := now.stopped + {slug}, halted := now.halted + {slug})
               == Stopping(m, addons[..n + 1], addons[..n + 1])
  {
    assert Members(addons[..n + 1]) == Members(addons[..n]) + {addons[n]};
  }

  function Members(xs: seq<Slug>): set<Slug> { set x | x in xs }

  lemma ReverseIsDistinct(slugs: seq<Slug>, n: nat)
    requires Distinct(slugs) && n < |slugs|
    ensures Reverse(slugs)[n] == slugs[|slugs| - 1 - n] && Reverse(slugs)[n] in slugs
    ensures Reverse(slugs)[n] !in Reverse(slugs)[..n]
    ensures Reverse(slugs)[..n + 1] == Reverse(slugs)[..n] + [slugs[|slugs| - 1 - n]]
  {
    TakeOneMore(Reverse(slugs), n);
  }

  lemma TakeOneMore(xs: seq<Slug>, n: nat)
    requires n < |xs|
    ensures xs[..n + 1] == xs[..n] + [xs[n]]
  {
  }

  function WithRestored(m: Monitor, restored: seq<Slug>): Monitor { m.(restored := m.restored + restored) }

  lemma WithRestoredOneMore(m: Monitor, restored: seq<Slug>, slug: Slug)
    ensures var before := WithRestored(m, restored);
            before.(restored := before.restored + [slug]) == WithRestored(m, restored + [slug])
  {
    assert m.restored + restored + [slug] == m.restored + (restored + [slug]);
  }

  lemma RestoredNobody(m: Monitor)
    ensures WithRestored(m, []) == m
  {
    assert m.restored + [] == m.restored;
  }

  lemma ResumingRestarts(m: Monitor, slugs: seq<Slug>)
    ensures forall s :: s in slugs ==> (MayRestart(m.(resuming := true), s) <==> MayRestart(m, s))
  {
  }

  lemma RestartKept(m: Monitor, slug: Slug, restored: seq<Slug>)
    ensures MayRestart(WithRestored(m, restored), slug) <==> MayRestart(m, slug)
    ensures WithRestored(m, restored).resuming == m.resuming
  {
  }

  lemma StoppedAreSettled(stopped: seq<Slug>, done: seq<Slug>, failures: seq<Slug>)
    requires done == Without(Reverse(stopped), failures)
    requires failures == Without(Reverse(stopped), done)
    ensures forall s :: s in stopped <==> s in done || s in failures
    ensures forall s :: !(s in done && s in failures)
  {
    var order := Reverse(stopped);
    assert forall i :: 0 <= i < |stopped| ==> stopped[i] == order[|stopped| - 1 - i];
    assert forall i :: 0 <= i < |order| ==> order[i] == stopped[|stopped| - 1 - i];
  }

  lemma RestoreStep(order: seq<Slug>, slug: Slug, done: seq<Slug>, failures: seq<Slug>, restored: bool)
    requires slug !in order && done == Without(order, failures) && failures == Without(order, done)
    ensures var done', failures' := if restored then done + [slug] else done, if restored
            then failures else failures + [slug];
            done' == Without(order + [slug], failures') && failures' == Without(order + [slug], done')
  {
    assert (order + [slug])[..|order|] == order;
    WithoutAgrees(order, failures, failures + [slug]);
    WithoutAgrees(order, done, done + [slug]);
  }
}
