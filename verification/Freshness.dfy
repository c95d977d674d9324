/**
 How old the observations behind an event may be. What an event rests on was asked after every earlier event
 of its process, so a command, an acceptance or a plan never rests on a look from before the last thing the
 run did. `World.Valid` keeps the log and the stamps these laws speak of.
 */
module Freshness {
  import opened Common
  import opened DeviceState
  import opened UsbTopology
  import opened Planner
  import opened Protocol
  import opened TraceLaws
  import opened DescriptorLaws
  import opened Environment

  /** The call was made, and so answered, before event `i` and after every earlier event of the process. */
  ghost predicate JustBefore(log: seq<Call>, base: nat, stamps: seq<nat>, i: nat, call: Call)
    requires i < |stamps|
  {
    exists t :: 0 <= t < stamps[i] <= |log| && log[t] == call && LaterThan(base, stamps, i, t)
  }

  ghost predicate LaterThan(base: nat, stamps: seq<nat>, i: nat, t: int)
    requires i <= |stamps|
  {
    forall k :: base <= k < i ==> stamps[k] <= t
  }

  lemma {:induction false} StampsAscend(log: seq<Call>, base: nat, trace: seq<Event>, stamps: seq<nat>, k: nat, i: nat)
    requires Witnessed(log, base, trace, stamps) && base <= k <= i < |stamps|
    ensures stamps[k] <= stamps[i] <= |log|
    decreases |stamps| - k
  {
    hide Fresh;
    if k < i {
      assert StampBefore(stamps, k + 1) == stamps[k];
      StampsAscend(log, base, trace, stamps, k + 1, i);
    } else if i < |stamps| - 1 {
      assert StampBefore(stamps, i + 1) == stamps[i];
      StampsAscend(log, base, trace, stamps, i + 1, |stamps| - 1);
    }
  }

  lemma LoggedIsJustBefore(log: seq<Call>, base: nat, trace: seq<Event>, stamps: seq<nat>, i: nat, call: Call)
    requires Witnessed(log, base, trace, stamps) && base <= i < |stamps|
    requires Logged(log, StampBefore(stamps, i), stamps[i], call)
    ensures JustBefore(log, base, stamps, i, call)
  {
    hide Fresh;
    var t :| StampBefore(stamps, i) <= t < stamps[i] <= |log| && log[t] == call;
    forall k | base <= k < i ensures stamps[k] <= t {
      StampsAscend(log, base, trace, stamps, k, i - 1);
    }
    assert LaterThan(base, stamps, i, t);
  }

  // ---------------------------------------------------------------- what is looked at again

  /**
   Each DFU command goes to a device that a look after everything else showed: after the record that names it,
   after its acceptance, and after the previous command had returned 0. The call itself follows that look.
   */
  lemma CommandsLookAgain(file: File, log: seq<Call>, base: nat, trace: seq<Event>, stamps: seq<nat>, i: nat)
    requires Accepted(Boot(file), trace) && Witnessed(log, base, trace, stamps)
    requires base <= i < |trace| && trace[i].Ran?
    ensures JustBefore(log, base, stamps, i, Looked(trace[i].view))
    ensures exists b :: RunJustified(file, trace[..i], trace[i], b)
    ensures exists answer :: Attempted(answer) && LastAsked(log, stamps[i], ToolCall(trace[i].command, answer))
  {
    hide RunJustified, Accepted, Fresh;
    CommandIsJustified(file, trace, i);
    RanIsFresh(log, StampBefore(stamps, i), stamps[i], trace[i]);
    LoggedIsJustBefore(log, base, trace, stamps, i, Looked(trace[i].view));
  }

  lemma RanIsFresh(log: seq<Call>, since: nat, until: nat, e: Event)
    requires e.Ran? && Fresh(log, since, until, e)
    ensures Saw(log, since, until, e.view)
    ensures exists answer :: Attempted(answer) && LastAsked(log, until, ToolCall(e.command, answer))
  {
  }

  /** A bootloader is accepted on a look taken after B01, or after the consumers were kept stopped. */
  lemma AcceptanceLooksAgain(file: File, log: seq<Call>, base: nat, trace: seq<Event>, stamps: seq<nat>, i: nat)
    requires Accepted(Boot(file), trace) && Witnessed(log, base, trace, stamps)
    requires base <= i < |trace| && trace[i].Found?
    ensures JustBefore(log, base, stamps, i, Looked(trace[i].view))
    ensures exists plan :: AcceptanceJustified(trace[..i], trace[i], plan)
  {
    hide AcceptanceJustified, Accepted;
    AcceptanceIsJustified(file, trace, i);
    LoggedIsJustBefore(log, base, trace, stamps, i, Looked(trace[i].view));
  }

  /** An endpoint is bound on three looks taken after everything before, so within its own run. */
  lemma BindingLooksAgain(log: seq<Call>, base: nat, trace: seq<Event>, stamps: seq<nat>, i: nat)
    requires Witnessed(log, base, trace, stamps) && base <= i < |trace| && trace[i].Bound?
    ensures JustBefore(log, base, stamps, i, Looked(trace[i].first))
    ensures JustBefore(log, base, stamps, i, Looked(trace[i].second))
    ensures JustBefore(log, base, stamps, i, Looked(trace[i].third))
  {
    LoggedIsJustBefore(log, base, trace, stamps, i, Looked(trace[i].first));
    LoggedIsJustBefore(log, base, trace, stamps, i, Looked(trace[i].second));
    LoggedIsJustBefore(log, base, trace, stamps, i, Looked(trace[i].third));
  }

  /** After the commands the application and its TTY are found by looks taken after everything before. */
  lemma LocationLooksAgain(file: File, log: seq<Call>, base: nat, trace: seq<Event>, stamps: seq<nat>, i: nat)
    requires Accepted(Boot(file), trace) && Witnessed(log, base, trace, stamps)
    requires base <= i < |trace| && trace[i].Located?
    ensures JustBefore(log, base, stamps, i, Looked(trace[i].view))
    ensures JustBefore(log, base, stamps, i, Looked(trace[i].node))
    ensures exists b :: LocationJustified(trace[..i], trace[i], b)
  {
    hide LocationJustified, Accepted;
    LocationIsJustified(file, trace, i);
    LoggedIsJustBefore(log, base, trace, stamps, i, Looked(trace[i].view));
    LoggedIsJustBefore(log, base, trace, stamps, i, Looked(trace[i].node));
  }

  /** A version counts only if the device gave it after the last command, and not before. */
  lemma RepliesAreNew(log: seq<Call>, base: nat, trace: seq<Event>, stamps: seq<nat>, i: nat)
    requires Witnessed(log, base, trace, stamps) && base <= i < |trace| && trace[i].Replied?
    ensures JustBefore(log, base, stamps, i, GotReply(trace[i].tty, Some(trace[i].version)))
  {
    LoggedIsJustBefore(log, base, trace, stamps, i, GotReply(trace[i].tty, Some(trace[i].version)));
  }

  /** Consumers count as stopped or started only when the Supervisor said so after their request. */
  lemma StatesAreNew(log: seq<Call>, base: nat, trace: seq<Event>, stamps: seq<nat>, i: nat)
    requires Witnessed(log, base, trace, stamps) && base <= i < |trace| && (trace[i].Halted? || trace[i].Restored?)
    ensures JustBefore(log, base, stamps, i,
              Queried(trace[i].slug, Some(if trace[i].Halted? then trace[i].state else "started")))
  {
    LoggedIsJustBefore(log, base, trace, stamps, i,
      Queried(trace[i].slug, Some(if trace[i].Halted? then trace[i].state else "started")));
  }

  // ---------------------------------------------------------------- the handoff window, on real clocks

  /** The deadline saved at `j` counts from a reading taken after V had been read in that run. */
  ghost predicate TimedAt(log: seq<Call>, base: nat, trace: seq<Event>, stamps: seq<nat>, j: nat)
    requires j < |trace| == |stamps| && trace[j].Saved?
  {
    base <= j ==> JustBefore(log, base, stamps, j, Dated(trace[j].at))
  }

  /**
   A different serial is accepted only if the wall clock, read in the run that plans the recovery, is within the
   window of a record that was on disk before the trace, or whose save counted from a clock reading of its own.
   */
  lemma TrustIsReadNow(file: File, log: seq<Call>, base: nat, trace: seq<Event>, stamps: seq<nat>, i: nat)
    requires Accepted(Boot(file), trace) && Witnessed(log, base, trace, stamps)
    requires base <= i < |trace| && trace[i].Planned? && trace[i].plan.Recovery?
    requires !Compatible(trace[i].plan.record.serial, trace[i].plan.bootloader.serial)
    ensures var record, now := trace[i].plan.record, trace[i].views.now;
            && JustBefore(log, base, stamps, i, Dated(now))
            && record.deadline.Some? && 0 <= record.deadline.value - now <= SetupOf(trace[..i]).Window() <= 120
            && (DiskAfter(file, trace[..i]) == file
                || exists j: nat :: j < i && OpenedHandoff(trace, j, record) && TimedAt(log, base, trace, stamps, j))
  {
    var record := trace[i].plan.record;
    DescriptorTrustIsBounded(file, trace, i);
    SurveyedParts(log, StampBefore(stamps, i), stamps[i], trace[i].views);
    LoggedIsJustBefore(log, base, trace, stamps, i, Dated(trace[i].views.now));
    if DiskAfter(file, trace[..i]) != file {
      var j: nat :| j < i && OpenedHandoff(trace, j, record);
      DeadlineIsTimed(log, base, trace, stamps, j, record);
    }
  }

  lemma DeadlineIsTimed(log: seq<Call>, base: nat, trace: seq<Event>, stamps: seq<nat>, j: nat, record: KnownDevice)
    requires Witnessed(log, base, trace, stamps) && OpenedHandoff(trace, j, record)
    ensures TimedAt(log, base, trace, stamps, j)
  {
    if base <= j {
      LoggedIsJustBefore(log, base, trace, stamps, j, Dated(trace[j].at));
    }
  }
}
