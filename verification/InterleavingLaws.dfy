/**
 What holds in every reachable state and on every run of requests, reaper, worker and shutdown.
 */
module InterleavingLaws {
  import opened Common
  import opened Operation
  import opened Admission
  import opened AdmissionLaws
  import opened Ownership
  import opened Shutdown

  // ---------------------------------------------------------------- uploads

  /** Each upload ever written has exactly one owner until it is unlinked, and it is unlinked once. */
  lemma ExactlyOneOwner(s: State, f: Upload)
    requires Reachable(s) && f < s.files
    ensures forall o, p :: Holds(s, o, f) && Holds(s, p, f) ==> o == p
    ensures s.unlinks[f] == if exists o :: Holds(s, o, f) then 0 else 1
  {
    ReachableInv(s);
    EveryOwnerHolds(s);
  }

  /** Who a step deletes for. */
  function Deleter(s: State, step: Step): Owner
    requires Enabled(s, step)
  {
    match step
    case Drop(t) => InRequest(t)
    case Replace(_) => InRequest(s.visit.value.t)
    case Work(_, _, _) => InWorker
    case Delete(_) => InWorker
    case _ => InRegistry
  }

  /** Whoever unlinks an upload owns it. */
  lemma OnlyOwnersUnlink(s: State, step: Step, f: Upload)
    requires Reachable(s) && Enabled(s, step) && Apply(s, step).unlinks[f] != s.unlinks[f]
    ensures Holds(s, Deleter(s, step), f) && s.unlinks[f] == 0 && Apply(s, step).unlinks[f] == 1
  {
    ReachableInv(s);
    InvStep(s, step);
    UnlinkedBy(s, step, f);
  }

  /** The upload of an operation that is queued, taken or flashing is never gone. */
  lemma OpenOperationsKeepTheirUpload(s: State, i: Id)
    requires Reachable(s) && i in s.tickets && (s.tickets[i].fate.Accepted? || s.tickets[i].fate.Running?)
    ensures s.unlinks[s.tickets[i].file] == 0
    ensures Holds(s, InQueue, s.tickets[i].file) || Holds(s, InWorker, s.tickets[i].file)
  {
    ReachableInv(s);
    var file := s.tickets[i].file;
    if HasTaken(s.worker) || IsFlashing(s.worker) {
      assert s.worker.op.id == i ==> Holds(s, InWorker, file);
    }
    if s.ops.queue != [] && s.ops.queue[0].id == i {
      assert s.ops.queue[0] in s.ops.queue;
      assert Holds(s, InQueue, file);
    }
  }

  /** Once `run` and all requests are finished no upload remains, each was unlinked exactly once. */
  lemma NothingIsLeft(s: State, f: Upload)
    requires Reachable(s) && s.worker.Done? && (forall t :: At(s, t).Finished?)
    ensures s.registry == map[] && s.ops.queue == [] && s.visit.None?
    ensures s.unlinks[f] == if f < s.files then 1 else 0
  {
    ReachableInv(s);
    assert s.visit.Some? ==> At(s, s.visit.value.t).Finished?;
    EveryOwnerHolds(s);
  }

  lemma EveryOwnerHolds(s: State)
    requires Owned(s)
    ensures forall f :: f in s.owner ==> Holds(s, s.owner[f], f)
  {
  }

  // ---------------------------------------------------------------- operations

  /** Between controller sections, at most one operation exists, and status and place of it agree. */
  lemma OneOperationAtATime(s: State)
    requires Reachable(s)
    ensures |s.ops.queue| <= 1 && s.fault.None?
    ensures !ControllerHeld(s) ==>
              && (s.ops.queue != [] ==> s.ops.status.Queued? && s.ops.current == Some(s.ops.queue[0].id))
              && (s.ops.status.Running? <==> IsFlashing(s.worker))
              && (s.worker.Took? ==> s.ops.queue == [] && s.ops.current == Some(s.worker.op.id))
    ensures s.worker.Flashing? ==> s.ops.status.Running? && s.ops.current == Some(s.worker.op.id)
    ensures s.visit.Some? && s.visit.value.pc.Talking? ==>
              !Pending(s.ops) && s.ops.queue == [] && !HasTaken(s.worker) && !IsFlashing(s.worker)
    ensures s.worker.Arming? ==> !FlasherHeld(s)
  {
    ReachableInv(s);
  }

  predicate Advances(s: State, before: Fate, after: Fate)
  {
    || after == before
    || (before.Accepted? && after.Running? && s.worker.Marking?)
    || (before.Accepted? && after.Discarded? && s.stopping)
    || (before.Running? && after.Ended?)
  }

  /** An operation is accepted, then running, then ended; or it is discarded, and only while stopping. */
  lemma FatesMoveForward(s: State, step: Step, i: Id)
    requires Reachable(s) && Enabled(s, step) && i in s.tickets
    ensures var e := Apply(s, step);
            && i in e.tickets && e.tickets[i].file == s.tickets[i].file
            && Advances(s, s.tickets[i].fate, e.tickets[i].fate)
  {
    ReachableInv(s);
    FateStep(s, step);
  }

  /** At the end of `run` every submitted operation has ended or was discarded, and its upload is gone. */
  lemma EverySubmissionSettles(s: State, i: Id)
    requires Reachable(s) && s.worker.Done? && i in s.tickets
    ensures s.tickets[i].fate.Ended? || s.tickets[i].fate.Discarded?
    ensures s.unlinks[s.tickets[i].file] == 1
  {
    ReachableInv(s);
    SettledAtTheEnd(s, i);
  }

  ghost predicate TicketsAdvance(s: State, e: State)
  {
    && (forall i :: i in s.tickets ==>
          i in e.tickets && e.tickets[i].file == s.tickets[i].file && Advances(s, s.tickets[i].fate, e.tickets[i].fate))
    && (forall i :: i in e.tickets && i !in s.tickets ==> e.tickets[i].fate.Accepted?)
  }

  lemma ProceedFates(s: State, v: Visit, token: Artifact, manual: bool)
    requires Tickets(s) && s.visit == Some(v)
    ensures TicketsAdvance(s, DoProceed(s, v, token, manual))
  {
    hide Tickets, Swept, DoClaim, DoSubmit;
    if v.pc.Submitting? {
      SubmitFates(s, v, v.pc.artifact, v.pc.op);
    } else if !v.pc.Claiming? {
      ProceedFrame(s, v, token, manual);
      hide DoProceed;
    }
  }

  lemma SubmitFates(s: State, v: Visit, artifact: Artifact, op: FlashOperation)
    requires Tickets(s) && s.visit == Some(v) && v.pc == Submitting(artifact, op)
    ensures TicketsAdvance(s, DoSubmit(s, v, artifact, op))
  {
    hide Pending, Put;
  }

  lemma DrainFates(s: State)
    requires Core(s) && Tickets(s) && s.worker.Draining?
    ensures TicketsAdvance(s, DoDrain(s))
  {
    hide Drained, QueuedFiles;
  }

  lemma ControlFates(s: State, percent: int, text: string)
    requires Tickets(s) && InControl(s.worker)
    ensures TicketsAdvance(s, DoControl(s, percent, text))
  {
    hide Settle, DoClaimForRun, DoReport, TicketsAdvance, Discard, MarkRunning, Completed, HasBroken;
    var op, e := s.worker.op, DoControl(s, percent, text);
    SettleAdvances(s, e, op,
      if s.worker.Deciding? then Discarded else if s.worker.Marking? then Fate.Running else Ended);
  }

  lemma SettleAdvances(s: State, e: State, op: FlashOperation, fate: Fate)
    ensures op.id in s.tickets && Advances(s, s.tickets[op.id].fate, fate) ==>
              (e.tickets == Settle(s, {op.id}, fate).tickets ==> TicketsAdvance(s, e))
    ensures e.tickets == s.tickets ==> TicketsAdvance(s, e)
  {
  }

  lemma WorkFates(s: State, percent: int, text: string, ok: bool)
    requires Core(s) && Tickets(s)
    ensures TicketsAdvance(s, DoWork(s, percent, text, ok))
  {
    hide Core, Tickets, NextPc, DoControl, DoTake, DoDrain, DoShut;
    if InControl(s.worker) {
      ControlFates(s, percent, text);
    } else if s.worker.Draining? {
      DrainFates(s);
    } else {
      hide DoWork;
    }
  }

  lemma FateStep(s: State, step: Step)
    requires Core(s) && Tickets(s) && Enabled(s, step)
    ensures TicketsAdvance(s, Apply(s, step))
  {
    match step
    case Proceed(token, manual) => ProceedFates(s, s.visit.value, token, manual);
    case Work(percent, text, ok) => WorkFates(s, percent, text, ok);
    case _ => hide DoProceed, DoWork;
  }

  // ---------------------------------------------------------------- who unlinks

  lemma SweptUnlinks(s: State, f: Upload)
    requires Core(s) && Owned(s) && Swept(s).unlinks[f] != s.unlinks[f]
    ensures Holds(s, InRegistry, f)
  {
    var a := Sole(s.registry);
    ShelvedIs(s, if a.Some? then a.value else "");
  }

  lemma UnlinkedBy(s: State, step: Step, f: Upload)
    requires Inv(s) && Enabled(s, step) && Apply(s, step).unlinks[f] != s.unlinks[f]
    ensures Holds(s, Deleter(s, step), f)
  {
    hide DoProceed, DoWork, Swept, Remove, MayProceed, MayWork;
    match step
    case Expire => SweptUnlinks(s, f);
    case Proceed(token, manual) => SweptUnlinks(s, f);
    case Work(percent, text, ok) =>
    case Drop(t) => RemovedOnly(s, {At(s, t).file}, f);
    case Replace(file) => RemovedOnly(s, {file}, f);
    case Delete(file) => RemovedOnly(s, {file}, f);
    case _ => OthersUnlinkNothing(s, step);
  }

  lemma OthersUnlinkNothing(s: State, step: Step)
    requires Enabled(s, step)
    ensures step.Tick? || step.Signal? || step.Arrive? || step.Enter? || step.Write? || step.Parse? ==>
            Apply(s, step).unlinks == s.unlinks
  {
    hide DoProceed, DoWork, Swept, MayProceed, MayWork;
  }

  lemma RemovedOnly(s: State, files: set<Upload>, f: Upload)
    ensures Remove(s, files).unlinks[f] != s.unlinks[f] ==> f in files
  {
  }

  // ---------------------------------------------------------------- the shutdown cut

  ghost predicate RunningIn(s: State, i: Id) { i in s.tickets && s.tickets[i].fate.Running? }

  lemma StopStep(s: State, step: Step)
    requires s.stopping && !s.worker.Marking? && Enabled(s, step)
    ensures Apply(s, step).stopping && !Apply(s, step).worker.Marking?
  {
    hide DoProceed, DoWork;
  }

  /** Once a stop is requested no operation starts running, unless its claim had already looked. */
  lemma {:induction false} NoLateStart(s: State, steps: seq<Step>, e: State, i: Id)
    requires Inv(s) && s.stopping && !s.worker.Marking? && Follows(s, steps, e)
    ensures RunningIn(e, i) ==> RunningIn(s, i)
    decreases |steps|
  {
    if steps != [] {
      var next := Apply(s, steps[0]);
      InvStep(s, steps[0]);
      StopStep(s, steps[0]);
      FateStep(s, steps[0]);
      hide Inv;
      NoLateStart(next, steps[1..], e, i);
    }
  }

  ghost predicate StartsIn(s: State, steps: seq<Step>, e: State, i: Id)
  {
    Follows(s, steps, e) && RunningIn(e, i) && !RunningIn(s, i)
  }

  /**
   `claim_for_run` is not atomic with the signal: an operation can still start after the stop event
   exactly if the worker is between the check of the event and the change of status.
   */
  lemma LateStartExactly(s: State)
    requires Reachable(s) && s.stopping
    ensures (exists steps, e, i :: StartsIn(s, steps, e, i)) <==> s.worker.Marking?
  {
    ReachableInv(s);
    if s.worker.Marking? {
      var step := Step.Work(0, "", true);
      var e := Apply(s, step);
      assert Follows(e, [], e);
      assert [step][1..] == [];
      assert Follows(s, [step], e);
      InvStep(s, step);
      var steps, i := [step], s.worker.op.id;
      assert StartsIn(s, steps, e, i);
    } else if exists steps, e, i :: StartsIn(s, steps, e, i) {
      var steps, e, i :| StartsIn(s, steps, e, i);
      NoLateStart(s, steps, e, i);
    }
  }

  /** Only the worker changes the fate of an operation. */
  lemma OnlyWorkSettles(s: State, step: Step, i: Id)
    requires Tickets(s) && Enabled(s, step) && !step.Work? && i in s.tickets
    ensures i in Apply(s, step).tickets && Apply(s, step).tickets[i] == s.tickets[i]
  {
    if step.Proceed? && s.visit.value.pc.Submitting? {
      hide Pending;
    } else if step.Proceed? {
      hide Tickets, DoProceed, DoStage, DoClaim;
      ProceedTicketsKept(s, s.visit.value, step.artifact, step.manual);
    } else {
      hide Tickets, DoProceed, DoWork, MayProceed, MayWork;
    }
  }

  lemma ProceedTicketsKept(s: State, v: Visit, token: Artifact, manual: bool)
    requires s.visit == Some(v) && !v.pc.Submitting?
    ensures DoProceed(s, v, token, manual).tickets == s.tickets
  {
    hide Swept, DoClaim;
    if !v.pc.Claiming? {
      ProceedFrame(s, v, token, manual);
      hide DoProceed;
    }
  }

  /** The worker's claim has seen no stop and has not taken effect, or it has. */
  ghost predicate Committed(s: State, i: Id)
  {
    && i in s.tickets
    && (|| (s.worker.Marking? && s.worker.op.id == i && s.tickets[i].fate.Accepted?)
        || s.tickets[i].fate.Running? || s.tickets[i].fate.Ended?)
  }

  lemma CommittedStep(s: State, step: Step, i: Id)
    requires Inv(s) && Enabled(s, step) && Committed(s, i)
    ensures Committed(Apply(s, step), i)
  {
    FateStep(s, step);
    if s.worker.Marking? && s.worker.op.id == i && s.tickets[i].fate.Accepted? {
      if step.Work? {
        hide Inv, MayWork, NextPc;
        MarkingWorks(s, step.percent, step.text, step.ok);
      } else {
        OnlyWorkSettles(s, step, i);
        hide Inv, DoProceed;
      }
    } else {
      hide Inv, Apply, Enabled;
    }
  }

  lemma MarkingWorks(s: State, percent: int, text: string, ok: bool)
    requires s.worker.Marking? && s.worker.op.id in s.tickets
    ensures var e := DoWork(s, percent, text, ok);
            s.worker.op.id in e.tickets && e.tickets[s.worker.op.id].fate.Running?
  {
  }

  /** Accepted and not committed, or discarded. */
  ghost predicate Doomed(s: State, i: Id)
  {
    i in s.tickets && (s.tickets[i].fate.Discarded? || (s.tickets[i].fate.Accepted? && !s.worker.Marking?))
  }

  /** An accepted operation that waits while the worker marks one is the marked one. */
  lemma MarkedIsTheOne(s: State, i: Id)
    requires Inv(s) && s.worker.Marking? && i in s.tickets && s.tickets[i].fate.Accepted?
    ensures s.worker.op.id == i
  {
  }

  lemma {:induction false} FateKept(s: State, steps: seq<Step>, e: State, i: Id)
    requires Inv(s) && s.stopping && Follows(s, steps, e)
    ensures Committed(s, i) ==> Committed(e, i)
    ensures Doomed(s, i) && !s.worker.Marking? ==> Doomed(e, i) && !e.worker.Marking?
    ensures i in s.tickets ==> i in e.tickets && e.tickets[i].file == s.tickets[i].file
    decreases |steps|
  {
    if steps != [] {
      var next := Apply(s, steps[0]);
      InvStep(s, steps[0]);
      FateStep(s, steps[0]);
      KeepsStopping(s, steps[0]);
      if Committed(s, i) {
        CommittedStep(s, steps[0], i);
      }
      if !s.worker.Marking? {
        StopStep(s, steps[0]);
      }
      hide Inv, Apply, Enabled, Committed;
      FateKept(next, steps[1..], e, i);
    }
  }

  /**
   The shutdown cut: what is queued, submitted or taken when the stop event is set ends discarded, unless
   the worker had already looked and was about to mark it; then it ends completed or failed. Its upload
   is deleted either way.
   */
  lemma StopDecidesFate(s: State, steps: seq<Step>, e: State, i: Id)
    requires Reachable(s) && s.stopping && i in s.tickets && s.tickets[i].fate.Accepted?
    requires Follows(s, steps, e) && e.worker.Done?
    ensures i in e.tickets && e.unlinks[s.tickets[i].file] == 1
    ensures e.tickets[i].fate == if s.worker.Marking? then Ended else Discarded
  {
    ReachableInv(s);
    RunInv(s, steps, e);
    if s.worker.Marking? {
      MarkedIsTheOne(s, i);
    }
    FateKept(s, steps, e, i);
    SettledAtTheEnd(e, i);
  }

  lemma SettledAtTheEnd(s: State, i: Id)
    requires Inv(s) && s.worker.Done? && i in s.tickets
    ensures s.tickets[i].fate.Ended? || s.tickets[i].fate.Discarded?
    ensures s.unlinks[s.tickets[i].file] == 1
  {
    EveryOwnerHolds(s);
  }

  // ---------------------------------------------------------------- nothing hangs

  function WorkRank(w: Work): nat
  {
    match w
    case Starting => 17
    case Verifying => 16
    case Getting => 15
    case Took(_) => 14
    case Deciding(_) => 13
    case Marking(_) => 12
    case Arming(_) => 11
    case Flashing(_) => 10
    case Reporting(_, _) => 9
    case Cleaning(_) => 8
    case Looping => 7
    case Dropping(_) => 6
    case Closing => 5
    case Draining => 4
    case Deleting(_) => 3
    case Shutting => 2
    case Purging(_) => 1
    case Done => 0
  }

  function FilesLeft(w: Work): nat { if w.Deleting? || w.Purging? then |w.files| else 0 }

  function VisitRank(s: State): nat
  {
    match s.visit
    case None => 0
    case Some(v) =>
      match v.pc
      case Entering(_) => 9
      case Checking(_) => 8
      case Staging(_) => 7
      case Claiming(_, _) => 7
      case Submitting(_, _) => 6
      case Announcing(_, _) => 5
      case Refusing(_) => 4
      case Consuming(_) => 4
      case Locking => 3
      case Talking => 2
      case Replacing(_) => 1
  }

  function FilesReplaced(s: State): nat { if s.visit.Some? && s.visit.value.pc.Replacing?
    then |s.visit.value.pc.files| else 0 }

  /** A step of the worker, or of the request it has to wait for. */
  ghost function Onward(s: State): Step
  {
    if FilesLeft(s.worker) > 0 then (var f :| f in s.worker.files; Delete(f))
    else if MayWork(s, -1) then Step.Work(-1, "", true)
    else if FilesReplaced(s) > 0 then (var f :| f in s.visit.value.pc.files; Replace(f))
    else Proceed(if "" in s.registry then "other" else "", false)
  }

  /** No deadlock: until `run` has finished, the worker or the request it waits for can go on. */
  lemma NeverStuck(s: State)
    requires Inv(s) && !s.worker.Done?
    ensures Enabled(s, Onward(s))
  {
    if FilesLeft(s.worker) == 0 && !MayWork(s, -1) {
      assert s.visit.Some?;
      assert s.visit.value.pc.Staging? && "" in s.registry ==> "other" !in s.registry;
    }
  }

  lemma StrictSubset(files: set<Upload>, f: Upload)
    ensures f in files ==> |files - {f}| < |files|
  {
  }

  /** While stopping each such step brings the end of `run` closer. */
  lemma OnwardIsProgress(s: State)
    requires Inv(s) && s.stopping && !s.worker.Done?
    ensures Enabled(s, Onward(s))
    ensures var e := Apply(s, Onward(s));
            WorkRank(e.worker) < WorkRank(s.worker)
            || (WorkRank(e.worker) == WorkRank(s.worker) && FilesLeft(e.worker) < FilesLeft(s.worker))
            || (e.worker == s.worker && (VisitRank(e) < VisitRank(s) || (VisitRank(e) == VisitRank(s)
              && FilesReplaced(e) < FilesReplaced(s))))
  {
    NeverStuck(s);
    var step := Onward(s);
    match step
    case Delete(f) => StrictSubset(s.worker.files, f); hide Inv, DoWork, DoProceed;
    case Replace(f) => StrictSubset(s.visit.value.pc.files, f); hide Inv, DoWork, DoProceed;
    case Work(_, _, _) => WorkDescends(s); hide DoWork, DoProceed;
    case Proceed(token, manual) => ProceedDescends(s, s.visit.value, token, manual); hide DoWork, DoProceed;
  }

  lemma WorkDescends(s: State)
    requires Core(s) && s.stopping && !s.worker.Done?
    ensures WorkRank(DoWork(s, -1, "", true).worker) < WorkRank(s.worker)
  {
    hide Core, DoTake, DoControl, DoDrain, DoShut, Remove;
    if InControl(s.worker) {
      ControlDescends(s);
    } else if NextPc(s.worker, s.stopping, -1, true).Some? {
      NextDescends(s);
      hide NextPc, WorkRank;
    }
  }

  lemma NextDescends(s: State)
    requires s.stopping && NextPc(s.worker, s.stopping, -1, true).Some?
    ensures WorkRank(NextPc(s.worker, s.stopping, -1, true).value) < WorkRank(s.worker)
  {
  }

  lemma ControlDescends(s: State)
    requires s.stopping && InControl(s.worker)
    ensures NextPc(s.worker, s.stopping, -1, true).None? ==>
              WorkRank(DoControl(s, -1, "").worker) < WorkRank(s.worker)
  {
    hide DoClaimForRun, DoDecide, DoMark, DoReport, DoEnd;
  }

  lemma ClaimDescends(s: State, v: Visit, artifact: Artifact, confirm: Confirmation)
    ensures VisitRank(DoClaim(s, v, artifact, confirm)) < 7
  {
    hide Confirms;
  }

  lemma SubmitVisit(s: State, v: Visit, artifact: Artifact, op: FlashOperation)
    ensures DoSubmit(s, v, artifact, op).visit in
            {Some(v.(pc := Refusing(artifact))), Some(v.(pc := Announcing(artifact, op)))}
  {
    hide Pending, Put, Give;
    GivesOnly(Next(s, v, Announcing(artifact, op)), {op.file}, InQueue);
  }

  lemma GivesOnly(s: State, files: set<Upload>, o: Owner)
    ensures Give(s, files, o).visit == s.visit
  {
  }

  lemma SubmitDescends(s: State, v: Visit, artifact: Artifact, op: FlashOperation)
    ensures VisitRank(DoSubmit(s, v, artifact, op)) < 6
  {
    hide DoSubmit;
    SubmitVisit(s, v, artifact, op);
  }

  lemma StageDescends(s: State, v: Visit, file: Upload, token: Artifact, manual: bool)
    ensures VisitRank(DoStage(s, v, file, token, manual)) < 7
  {
    hide FilesIn, AnyClaimed;
  }

  lemma CheckDescends(s: State, v: Visit, job: Job)
    ensures VisitRank(DoEnter(s, v, job)) < 9 && (VisitRank(DoCheck(s, v, job)) < 8)
  {
    hide Pending;
  }

  lemma ProceedDescends(s: State, v: Visit, token: Artifact, manual: bool)
    requires s.visit == Some(v)
    ensures VisitRank(DoProceed(s, v, token, manual)) < VisitRank(s)
  {
    hide Kept, Swept, DoEnter, DoCheck, DoStage, DoClaim, DoSubmit;
    match v.pc
    case Entering(job) => CheckDescends(s, v, job);
    case Checking(job) => CheckDescends(s, v, job);
    case Staging(file) => StageDescends(Swept(s), v, file, token, manual);
    case Claiming(artifact, confirm) => ClaimDescends(Swept(s), v, artifact, confirm);
    case Submitting(artifact, op) => SubmitDescends(s, v, artifact, op);
    case _ =>
  }

  /** A step of the worker, or of the request already inside the admission lock. */
  predicate Inward(step: Step) { step.Work? || step.Delete? || step.Proceed? || step.Replace? }

  ghost predicate Finishes(s: State, steps: seq<Step>, e: State)
  {
    Follows(s, steps, e) && e.worker.Done? && forall k :: 0 <= k < |steps| ==> Inward(steps[k])
  }

  ghost predicate CanFinish(s: State) { exists steps, e :: Finishes(s, steps, e) }

  lemma FinishLater(s: State, step: Step)
    requires Enabled(s, step) && Inward(step) && CanFinish(Apply(s, step))
    ensures CanFinish(s)
  {
    var steps, e :| Finishes(Apply(s, step), steps, e);
    var all := [step] + steps;
    assert all[1..] == steps;
    assert Finishes(s, all, e);
  }

  /**
   From every reachable state in which a stop was requested, `run` can finish by steps of the worker and
   of the request inside the admission lock alone: it waits for nobody else.
   */
  lemma ShutdownCompletes(s: State)
    requires Reachable(s) && s.stopping
    ensures exists steps, e :: Finishes(s, steps, e)
  {
    ReachableInv(s);
    FinishesFrom(s);
  }

  lemma {:induction false} FinishesFrom(s: State)
    requires Inv(s) && s.stopping
    ensures CanFinish(s)
    decreases WorkRank(s.worker), FilesLeft(s.worker), VisitRank(s), FilesReplaced(s)
  {
    if s.worker.Done? {
      assert Finishes(s, [], s);
    } else {
      var step := Onward(s);
      assert Inward(step);
      OnwardIsProgress(s);
      InvStep(s, step);
      KeepsStopping(s, step);
      hide Inv, Apply, Enabled, Onward, WorkRank, VisitRank, FilesReplaced;
      FinishesFrom(Apply(s, step));
      FinishLater(s, step);
    }
  }

  lemma KeepsStopping(s: State, step: Step)
    requires s.stopping && Enabled(s, step)
    ensures Apply(s, step).stopping
  {
    hide DoWork, DoProceed;
  }

  // ---------------------------------------------------------------- a run with a late start

  lemma {:induction false} OneMore(s: State, steps: seq<Step>, e: State, step: Step)
    requires Follows(s, steps, e) && Enabled(e, step)
    ensures Follows(s, steps + [step], Apply(e, step))
    decreases |steps|
  {
    if steps == [] {
      assert [step][1..] == [];
      assert Follows(Apply(s, step), [], Apply(s, step));
    } else {
      assert (steps + [step])[1..] == steps[1..] + [step];
      OneMore(Apply(s, steps[0]), steps[1..], e, step);
    }
  }

  lemma Extend(s: State, step: Step) returns (e: State)
    requires Reachable(s) && Enabled(s, step)
    ensures Reachable(e) && e == Apply(s, step)
  {
    var now, steps :| Follows(Initial(now), steps, s);
    OneMore(Initial(now), steps, s, step);
    e := Apply(s, step);
  }

  const TOKEN: Artifact := "0123456789abcdef"

  lemma ReachIdle() returns (s: State)
    ensures Reachable(s) && s == Initial(0).(worker := Getting)
  {
    hide Reachable;
    s := Initial(0);
    assert Reachable(s) by { InitialReachable(); }
    s := Extend(s, Step.Work(0, "", true));
    s := Extend(s, Step.Work(0, "", true));
    s := Extend(s, Step.Work(0, "", true));
  }

  lemma ReachEntered() returns (s: State)
    ensures Reachable(s)
    ensures s ==
            Initial(0).(worker := Getting, threads := map[0 := Within], visit := Some(Visit(0, Entering(Validate))))
  {
    hide Reachable, DoWork;
    s := ReachIdle();
    s := Extend(s, Arrive(0, Validate));
    s := Extend(s, Enter(0));
  }

  lemma ReachAdmitted() returns (s: State)
    ensures Reachable(s) && s == Initial(0).(worker := Getting, threads := map[0 := Writing])
  {
    hide Reachable, DoWork;
    s := ReachEntered();
    s := Extend(s, Proceed(TOKEN, false));
    s := Extend(s, Proceed(TOKEN, false));
  }

  lemma ReachParsed() returns (s: State)
    ensures Reachable(s) && s.worker.Getting? && s.visit.None? && s.ops == Fresh() && !s.stopping && s.accepting
    ensures s.registry == map[] && At(s, 0) == Waiting(Stage(0)) && 1 !in s.threads && s.now == 0
  {
    hide Reachable, DoWork, DoProceed;
    s := ReachAdmitted();
    s := Extend(s, Write(0, true, true));
    s := Extend(s, Parse(0, true));
  }

  lemma EmptyRegistry(s: State)
    ensures s.registry == map[] ==> Swept(s).registry == map[] && FilesIn(s.registry) == {} && !AnyClaimed(s.registry)
  {
  }

  lemma ReachStaging() returns (s: State)
    ensures Reachable(s) && s.worker.Getting? && s.visit == Some(Visit(0, Staging(0))) && s.ops == Fresh()
            && !s.stopping && s.accepting
    ensures s.registry == map[] && 1 !in s.threads && s.now == 0
  {
    hide Reachable, DoWork;
    s := ReachParsed();
    s := Extend(s, Enter(0));
    s := Extend(s, Proceed(TOKEN, false));
    s := Extend(s, Proceed(TOKEN, false));
  }

  lemma ReachStaged() returns (s: State)
    ensures Reachable(s) && s.worker.Getting? && s.visit.None? && s.ops == Fresh() && !s.stopping && s.accepting
    ensures s.registry == map[TOKEN := Staged(0, false, TTL, false)] && 1 !in s.threads && s.now == 0
  {
    hide Reachable, DoWork;
    s := ReachStaging();
    EmptyRegistry(s);
    EmptyRegistry(Swept(s));
    hide Swept, FilesIn, AnyClaimed;
    s := Extend(s, Proceed(TOKEN, false));
    s := Extend(s, Proceed(TOKEN, false));
  }

  lemma ReachAsking() returns (s: State)
    ensures Reachable(s) && s.worker.Getting? && s.ops == Fresh() && !s.stopping && s.now == 0
    ensures s.visit == Some(Visit(1, Claiming(TOKEN, Absent)))
    ensures s.registry == map[TOKEN := Staged(0, false, TTL, false)]
  {
    hide Reachable, DoWork;
    s := ReachStaged();
    s := Extend(s, Arrive(1, Flash(TOKEN, Absent)));
    s := Extend(s, Enter(1));
    s := Extend(s, Proceed(TOKEN, false));
  }

  lemma ReachClaimed() returns (s: State)
    ensures Reachable(s) && s.worker.Getting? && !s.stopping && s.ops == Fresh()
    ensures s.visit.Some? && s.visit.value.pc.Submitting? && s.visit.value.pc.artifact == TOKEN
  {
    hide Reachable, DoWork;
    s := ReachAsking();
    s := Extend(s, Proceed(TOKEN, false));
  }

  lemma ReachSubmitted() returns (s: State)
    ensures Reachable(s) && s.worker.Getting? && s.visit.None? && !s.stopping && s.ops.status.Queued?
    ensures |s.ops.queue| == 1 && s.ops.current == Some(s.ops.queue[0].id)
  {
    hide Reachable, DoWork;
    s := ReachClaimed();
    s := Extend(s, Proceed(TOKEN, false));
    s := Extend(s, Proceed(TOKEN, false));
    s := Extend(s, Proceed(TOKEN, false));
  }

  /** A run in which the signal falls between the check and the start; the operation runs after it. */
  lemma LateStartIsReachable() returns (s: State)
    ensures Reachable(s) && s.stopping && exists steps, e, i :: StartsIn(s, steps, e, i)
  {
    hide Reachable, DoProceed;
    s := ReachSubmitted();
    s := Extend(s, Step.Work(0, "", true));
    s := Extend(s, Step.Work(0, "", true));
    s := Extend(s, Step.Work(0, "", true));
    s := Extend(s, Signal);
    LateStartExactly(s);
  }

  lemma InitialReachable()
    ensures Reachable(Initial(0))
  {
    assert Follows(Initial(0), [], Initial(0));
  }
}
