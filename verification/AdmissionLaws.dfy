/**
 What every interleaving of requests, reaper, worker and shutdown keeps.
 */
module AdmissionLaws {
  import opened Common
  import opened Operation
  import opened Admission

  // ---------------------------------------------------------------- the invariant

  function Inside(s: State): Inner { if s.visit.Some? then s.visit.value.pc else Entering(Validate) }

  /** The worker dequeued an operation that still counts as queued. */
  predicate HasTaken(w: Work) { w.Took? || w.Deciding? || w.Marking? }

  predicate IsFlashing(w: Work) { w.Arming? || w.Flashing? || w.Reporting? }

  /** One operation at a time; between `put_nowait` and the status the controller lock is held. */
  predicate Single(s: State)
  {
    var inside, ops := Inside(s), s.ops;
    && |ops.queue| <= 1
    && (inside.Announcing? ==>
          && !Pending(ops) && !IsFlashing(s.worker)
          && ((ops.queue == [inside.op] && !HasTaken(s.worker)) || (ops.queue == [] && s.worker == Took(inside.op))))
    && (!inside.Announcing? ==>
          && (ops.queue != [] ==> ops.status.Queued? && ops.current == Some(ops.queue[0].id) && !HasTaken(s.worker))
          && (HasTaken(s.worker) ==> ops.status.Queued? && ops.current == Some(s.worker.op.id))
          && (IsFlashing(s.worker) <==> ops.status.Running?)
          && (IsFlashing(s.worker) ==> ops.current == Some(s.worker.op.id))
          && (ops.status.Queued? ==> ops.queue != [] || HasTaken(s.worker)))
    && (inside.Locking? || inside.Talking? ==> !Pending(ops))
    && !(inside.Talking? && s.worker.Verifying?)
  }

  predicate Claims(pc: Inner) { pc.Submitting? || pc.Announcing? || pc.Refusing? || pc.Consuming? }

  /** At most one upload is staged, and it is claimed exactly while its claimer is in the lock. */
  ghost predicate Shelf(s: State)
  {
    var inside := Inside(s);
    && (forall a, b :: a in s.registry && b in s.registry ==> a == b)
    && (Claims(inside) ==> inside.artifact in s.registry)
    && (forall a :: a in s.registry ==> (s.registry[a].claimed <==> Claims(inside) && inside.artifact == a))
    && (inside.Submitting? || inside.Announcing? ==> s.registry[inside.artifact].file == inside.op.file)
  }

  predicate Closed(w: Work) { w.Draining? || w.Deleting? || w.Shutting? || w.Purging? || w.Done? }

  /** After close_admission nobody gets past the first check again. */
  predicate Gate(s: State)
  {
    && (s.accepting <==> !Closed(s.worker))
    && (!s.accepting ==> Inside(s).Entering?)
    && (s.worker.Dropping? || s.worker.Closing? || Closed(s.worker) ==> s.stopping)
    && (Closed(s.worker) && !s.worker.Draining? ==> s.ops.queue == [])
    && (s.worker.Purging? || s.worker.Done? ==> s.registry == map[])
  }

  ghost predicate Core(s: State) { Single(s) && Shelf(s) && Gate(s) && s.fault.None? }

  // ---------------------------------------------------------------- requests keep it

  lemma SweptShelf(s: State)
    requires Shelf(s)
    ensures Shelf(Swept(s)) && forall a :: a in s.registry && s.registry[a].claimed ==> a in Swept(s).registry
  {
  }

  lemma SweptKeeps(s: State)
    requires Core(s)
    ensures Core(Swept(s))
    ensures var r := Swept(s); r == s.(registry := r.registry, owner := r.owner, unlinks := r.unlinks)
  {
    SweptShelf(s);
  }

  lemma StageKeeps(s: State, v: Visit, file: Upload, token: Artifact, manual: bool)
    requires Core(s) && s.visit == Some(v) && v.pc == Staging(file)
    ensures Core(DoStage(s, v, file, token, manual))
  {
  }

  lemma LeaveKeeps(s: State, v: Visit)
    requires Core(s) && s.visit == Some(v)
    ensures v.pc.Refusing? ==> Core(DoRelease(s, v, v.pc.artifact))
    ensures v.pc.Consuming? ==> Core(DoConsume(s, v, v.pc.artifact))
    ensures !Claims(v.pc) ==> forall pc :: Core(Exit(s, v, pc))
  {
  }

  lemma ClaimedKeeps(s: State, v: Visit, artifact: Artifact, pc: Inner)
    requires Core(s) && s.visit == Some(v) && v.pc.Claiming? && artifact in s.registry
    requires pc == Refusing(artifact) || (pc.Submitting? && pc.artifact == artifact
             && pc.op.file == s.registry[artifact].file)
    ensures Core(Next(s, v, pc).(registry := s.registry[artifact := s.registry[artifact].(claimed := true)]))
  {
  }

  lemma ClaimKeeps(s: State, v: Visit, artifact: Artifact, confirm: Confirmation)
    requires Core(s) && s.visit == Some(v) && v.pc == Claiming(artifact, confirm)
    ensures Core(DoClaim(s, v, artifact, confirm))
  {
    LeaveKeeps(s, v);
    if artifact in s.registry {
      assert !s.registry[artifact].claimed;
      var entry := s.registry[artifact];
      ClaimedKeeps(s, v, artifact, Refusing(artifact));
      var pc := Submitting(artifact, FlashOperation(s.ids, artifact, entry.file, entry.manual));
      ClaimedKeeps(s, v, artifact, pc);
      hide Single, Shelf, Gate, Confirms, Exit;
      assert s.fault.None?;
    }
  }

  lemma SubmitKeeps(s: State, v: Visit, artifact: Artifact, op: FlashOperation)
    requires Core(s) && s.visit == Some(v) && v.pc == Submitting(artifact, op) && !ControllerHeld(s)
    ensures Core(DoSubmit(s, v, artifact, op))
  {
  }

  lemma AnnounceKeeps(s: State, v: Visit, artifact: Artifact, op: FlashOperation)
    requires Core(s) && s.visit == Some(v) && v.pc == Announcing(artifact, op)
    ensures Core(DoAnnounce(s, v, artifact, op))
  {
    hide Kept, LastOf;
  }

  /** Moving on inside the lock, before anything is claimed. */
  lemma NextKeeps(s: State, v: Visit, pc: Inner)
    requires Core(s) && s.visit == Some(v) && s.accepting && !Claims(v.pc) && !Claims(pc)
    requires pc.Locking? || pc.Talking? ==> !Pending(s.ops)
    requires pc.Talking? ==> !FlasherHeld(s)
    ensures Core(Next(s, v, pc))
  {
  }

  lemma EnterKeeps(s: State, v: Visit, job: Job)
    requires Core(s) && s.visit == Some(v) && v.pc.Entering?
    ensures Core(DoEnter(s, v, job))
  {
    LeaveKeeps(s, v);
    hide Core, Next, Exit;
    if s.accepting {
      NextKeeps(s, v, if job.Flash? then Claiming(job.artifact, job.confirm) else Checking(job));
    }
  }

  lemma CheckKeeps(s: State, v: Visit, job: Job)
    requires Core(s) && s.visit == Some(v) && v.pc.Checking?
    ensures Core(DoCheck(s, v, job))
  {
    LeaveKeeps(s, v);
    assert s.accepting;
    hide Core, Next, Exit, Pending;
    if !Pending(s.ops) {
      match job
      case Stage(file) => NextKeeps(s, v, Staging(file));
      case Errand => NextKeeps(s, v, Locking);
      case Flash(artifact, confirm) => NextKeeps(s, v, Claiming(artifact, confirm));
      case Validate =>
    }
  }

  lemma ProceedKeeps(s: State, v: Visit, token: Artifact, manual: bool)
    requires Core(s) && s.visit == Some(v) && MayProceed(s, v, token)
    ensures Core(DoProceed(s, v, token, manual))
  {
    assert s.accepting || v.pc.Entering?;
    assert v.pc.Locking? ==> !Pending(s.ops);
    hide DoEnter, DoCheck, DoStage, DoClaim, DoSubmit, DoAnnounce, DoRelease, DoConsume, Core, Swept, Next, Exit,
      Pending;
    SweptKeeps(s);
    match v.pc
    case Staging(file) => StageKeeps(Swept(s), v, file, token, manual);
    case Claiming(artifact, confirm) => ClaimKeeps(Swept(s), v, artifact, confirm); LeaveKeeps(s, v);
    case Submitting(artifact, op) => SubmitKeeps(s, v, artifact, op);
    case Announcing(artifact, op) => AnnounceKeeps(s, v, artifact, op);
    case Entering(job) => EnterKeeps(s, v, job);
    case Checking(job) => CheckKeeps(s, v, job);
    case Locking => NextKeeps(s, v, Talking);
    case _ => LeaveKeeps(s, v);
  }

  // ---------------------------------------------------------------- the worker keeps it

  lemma TakeKeeps(s: State)
    requires Core(s) && s.worker.Getting?
    ensures Core(DoTake(s))
  {
  }

  lemma ClaimForRunKeeps(s: State, op: FlashOperation)
    requires Core(s) && s.worker == Took(op) && !ControllerHeld(s)
    ensures Core(DoClaimForRun(s, op))
  {
  }

  lemma DecideKeeps(s: State, op: FlashOperation)
    requires Core(s) && s.worker == Deciding(op)
    ensures Core(DoDecide(s, op))
  {
    hide Kept, LastOf;
  }

  lemma MarkKeeps(s: State, op: FlashOperation)
    requires Core(s) && s.worker == Marking(op)
    ensures Core(DoMark(s, op))
  {
    hide Kept, LastOf;
  }

  lemma FlashKeeps(s: State, op: FlashOperation, percent: int, text: string, ok: bool)
    requires Core(s)
    ensures s.worker == Flashing(op) ==> Core(DoReport(s, op, percent, text))
    ensures s.worker == Reporting(op, ok) && !ControllerHeld(s) ==> Core(DoEnd(s, op, ok, text))
  {
    hide Kept, LastOf;
  }

  lemma ShutdownKeeps(s: State)
    requires Core(s)
    ensures s.worker.Draining? && !ControllerHeld(s) ==> Core(DoDrain(s))
    ensures s.worker.Shutting? && s.visit.None? ==> Core(DoShut(s))
    ensures s.worker.Closing? && s.visit.None? ==> Core(s.(accepting := false, worker := Draining))
  {
    hide Kept, LastOf;
  }

  /** Steps of the worker that only move its program counter, or delete files. */
  lemma MoveKeeps(s: State, w: Work)
    requires Core(s) && HasTaken(w) == HasTaken(s.worker) == false && IsFlashing(w) == IsFlashing(s.worker)
    requires IsFlashing(w) ==> w.op == s.worker.op
    requires Closed(w) == Closed(s.worker) && (Closed(w) ==> !s.worker.Draining? && !w.Draining?)
    requires w.Purging? || w.Done? ==> s.registry == map[]
    requires w.Closing? || w.Dropping? ==> s.stopping
    requires w.Verifying? ==> !FlasherHeld(s)
    ensures Core(s.(worker := w)) && forall files :: Core(Remove(s, files).(worker := w))
  {
  }

  lemma ControlKeeps(s: State, percent: int, text: string)
    requires Core(s) && InControl(s.worker) && (s.worker.Took? || s.worker.Reporting? ==> !ControllerHeld(s))
    ensures Core(DoControl(s, percent, text))
  {
    hide Core, DoClaimForRun, DoDecide, DoMark, DoReport, DoEnd;
    match s.worker
    case Took(op) => ClaimForRunKeeps(s, op);
    case Deciding(op) => DecideKeeps(s, op);
    case Marking(op) => MarkKeeps(s, op);
    case Flashing(op) => FlashKeeps(s, op, percent, text, true);
    case Reporting(op, ok) => FlashKeeps(s, op, percent, text, ok);
  }

  lemma WorkKeeps(s: State, percent: int, text: string, ok: bool)
    requires Core(s) && MayWork(s, percent)
    ensures Core(DoWork(s, percent, text, ok))
  {
    var next := NextPc(s.worker, s.stopping, percent, ok);
    assert s.worker.Purging? ==> s.registry == map[];
    assert s.worker.Dropping? ==> s.stopping;
    if next.Some? {
      assert next.value.Verifying? ==> !FlasherHeld(s);
      MoveKeeps(s, next.value);
    } else if InControl(s.worker) {
      ControlKeeps(s, percent, text);
    } else {
      hide Core, NextPc, DoTake, DoDrain, DoShut, Remove;
      match s.worker
      case Getting => TakeKeeps(s);
      case Cleaning(op) => MoveKeeps(s, Looping);
      case Dropping(op) => MoveKeeps(s, Closing);
      case _ => ShutdownKeeps(s);
    }
  }

  lemma CoreFrame(s: State, e: State)
    requires Core(s) && (e.visit == s.visit || (s.visit.None? && e.visit.Some? && e.visit.value.pc.Entering?))
    requires e.ops == s.ops && e.registry == s.registry && e.worker == s.worker && e.accepting == s.accepting
             && e.fault == s.fault
    requires s.stopping ==> e.stopping
    ensures Core(e)
  {
  }

  lemma CoreStep(s: State, step: Step)
    requires Core(s) && Enabled(s, step)
    ensures Core(Apply(s, step))
  {
    match step
    case Expire => SweptKeeps(s);
    case Proceed(token, manual) => ProceedKeeps(s, s.visit.value, token, manual);
    case Work(percent, text, ok) => WorkKeeps(s, percent, text, ok);
    case Replace(file) => ReplaceKeeps(s, s.visit.value, file);
    case Delete(file) => DeleteKeeps(s, file);
    case _ =>
      hide Core, DoProceed, DoWork, Swept, MayProceed, MayWork;
      CoreFrame(s, Apply(s, step));
  }

  lemma ReplaceKeeps(s: State, v: Visit, file: Upload)
    requires Core(s) && s.visit == Some(v) && v.pc.Replacing?
    ensures Core(Next(Remove(s, {file}), v, Replacing(v.pc.files - {file})))
  {
    NextKeeps(s, v, Replacing(v.pc.files - {file}));
  }

  lemma DeleteKeeps(s: State, file: Upload)
    requires Core(s) && (s.worker.Deleting? || s.worker.Purging?)
    ensures Core(DoDelete(s, file))
  {
    assert s.worker.Purging? ==> s.registry == map[];
    hide Core, Remove;
    match s.worker
    case Deleting(files) => MoveKeeps(s, Deleting(files - {file}));
    case Purging(files) => MoveKeeps(s, Purging(files - {file}));
  }
}
