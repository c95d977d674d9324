/**
 What becomes of every submitted operation and every upload, up to the end of `run`.
 */
module Shutdown {
  import opened Common
  import opened Operation
  import opened Admission
  import opened AdmissionLaws
  import opened Ownership

  // ---------------------------------------------------------------- the fate of an operation

  predicate Awaited(s: State, i: Id)
  {
    (s.ops.queue != [] && s.ops.queue[0].id == i) || (HasTaken(s.worker) && s.worker.op.id == i)
  }

  predicate Held(s: State, op: FlashOperation, fate: Fate) { op.id in s.tickets
    && s.tickets[op.id] == Ticket(op.file, fate) }

  /** A ticket is open exactly while its operation is queued, taken or flashing. */
  ghost predicate Tickets(s: State)
  {
    && (forall i :: i in s.tickets ==> i < s.ids)
    && (Inside(s).Submitting? ==> Inside(s).op.id < s.ids && Inside(s).op.id !in s.tickets)
    && (s.ops.queue != [] ==> Held(s, s.ops.queue[0], Fate.Accepted))
    && (HasTaken(s.worker) ==> Held(s, s.worker.op, Fate.Accepted))
    && (IsFlashing(s.worker) ==> Held(s, s.worker.op, Fate.Running))
    && (forall i :: i in s.tickets && s.tickets[i].fate.Accepted? ==> Awaited(s, i))
    && (forall i :: i in s.tickets && s.tickets[i].fate.Running? ==> IsFlashing(s.worker) && s.worker.op.id == i)
  }

  /** The upload of an operation never returns to a request or the registry. */
  ghost predicate Uploads(s: State)
  {
    forall i :: i in s.tickets ==>
      var ticket := s.tickets[i];
      && ticket.file < s.files
      && (ticket.file in s.owner ==>
            s.owner[ticket.file].InWorker? || (s.owner[ticket.file].InQueue? && ticket.fate.Accepted?))
  }

  lemma TicketsFrame(s: State, e: State)
    requires Tickets(s) && e.tickets == s.tickets && e.ids == s.ids && e.ops.queue == s.ops.queue
    requires e.worker == s.worker
    requires e.visit == s.visit || !Inside(e).Submitting?
    ensures Tickets(e)
  {
  }

  lemma ClaimTickets(s: State, v: Visit, artifact: Artifact, confirm: Confirmation)
    requires Tickets(s) && s.visit == Some(v) && v.pc == Claiming(artifact, confirm)
    ensures Tickets(DoClaim(s, v, artifact, confirm))
  {
    var e := DoClaim(s, v, artifact, confirm);
    if Inside(e).Submitting? {
      assert Inside(e).op.id == s.ids && e.ids == s.ids + 1 && e.ops == s.ops;
      hide DoClaim;
    } else {
      hide Tickets;
      TicketsFrame(s, e);
    }
  }

  lemma SubmitTickets(s: State, v: Visit, artifact: Artifact, op: FlashOperation)
    requires Core(s) && Tickets(s) && s.visit == Some(v) && v.pc == Submitting(artifact, op)
    ensures Tickets(DoSubmit(s, v, artifact, op))
  {
  }

  predicate SameWork(s: State, e: State)
  {
    && e.tickets == s.tickets && e.ids == s.ids && e.ops.queue == s.ops.queue
    && e.worker == s.worker && !Inside(e).Submitting?
  }

  lemma StageFrame(s: State, v: Visit, file: Upload, token: Artifact, manual: bool)
    ensures SameWork(s, DoStage(Swept(s), v, file, token, manual))
  {
    hide FilesIn, AnyClaimed, ExpiredFiles, Unexpired;
  }

  lemma ProceedFrame(s: State, v: Visit, token: Artifact, manual: bool)
    requires s.visit == Some(v) && !v.pc.Claiming? && !v.pc.Submitting?
    ensures SameWork(s, DoProceed(s, v, token, manual))
  {
    hide Kept, DoStage, Swept, DoEnter, DoCheck;
    match v.pc
    case Staging(file) => StageFrame(s, v, file, token, manual);
    case Entering(job) => CheckFrame(s, v, job);
    case Checking(job) => CheckFrame(s, v, job);
    case _ =>
  }

  lemma CheckFrame(s: State, v: Visit, job: Job)
    ensures s.visit == Some(v) && !v.pc.Submitting? ==>
              SameWork(s, DoEnter(s, v, job)) && SameWork(s, DoCheck(s, v, job))
  {
    hide Pending;
  }

  lemma ProceedTickets(s: State, v: Visit, token: Artifact, manual: bool)
    requires Core(s) && Tickets(s) && s.visit == Some(v) && MayProceed(s, v, token)
    ensures Tickets(DoProceed(s, v, token, manual))
  {
    match v.pc
    case Claiming(artifact, confirm) =>
      SweptKeeps(s);
      TicketsFrame(s, Swept(s));
      TicketsFrame(s, Exit(s, v, Finished));
      hide Swept, Core, Tickets, DoClaim;
      ClaimTickets(Swept(s), v, artifact, confirm);
    case Submitting(artifact, op) => SubmitTickets(s, v, artifact, op);
    case _ =>
      ProceedFrame(s, v, token, manual);
      hide Core, Tickets, DoProceed, ControllerHeld, FlasherHeld;
      TicketsFrame(s, DoProceed(s, v, token, manual));
  }

  lemma TakeTickets(s: State)
    requires Core(s) && Tickets(s) && s.worker.Getting?
    ensures Tickets(DoTake(s))
  {
  }

  lemma DecideTickets(s: State, op: FlashOperation)
    requires Core(s) && Tickets(s)
    ensures s.worker == Deciding(op) ==> Tickets(DoDecide(s, op))
    ensures s.worker == Marking(op) ==> Tickets(DoMark(s, op))
  {
    hide Kept, LastOf;
  }

  lemma EndTickets(s: State, op: FlashOperation, ok: bool, text: string)
    requires Core(s) && Tickets(s) && s.worker == Reporting(op, ok)
    ensures Tickets(DoEnd(s, op, ok, text))
  {
    hide Kept, LastOf;
  }

  lemma DrainTickets(s: State)
    requires Core(s) && Tickets(s) && s.worker.Draining?
    ensures Tickets(DoDrain(s))
  {
    hide Kept, LastOf;
  }

  /** The worker moves on without an operation changing hands. */
  lemma TicketsMove(s: State, e: State)
    requires Tickets(s) && e.tickets == s.tickets && e.ids == s.ids && e.ops.queue == s.ops.queue && e.visit == s.visit
    requires HasTaken(e.worker) == HasTaken(s.worker) && IsFlashing(e.worker) == IsFlashing(s.worker)
    requires HasTaken(e.worker) || IsFlashing(e.worker) ==> e.worker.op == s.worker.op
    ensures Tickets(e)
  {
  }

  lemma TookTickets(s: State, op: FlashOperation)
    requires Tickets(s) && s.worker == Took(op) && DoClaimForRun(s, op).fault.None?
    ensures Tickets(DoClaimForRun(s, op))
  {
    hide Tickets;
    TicketsMove(s, DoClaimForRun(s, op));
  }

  lemma ReportTickets(s: State, op: FlashOperation, percent: int, text: string)
    requires Tickets(s) && s.worker == Flashing(op)
    ensures Tickets(DoReport(s, op, percent, text))
  {
    hide Tickets, Kept;
    TicketsMove(s, DoReport(s, op, percent, text));
  }

  lemma ControlTickets(s: State, percent: int, text: string)
    requires Core(s) && Tickets(s) && InControl(s.worker) && DoControl(s, percent, text).fault.None?
    ensures Tickets(DoControl(s, percent, text))
  {
    hide Core, Tickets, DoClaimForRun, DoReport, DoDecide, DoMark, DoEnd;
    match s.worker
    case Took(op) => TookTickets(s, op);
    case Deciding(op) => DecideTickets(s, op);
    case Marking(op) => DecideTickets(s, op);
    case Flashing(op) => ReportTickets(s, op, percent, text);
    case Reporting(op, ok) => EndTickets(s, op, ok, text);
  }

  lemma NextTickets(s: State, percent: int, ok: bool)
    requires Tickets(s) && NextPc(s.worker, s.stopping, percent, ok).Some?
    ensures Tickets(s.(worker := NextPc(s.worker, s.stopping, percent, ok).value))
  {
    hide Tickets;
    TicketsMove(s, s.(worker := NextPc(s.worker, s.stopping, percent, ok).value));
  }

  lemma WorkTickets(s: State, percent: int, text: string, ok: bool)
    requires Core(s) && Tickets(s) && MayWork(s, percent) && DoWork(s, percent, text, ok).fault.None?
    ensures Tickets(DoWork(s, percent, text, ok))
  {
    hide Core, Tickets, DoTake, DoDrain, DoControl, DoShut, Remove;
    if NextPc(s.worker, s.stopping, percent, ok).Some? {
      NextTickets(s, percent, ok);
    } else if InControl(s.worker) {
      ControlTickets(s, percent, text);
    } else {
      StoreTickets(s);
    }
  }

  /** The steps that take, drop or drain. */
  lemma StoreTickets(s: State)
    requires Core(s) && Tickets(s)
    ensures s.worker.Getting? ==> Tickets(DoTake(s))
    ensures s.worker.Draining? ==> Tickets(DoDrain(s))
    ensures s.worker.Cleaning? ==> Tickets(Remove(s, {s.worker.op.file}).(worker := Looping))
    ensures s.worker.Dropping? ==> Tickets(Remove(s, {s.worker.op.file}).(worker := Closing))
    ensures s.worker.Closing? ==> Tickets(s.(accepting := false, worker := Draining))
    ensures s.worker.Shutting? ==> Tickets(DoShut(s))
  {
    hide Core, Tickets, DoTake, DoDrain, DoShut, Remove;
    match s.worker
    case Getting => TakeTickets(s);
    case Draining => DrainTickets(s);
    case Cleaning(op) => TicketsMove(s, Remove(s, {op.file}).(worker := Looping));
    case Dropping(op) => TicketsMove(s, Remove(s, {op.file}).(worker := Closing));
    case Closing => TicketsMove(s, s.(accepting := false, worker := Draining));
    case Shutting => TicketsMove(s, DoShut(s));
    case _ =>
  }

  lemma TicketsStep(s: State, step: Step)
    requires Core(s) && Tickets(s) && Enabled(s, step)
    ensures Tickets(Apply(s, step))
  {
    CoreStep(s, step);
    match step
    case Proceed(token, manual) => ProceedTickets(s, s.visit.value, token, manual);
    case Work(percent, text, ok) => WorkTickets(s, percent, text, ok);
    case Delete(file) => TicketsMove(s, DoDelete(s, file));
    case _ =>
      hide Core, Tickets, Swept, DoProceed, DoWork, MayProceed, MayWork;
      TicketsFrame(s, Apply(s, step));
  }

  // ---------------------------------------------------------------- the uploads of operations

  /** Uploads are unlinked, or written, or pass between requests and the registry: no operation's is touched. */
  lemma UploadsFrame(s: State, e: State)
    requires Uploads(s) && e.tickets == s.tickets && e.files >= s.files
    requires forall f :: f in e.owner && f < s.files ==>
               f in s.owner && (e.owner[f] == s.owner[f] || s.owner[f].InRequest? || s.owner[f].InRegistry?)
    ensures Uploads(e)
  {
  }

  /** While an upload is staged nothing on the shelf is handed over. */
  lemma ShelfIsHeld(s: State, token: Artifact)
    requires Core(s) && s.visit.Some? && s.visit.value.pc.Staging?
    ensures forall f :: f in FilesIn(s.registry) ==> Holds(s, InRegistry, f)
  {
    var a := Sole(s.registry);
    ShelvedIs(s, if a.Some? then a.value else token);
  }

  lemma StageUploads(s: State, v: Visit, file: Upload, token: Artifact, manual: bool)
    requires Core(s) && Owned(s) && Uploads(s) && s.visit == Some(v) && v.pc == Staging(file)
    ensures Uploads(DoStage(s, v, file, token, manual))
  {
    hide Core, Uploads;
    var e := DoStage(s, v, file, token, manual);
    ShelfIsHeld(s, token);
    assert Holds(s, InRequest(v.t), file);
    UploadsFrame(s, e);
  }

  lemma SubmitUploads(s: State, v: Visit, artifact: Artifact, op: FlashOperation)
    requires Core(s) && Owned(s) && Tickets(s) && Uploads(s) && s.visit == Some(v) && v.pc == Submitting(artifact, op)
    ensures Uploads(DoSubmit(s, v, artifact, op))
  {
    assert Holds(s, InRegistry, op.file) by { ShelvedIs(s, artifact); }
  }

  lemma SweptUploads(s: State)
    requires Uploads(s)
    ensures Uploads(Swept(s))
  {
    UploadsFrame(s, Swept(s));
  }

  lemma ProceedUploads(s: State, v: Visit, token: Artifact, manual: bool)
    requires Core(s) && Owned(s) && Tickets(s) && Uploads(s) && s.visit == Some(v) && MayProceed(s, v, token)
    ensures Uploads(DoProceed(s, v, token, manual))
  {
    if v.pc.Staging? {
      SweptKeeps(s);
      SweptOwned(s);
      SweptUploads(s);
      hide Core, Owned, Uploads, Swept, DoStage;
      StageUploads(Swept(s), v, v.pc.file, token, manual);
    } else if v.pc.Submitting? {
      SubmitUploads(s, v, v.pc.artifact, v.pc.op);
    } else {
      hide Core, Owned, Tickets;
      ProceedFiles(s, v, token, manual);
    }
  }

  lemma ProceedFiles(s: State, v: Visit, token: Artifact, manual: bool)
    requires Uploads(s) && !v.pc.Staging? && !v.pc.Submitting?
    ensures Uploads(DoProceed(s, v, token, manual))
  {
    SweptUploads(s);
    hide Uploads, Swept, DoClaim;
    if v.pc.Claiming? {
      UploadsFrame(Swept(s), DoClaim(Swept(s), v, v.pc.artifact, v.pc.confirm));
      UploadsFrame(s, Exit(s, v, Finished));
    } else {
      hide DoProceed;
      UploadsFrame(s, DoProceed(s, v, token, manual));
    }
  }

  lemma SettleUploads(s: State, op: FlashOperation, fate: Fate)
    requires Owned(s) && Tickets(s) && Uploads(s) && Carries(s.worker, op) && op.id in s.tickets
             && s.tickets[op.id].file == op.file
    ensures Uploads(Settle(s, {op.id}, fate))
  {
    assert Holds(s, InWorker, op.file);
  }

  lemma TakeUploads(s: State)
    requires Core(s) && Owned(s) && Tickets(s) && Uploads(s) && s.worker.Getting?
    ensures Uploads(DoTake(s))
  {
  }

  lemma DrainUploads(s: State)
    requires Core(s) && Owned(s) && Tickets(s) && Uploads(s) && s.worker.Draining?
    ensures Uploads(DoDrain(s))
  {
    if s.ops.queue != [] {
      assert QueuedFiles(s.ops.queue) == {s.ops.queue[0].file};
    }
    assert forall f :: f in s.owner && s.owner[f].InQueue? ==> Holds(s, InQueue, f);
  }

  lemma ShutUploads(s: State)
    requires Core(s) && Owned(s) && Uploads(s) && s.worker.Shutting? && s.visit.None?
    ensures Uploads(DoShut(s))
  {
    var a := Sole(s.registry);
    ShelvedIs(s, if a.Some? then a.value else "");
    assert forall f :: f in FilesIn(s.registry) ==> Holds(s, InRegistry, f);
  }

  lemma WorkUploads(s: State, percent: int, text: string, ok: bool)
    requires Core(s) && Owned(s) && Tickets(s) && Uploads(s) && MayWork(s, percent)
    ensures Uploads(DoWork(s, percent, text, ok))
  {
    var next := NextPc(s.worker, s.stopping, percent, ok);
    hide Core, Owned, Tickets, Uploads, NextPc, Remove, DoTake, DoControl, DoDrain, DoShut, ControllerHeld, FlasherHeld;
    if next.Some? {
      UploadsFrame(s, s.(worker := next.value));
    } else if InControl(s.worker) {
      ControlUploads(s, percent, text);
    } else {
      match s.worker
      case Getting => TakeUploads(s);
      case Draining => DrainUploads(s);
      case Shutting => ShutUploads(s);
      case Cleaning(op) => RemoveUploads(s, {op.file}, Looping);
      case Dropping(op) => RemoveUploads(s, {op.file}, Closing);
      case _ => UploadsFrame(s, DoWork(s, percent, text, ok));
    }
  }

  lemma RemoveUploads(s: State, files: set<Upload>, w: Work)
    requires Uploads(s)
    ensures Uploads(Remove(s, files).(worker := w))
  {
    UploadsFrame(s, Remove(s, files).(worker := w));
  }

  /** A controller section settles the worker's operation, or no operation. */
  lemma SettledUploads(s: State, e: State, op: FlashOperation, fate: Fate)
    requires Owned(s) && Tickets(s) && Uploads(s) && InControl(s.worker) && s.worker.op == op
    requires e.files == s.files && e.owner == s.owner
    requires e.tickets == s.tickets || e.tickets == Settle(s, {op.id}, fate).tickets
    ensures Uploads(e)
  {
    SettleUploads(s, op, fate);
    hide Owned, Tickets;
  }

  lemma ControlUploads(s: State, percent: int, text: string)
    requires Owned(s) && Tickets(s) && Uploads(s) && InControl(s.worker)
    ensures Uploads(DoControl(s, percent, text))
  {
    hide Owned, Tickets, Uploads, Settle, DoClaimForRun, DoReport, Kept;
    var e := DoControl(s, percent, text);
    match s.worker
    case Deciding(op) => SettledUploads(s, e, op, Discarded);
    case Marking(op) => SettledUploads(s, e, op, Fate.Running);
    case Took(op) => SettledUploads(s, e, op, Ended);
    case Flashing(op) => SettledUploads(s, e, op, Ended);
    case Reporting(op, _) => SettledUploads(s, e, op, Ended);
  }

  lemma UploadsStep(s: State, step: Step)
    requires Core(s) && Owned(s) && Tickets(s) && Uploads(s) && Enabled(s, step)
    ensures Uploads(Apply(s, step))
  {
    match step
    case Proceed(token, manual) => ProceedUploads(s, s.visit.value, token, manual);
    case Work(percent, text, ok) => WorkUploads(s, percent, text, ok);
    case Expire => SweptUploads(s);
    case Delete(file) => RemoveUploads(s, {file}, DoDelete(s, file).worker);
    case _ =>
      hide Core, Owned, Tickets, Uploads, Swept, DoWrite, DoProceed, DoWork, MayProceed, MayWork;
      UploadsFrame(s, Apply(s, step));
  }

  // ---------------------------------------------------------------- every run

  ghost predicate Inv(s: State) { Core(s) && Owned(s) && Tickets(s) && Uploads(s) }

  lemma InitialInv(now: int)
    ensures Inv(Initial(now))
  {
    var s := Initial(now);
    assert Shelved(s) == {} && QueuedFiles(s.ops.queue) == {};
  }

  lemma InvStep(s: State, step: Step)
    requires Inv(s) && Enabled(s, step)
    ensures Inv(Apply(s, step))
  {
    hide Core, Owned, Tickets, Uploads;
    CoreStep(s, step);
    OwnedStep(s, step);
    TicketsStep(s, step);
    UploadsStep(s, step);
  }

  lemma {:induction false} RunInv(s: State, steps: seq<Step>, e: State)
    requires Inv(s) && Follows(s, steps, e)
    ensures Inv(e)
    decreases |steps|
  {
    hide Inv;
    if steps != [] {
      InvStep(s, steps[0]);
      RunInv(Apply(s, steps[0]), steps[1..], e);
    }
  }

  ghost predicate Reachable(s: State) { exists now, steps :: Follows(Initial(now), steps, s) }

  lemma ReachableInv(s: State)
    requires Reachable(s)
    ensures Inv(s)
  {
    var now, steps :| Follows(Initial(now), steps, s);
    InitialInv(now);
    RunInv(Initial(now), steps, s);
  }
}
