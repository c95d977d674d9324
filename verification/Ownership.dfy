/**
 Who owns an upload: the request that wrote it, the registry, the queue or the worker, and never two
 of them.
 */
module Ownership {
  import opened Common
  import opened Operation
  import opened Admission
  import opened AdmissionLaws

  function FilesOf(pc: Pc): set<Upload>
  {
    match pc
    case Waiting(Stage(file)) => {file}
    case Parsing(file) => {file}
    case Discarding(file) => {file}
    case _ => {}
  }

  function FilesInside(pc: Inner): set<Upload>
  {
    match pc
    case Entering(Stage(file)) => {file}
    case Checking(Stage(file)) => {file}
    case Staging(file) => {file}
    case Replacing(files) => files
    case _ => {}
  }

  function FilesAtWork(w: Work): set<Upload>
  {
    match w
    case Deleting(files) => files
    case Purging(files) => files
    case Took(op) => {op.file}
    case Deciding(op) => {op.file}
    case Marking(op) => {op.file}
    case Arming(op) => {op.file}
    case Flashing(op) => {op.file}
    case Reporting(op, _) => {op.file}
    case Cleaning(op) => {op.file}
    case Dropping(op) => {op.file}
    case _ => {}
  }

  /** The entry a request has put on the queue but not consumed yet. */
  predicate HandedOver(s: State, a: Artifact)
  {
    var inside := Inside(s);
    (inside.Announcing? || inside.Consuming?) && inside.artifact == a
  }

  function Carried(s: State, t: Tid): set<Upload>
  {
    FilesOf(At(s, t)) + if s.visit.Some? && s.visit.value.t == t then FilesInside(s.visit.value.pc) else {}
  }

  function Shelved(s: State): set<Upload> { set a | a in s.registry && !HandedOver(s, a) :: s.registry[a].file }

  /** `o` can still get at upload `f`; a handed over registry entry is nobody's any more. */
  ghost predicate Holds(s: State, o: Owner, f: Upload)
  {
    match o
    case InRequest(t) => f in Carried(s, t)
    case InRegistry => f in Shelved(s)
    case InQueue => f in QueuedFiles(s.ops.queue)
    case InWorker => f in FilesAtWork(s.worker)
  }

  predicate Seated(s: State) { s.visit.Some? ==> At(s, s.visit.value.t) == Within }

  ghost predicate OwnersHold(s: State)
  {
    forall o, f :: Holds(s, o, f) <==> f in s.owner && s.owner[f] == o
  }

  /** Every upload ever written is owned, or was unlinked once. */
  ghost predicate Counted(s: State)
  {
    && (forall f :: f in s.owner ==> f < s.files)
    && (forall f: Upload :: s.unlinks[f] == if f < s.files && f !in s.owner then 1 else 0)
  }

  ghost predicate Owned(s: State) { Seated(s) && OwnersHold(s) && Counted(s) }

  /** `from` passes `files` on, nothing else changes hands. */
  lemma Moved(s: State, e: State, files: set<Upload>, from: Owner, to: Owner)
    requires Owned(s) && Seated(e) && e.files == s.files && e.unlinks == s.unlinks && from != to
    requires e.owner == Give(s, files, to).owner
    requires forall f :: f in files ==> Holds(s, from, f)
    requires forall f :: Holds(e, from, f) <==> Holds(s, from, f) && f !in files
    requires forall f :: Holds(e, to, f) <==> Holds(s, to, f) || f in files
    requires forall o, f :: o != from && o != to ==> (Holds(e, o, f) <==> Holds(s, o, f))
    ensures Owned(e)
  {
  }

  /** `from` unlinks `files`, nothing else changes hands. */
  lemma Unlinked(s: State, e: State, files: set<Upload>, from: Owner)
    requires Owned(s) && Seated(e) && e.files == s.files
    requires e.owner == Remove(s, files).owner && e.unlinks == Remove(s, files).unlinks
    requires forall f :: f in files ==> Holds(s, from, f)
    requires forall f :: Holds(e, from, f) <==> Holds(s, from, f) && f !in files
    requires forall o, f :: o != from ==> (Holds(e, o, f) <==> Holds(s, o, f))
    ensures Owned(e)
  {
  }

  lemma SameHands(s: State, e: State)
    requires Owned(s) && Seated(e) && e.files == s.files && e.unlinks == s.unlinks && e.owner == s.owner
    requires forall t :: Carried(e, t) == Carried(s, t)
    requires Shelved(e) == Shelved(s) && QueuedFiles(e.ops.queue) == QueuedFiles(s.ops.queue)
    requires FilesAtWork(e.worker) == FilesAtWork(s.worker)
    ensures Owned(e)
  {
    assert forall o, f :: Holds(e, o, f) <==> Holds(s, o, f);
  }

  /** The visitor moves on inside the lock, carrying what it carried. */
  lemma StayOwned(s: State, e: State, v: Visit, pc: Inner)
    requires Owned(s) && s.visit == Some(v) && FilesInside(pc) == FilesInside(v.pc)
    requires e.visit == Some(v.(pc := pc)) && e.threads == s.threads && e.worker == s.worker
    requires e.files == s.files && e.owner == s.owner && e.unlinks == s.unlinks
    requires Shelved(e) == Shelved(s) && e.ops.queue == s.ops.queue
    ensures Owned(e)
  {
    SameHands(s, e);
  }

  /** The visitor leaves the lock, carrying what it carried. */
  lemma ExitOwned(s: State, e: State, v: Visit, pc: Pc)
    requires Owned(s) && s.visit == Some(v) && FilesOf(pc) == FilesInside(v.pc)
    requires e.visit.None? && e.threads == s.threads[v.t := pc] && e.worker == s.worker && e.ops == s.ops
    requires e.files == s.files && e.owner == s.owner && e.unlinks == s.unlinks
    requires Shelved(e) == Shelved(s)
    ensures Owned(e)
  {
    SameHands(s, e);
  }

  predicate Alone(r: Registry) { forall a, b :: a in r && b in r ==> a == b }

  /** What the one entry, if there is one, says about the uploads on the shelf. */
  lemma ShelvedIs(s: State, a: Artifact)
    requires Alone(s.registry)
    ensures a in s.registry ==> FilesIn(s.registry) == {s.registry[a].file}
    ensures a in s.registry ==> ExpiredFiles(s.registry, s.now) == if Expired(s.registry[a], s.now)
            then {s.registry[a].file} else {}
    ensures a in s.registry ==> Shelved(s) == if HandedOver(s, a) then {} else {s.registry[a].file}
    ensures s.registry == map[] ==> Shelved(s) == FilesIn(s.registry) == ExpiredFiles(s.registry, s.now) == {}
  {
    if a in s.registry {
      assert forall b :: b in s.registry <==> b == a;
    }
  }

  /** An entry of the registry, if it has one. */
  function Sole(r: Registry): (a: Option<Artifact>)
    requires Alone(r)
    ensures a.None? <==> r == map[]
    ensures a.Some? ==> a.value in r && forall b :: b in r <==> b == a.value
  {
    if r == map[] then None
    else
      assert exists a :: a in r;
      var a :| a in r;
      Some(a)
  }

  lemma SweptShelved(s: State)
    requires Core(s)
    ensures ExpiredFiles(s.registry, s.now) <= Shelved(s)
    ensures Shelved(Swept(s)) == Shelved(s) - ExpiredFiles(s.registry, s.now)
  {
    var a, e := Sole(s.registry), Swept(s);
    if a.Some? {
      ShelvedIs(s, a.value);
      ShelvedIs(e, a.value);
      assert e.registry == if ExpiredFiles(s.registry, s.now) == {} then s.registry else map[];
    }
  }

  lemma SweptOwned(s: State)
    requires Core(s) && Owned(s)
    ensures Owned(Swept(s))
  {
    SweptShelved(s);
    hide Core, Shelved, ExpiredFiles, Unexpired;
    Unlinked(s, Swept(s), ExpiredFiles(s.registry, s.now), InRegistry);
  }

  lemma SubmitOwned(s: State, v: Visit, artifact: Artifact, op: FlashOperation)
    requires Core(s) && Owned(s) && s.visit == Some(v) && v.pc == Submitting(artifact, op)
    ensures Owned(DoSubmit(s, v, artifact, op))
  {
    if Pending(s.ops) || s.ops.queue != [] {
      var e := DoSubmit(s, v, artifact, op);
      ShelvedIs(s, artifact);
      ShelvedIs(e, artifact);
      assert Shelved(e) == Shelved(s);
      hide Core, Owned, Shelved, QueuedFiles;
      StayOwned(s, e, v, Refusing(artifact));
    } else {
      QueuedOwned(s, v, artifact, op);
    }
  }

  lemma QueuedOwned(s: State, v: Visit, artifact: Artifact, op: FlashOperation)
    requires Core(s) && Owned(s) && s.visit == Some(v) && v.pc == Submitting(artifact, op)
    requires !Pending(s.ops) && s.ops.queue == []
    ensures Owned(DoSubmit(s, v, artifact, op))
  {
    var e := DoSubmit(s, v, artifact, op);
    ShelvedIs(s, artifact);
    ShelvedIs(e, artifact);
    assert QueuedFiles(s.ops.queue) == {} && QueuedFiles(e.ops.queue) == {op.file};
    assert Shelved(s) == {op.file} && Shelved(e) == {};
    hide Core, Owned, Shelved, QueuedFiles;
    HandedOverOwned(s, e, v, op);
  }

  lemma HandedOverOwned(s: State, e: State, v: Visit, op: FlashOperation)
    requires Owned(s) && s.visit == Some(v) && v.pc.Submitting? && e.visit.Some?
    requires e.visit.value.t == v.t && e.visit.value.pc.Announcing? && e.threads == s.threads
    requires e.worker == s.worker && e.files == s.files && e.unlinks == s.unlinks
    requires e.owner == Give(s, {op.file}, InQueue).owner
    requires QueuedFiles(s.ops.queue) == {} && QueuedFiles(e.ops.queue) == {op.file} && Shelved(s) == {op.file}
             && Shelved(e) == {}
    ensures Owned(e)
  {
    hide Shelved, QueuedFiles;
    Moved(s, e, {op.file}, InRegistry, InQueue);
  }

  lemma AnnounceOwned(s: State, v: Visit, artifact: Artifact, op: FlashOperation)
    requires Core(s) && Owned(s) && s.visit == Some(v) && v.pc == Announcing(artifact, op)
    ensures Owned(DoAnnounce(s, v, artifact, op))
  {
    var e := DoAnnounce(s, v, artifact, op);
    ShelvedIs(s, artifact);
    ShelvedIs(e, artifact);
    hide Core, Owned, Shelved, QueuedFiles, Kept;
    StayOwned(s, e, v, Consuming(artifact));
  }

  lemma ReleaseOwned(s: State, v: Visit, artifact: Artifact)
    requires Core(s) && Owned(s) && s.visit == Some(v) && v.pc == Refusing(artifact)
    ensures Owned(DoRelease(s, v, artifact))
  {
    var e := DoRelease(s, v, artifact);
    ShelvedIs(s, artifact);
    ShelvedIs(e, artifact);
    hide Core, Owned, Shelved, QueuedFiles;
    ExitOwned(s, e, v, Finished);
  }

  lemma ConsumeOwned(s: State, v: Visit, artifact: Artifact)
    requires Core(s) && Owned(s) && s.visit == Some(v) && v.pc == Consuming(artifact)
    ensures Owned(DoConsume(s, v, artifact))
  {
    var e := DoConsume(s, v, artifact);
    ShelvedIs(s, artifact);
    ShelvedIs(e, artifact);
    hide Core, Owned, Shelved, QueuedFiles;
    ExitOwned(s, e, v, Finished);
  }

  lemma WriteHolds(s: State, t: Tid, created: bool, ok: bool)
    requires Owned(s) && At(s, t).Writing?
    ensures var e := DoWrite(s, t, created, ok);
            forall o, f :: Holds(e, o, f) <==> (created && f == s.files && o == InRequest(t)) || Holds(s, o, f)
  {
    assert Shelved(DoWrite(s, t, created, ok)) == Shelved(s);
  }

  lemma WriteOwned(s: State, t: Tid, created: bool, ok: bool)
    requires Owned(s) && At(s, t).Writing?
    ensures Owned(DoWrite(s, t, created, ok))
  {
    WriteHolds(s, t, created, ok);
    hide Holds;
  }

  lemma StageOwned(s: State, v: Visit, file: Upload, token: Artifact, manual: bool)
    requires Core(s) && Owned(s) && s.visit == Some(v) && v.pc == Staging(file)
    ensures Owned(DoStage(s, v, file, token, manual))
  {
    var replaced := FilesIn(s.registry);
    var m := Give(Next(s, v, Replacing(replaced + {file})), replaced, InRequest(v.t)).(registry := map[]);
    ReplacedOwned(s, v, file, m);
    StagedOwned(m, v, replaced, file, token, Staged(file, manual, s.now + TTL, false));
    assert !AnyClaimed(s.registry);
  }

  /** The request puts one of the uploads it holds on the empty shelf. */
  lemma StagedOwned(s: State, v: Visit, replaced: set<Upload>, file: Upload, token: Artifact, entry: Staged)
    requires Owned(s) && s.visit == Some(v.(pc := Replacing(replaced + {file}))) && s.registry == map[]
    requires file !in replaced && entry.file == file && !entry.claimed
    ensures Owned(Give(Next(s, v, Replacing(replaced)), {file}, InRegistry).(registry := map[token := entry]))
  {
    var e := Give(Next(s, v, Replacing(replaced)), {file}, InRegistry).(registry := map[token := entry]);
    ShelvedIs(e, token);
    ShelvedIs(s, token);
    assert Shelved(e) == {file} && Shelved(s) == {};
    hide Shelved, FilesIn, ExpiredFiles, HandedOver, Alone, OwnersHold, Counted;
    ShelvedOwned(s, e, v.t, file);
  }

  lemma ShelvedOwned(s: State, e: State, t: Tid, file: Upload)
    requires Owned(s) && Seated(e) && e.files == s.files && e.unlinks == s.unlinks
    requires e.owner == Give(s, {file}, InRegistry).owner
    requires file in Carried(s, t) && Carried(e, t) == Carried(s, t) - {file}
    requires forall u :: u != t ==> Carried(e, u) == Carried(s, u)
    requires Shelved(e) == Shelved(s) + {file} && e.ops == s.ops && e.worker == s.worker
    ensures Owned(e)
  {
    Moved(s, e, {file}, InRequest(t), InRegistry);
  }

  /** The replaced uploads pass to the request, next to the one it is about to stage. */
  lemma ReplacedOwned(s: State, v: Visit, file: Upload, m: State)
    requires Core(s) && Owned(s) && s.visit == Some(v) && v.pc == Staging(file)
    requires var replaced := FilesIn(s.registry);
             m == Give(Next(s, v, Replacing(replaced + {file})), replaced, InRequest(v.t)).(registry := map[])
    ensures Owned(m) && Holds(m, InRequest(v.t), file) && file !in FilesIn(s.registry)
  {
    var a := Sole(s.registry);
    ShelvedIs(s, if a.Some? then a.value else "");
    ShelvedIs(m, "");
    assert Holds(s, InRequest(v.t), file);
    assert Shelved(s) == FilesIn(s.registry) && Shelved(m) == {};
    hide Core, Shelved, FilesIn, ExpiredFiles, Owned;
    Moved(s, m, FilesIn(s.registry), InRegistry, InRequest(v.t));
  }

  lemma ClaimOwned(s: State, v: Visit, artifact: Artifact, confirm: Confirmation)
    requires Core(s) && Owned(s) && s.visit == Some(v) && v.pc == Claiming(artifact, confirm)
    ensures Owned(DoClaim(s, v, artifact, confirm))
  {
    if artifact !in s.registry {
      OutOwned(s, v, Finished);
    } else {
      assert !s.registry[artifact].claimed;
      hide Core, Owned;
      var entry, e := s.registry[artifact], DoClaim(s, v, artifact, confirm);
      ClaimedOwned(s, v, artifact, Refusing(artifact), e.ids);
      ClaimedOwned(s, v, artifact, Submitting(artifact, FlashOperation(s.ids, artifact, entry.file, entry.manual)),
        e.ids);
    }
  }

  lemma ClaimedOwned(s: State, v: Visit, artifact: Artifact, pc: Inner, ids: nat)
    requires Core(s) && Owned(s) && s.visit == Some(v) && v.pc.Claiming? && artifact in s.registry
    requires pc.Refusing? || pc.Submitting?
    ensures Owned(Next(s, v, pc).(registry := s.registry[artifact := s.registry[artifact].(claimed := true)],
            ids := ids))
  {
    hide Owned, Shelved;
    var e := Next(s, v, pc).(registry := s.registry[artifact := s.registry[artifact].(claimed := true)], ids := ids);
    ShelvedIs(s, artifact);
    ShelvedIs(e, artifact);
    hide Core;
    StayOwned(s, e, v, pc);
  }

  lemma ProceedOwned(s: State, v: Visit, token: Artifact, manual: bool)
    requires Core(s) && Owned(s) && s.visit == Some(v) && MayProceed(s, v, token)
    ensures Owned(DoProceed(s, v, token, manual))
  {
    if v.pc.Staging? || v.pc.Claiming? {
      ShelfOwned(s, v, token, manual);
    } else if Claims(v.pc) {
      HandingOwned(s, v, token, manual);
    } else {
      StepOwned(s, v, token, manual);
    }
  }

  /** `stage` and `claim`, after the sweep. */
  lemma ShelfOwned(s: State, v: Visit, token: Artifact, manual: bool)
    requires Core(s) && Owned(s) && s.visit == Some(v) && (v.pc.Staging? || v.pc.Claiming?)
    ensures Owned(DoProceed(s, v, token, manual))
  {
    SweptKeeps(s);
    SweptOwned(s);
    OutOwned(s, v, if v.pc.Claiming? then Finished else Discarding(v.pc.file));
    hide Core, Owned, Swept, DoStage, DoClaim, Exit;
    match v.pc
    case Staging(file) => StageOwned(Swept(s), v, file, token, manual);
    case Claiming(artifact, confirm) =>
      if 16 <= |artifact| <= 128 {
        ClaimOwned(Swept(s), v, artifact, confirm);
      }
  }

  /** From the claim to `consume` or `release_claim`. */
  lemma HandingOwned(s: State, v: Visit, token: Artifact, manual: bool)
    requires Core(s) && Owned(s) && s.visit == Some(v) && Claims(v.pc)
    ensures Owned(DoProceed(s, v, token, manual))
  {
    hide Core, Owned, DoSubmit, DoAnnounce, DoRelease, DoConsume;
    match v.pc
    case Submitting(artifact, op) => SubmitOwned(s, v, artifact, op);
    case Announcing(artifact, op) => AnnounceOwned(s, v, artifact, op);
    case Refusing(artifact) => ReleaseOwned(s, v, artifact);
    case Consuming(artifact) => ConsumeOwned(s, v, artifact);
  }

  lemma NextOwned(s: State, v: Visit, pc: Inner)
    requires Owned(s) && s.visit == Some(v) && FilesInside(pc) == FilesInside(v.pc) && !Claims(v.pc) && !Claims(pc)
    ensures Owned(Next(s, v, pc))
  {
    assert Shelved(Next(s, v, pc)) == Shelved(s);
    StayOwned(s, Next(s, v, pc), v, pc);
  }

  lemma OutOwned(s: State, v: Visit, pc: Pc)
    requires Owned(s) && s.visit == Some(v) && FilesOf(pc) == FilesInside(v.pc) && !Claims(v.pc)
    ensures Owned(Exit(s, v, pc))
  {
    assert Shelved(Exit(s, v, pc)) == Shelved(s);
    ExitOwned(s, Exit(s, v, pc), v, pc);
  }

  /** Steps inside the lock before anything is staged or claimed, and errands. */
  lemma StepOwned(s: State, v: Visit, token: Artifact, manual: bool)
    requires Owned(s) && s.visit == Some(v) && MayProceed(s, v, token) && !Claims(v.pc)
    requires !v.pc.Staging? && !v.pc.Claiming?
    ensures Owned(DoProceed(s, v, token, manual))
  {
    hide Owned, Next, Exit, ControllerHeld, FlasherHeld;
    match v.pc
    case Entering(job) =>
      OutOwned(s, v, if job.Stage? then Discarding(job.file) else Finished);
      NextOwned(s, v, if job.Flash? then Claiming(job.artifact, job.confirm) else Checking(job));
    case Checking(job) =>
      OutOwned(s, v, if job.Stage? then Discarding(job.file) else Finished);
      match job {
        case Validate => OutOwned(s, v, Writing);
        case Stage(file) => NextOwned(s, v, Staging(file));
        case Errand => NextOwned(s, v, Locking);
        case Flash(artifact, confirm) => NextOwned(s, v, Claiming(artifact, confirm));
      }
    case Locking => NextOwned(s, v, Talking);
    case _ => OutOwned(s, v, Finished);
  }

  // ---------------------------------------------------------------- the worker owns what it takes

  lemma TakeOwned(s: State)
    requires Core(s) && Owned(s) && s.worker.Getting?
    ensures Owned(DoTake(s))
  {
    hide OwnersHold, Counted;
    var e := DoTake(s);
    assert Shelved(e) == Shelved(s);
    if s.ops.queue == [] {
      SameHands(s, e);
    } else {
      assert QueuedFiles(s.ops.queue) == {s.ops.queue[0].file} && QueuedFiles(e.ops.queue) == {};
      Moved(s, e, {s.ops.queue[0].file}, InQueue, InWorker);
    }
  }

  lemma DrainEmpties(s: State)
    ensures Shelved(DoDrain(s)) == Shelved(s) && QueuedFiles(DoDrain(s).ops.queue) == {}
    ensures DoDrain(s).owner == Give(s, QueuedFiles(s.ops.queue), InWorker).owner && DoDrain(s).files == s.files
  {
  }

  lemma DrainOwned(s: State)
    requires Owned(s) && s.worker.Draining?
    ensures Owned(DoDrain(s))
  {
    hide Shelved, QueuedFiles, Settle, OwnersHold, Counted;
    var e := DoDrain(s);
    DrainEmpties(s);
    Moved(s, e, QueuedFiles(s.ops.queue), InQueue, InWorker);
  }

  /** The shelf is emptied, and nothing on it was handed over. */
  lemma ShutShelves(s: State)
    requires Core(s) && s.visit.None?
    ensures Shelved(s) == FilesIn(s.registry) && Shelved(DoShut(s)) == {}
  {
  }

  lemma ShutOwned(s: State)
    requires Core(s) && Owned(s) && s.worker.Shutting? && s.visit.None?
    ensures Owned(DoShut(s))
  {
    hide Core, Shelved, FilesIn, OwnersHold, Counted;
    var e := DoShut(s);
    ShutShelves(s);
    Moved(s, e, FilesIn(s.registry), InRegistry, InWorker);
  }

  /** The worker unlinks `files` and keeps the rest of what it holds. */
  lemma UnlinkOwned(s: State, files: set<Upload>, w: Work)
    requires Owned(s) && files <= FilesAtWork(s.worker) && FilesAtWork(w) == FilesAtWork(s.worker) - files
    ensures Owned(Remove(s, files).(worker := w))
  {
    var e := Remove(s, files).(worker := w);
    assert Shelved(e) == Shelved(s);
    Unlinked(s, e, files, InWorker);
  }

  /** The worker moves on holding what it held. */
  lemma CarryOwned(s: State, e: State)
    requires Owned(s) && FilesAtWork(e.worker) == FilesAtWork(s.worker) && e.ops.queue == s.ops.queue
    requires e.visit == s.visit && e.threads == s.threads && e.registry == s.registry
    requires e.files == s.files && e.owner == s.owner && e.unlinks == s.unlinks
    ensures Owned(e)
  {
    assert Shelved(e) == Shelved(s);
    SameHands(s, e);
  }

  lemma WorkOwned(s: State, percent: int, text: string, ok: bool)
    requires Core(s) && Owned(s) && MayWork(s, percent) && DoWork(s, percent, text, ok).fault.None?
    ensures Owned(DoWork(s, percent, text, ok))
  {
    hide Owned;
    var next := NextPc(s.worker, s.stopping, percent, ok);
    if next.Some? {
      assert FilesAtWork(next.value) == FilesAtWork(s.worker);
      hide Core, NextPc, FilesAtWork;
      CarryOwned(s, s.(worker := next.value));
    } else if InControl(s.worker) {
      ControlOwned(s, percent, text);
    } else {
      hide NextPc, Remove, QueuedFiles, DoTake, DoDrain, DoShut;
      match s.worker
      case Getting => TakeOwned(s);
      case Cleaning(op) => UnlinkOwned(s, {op.file}, Looping);
      case Dropping(op) => UnlinkOwned(s, {op.file}, Closing);
      case Draining => DrainOwned(s);
      case Shutting => ShutOwned(s);
      case _ => CarryOwned(s, DoWork(s, percent, text, ok));
    }
  }

  predicate Carries(w: Work, op: FlashOperation)
  {
    (HasTaken(w) || IsFlashing(w) || w.Cleaning? || w.Dropping?) && w.op == op
  }

  /** The worker's steps under the controller lock keep the operation in its hands. */
  lemma ControlOwned(s: State, percent: int, text: string)
    requires Owned(s) && InControl(s.worker) && DoControl(s, percent, text).fault.None?
    ensures Owned(DoControl(s, percent, text))
  {
    hide Owned, DoClaimForRun, DoDecide, DoMark, DoReport, DoEnd;
    CarriedOn(s, DoControl(s, percent, text), s.worker.op);
  }

  lemma CarriedOn(s: State, e: State, op: FlashOperation)
    requires Owned(s) && SameRequests(s, e) && SameStore(s, e) && Carries(s.worker, op) && Carries(e.worker, op)
    ensures Owned(e)
  {
    assert FilesAtWork(s.worker) == FilesAtWork(e.worker) == {op.file};
    CarryOwned(s, e);
  }

  // ---------------------------------------------------------------- every step

  /** A request outside the lock moves on, carrying what it carried. */
  lemma RequestOwned(s: State, t: Tid, pc: Pc)
    requires Owned(s) && !At(s, t).Within? && FilesOf(pc) == FilesOf(At(s, t))
    ensures Owned(Goto(s, t, pc))
  {
    assert Shelved(Goto(s, t, pc)) == Shelved(s);
    SameHands(s, Goto(s, t, pc));
  }

  lemma EnterOwned(s: State, t: Tid)
    requires Owned(s) && Enabled(s, Enter(t))
    ensures Owned(Apply(s, Enter(t)))
  {
    assert Shelved(Apply(s, Enter(t))) == Shelved(s);
    SameHands(s, Apply(s, Enter(t)));
  }

  lemma RequestUnlinked(s: State, e: State, t: Tid, files: set<Upload>)
    requires Owned(s) && Seated(e) && e.files == s.files
    requires e.owner == Remove(s, files).owner && e.unlinks == Remove(s, files).unlinks
    requires files <= Carried(s, t) && Carried(e, t) == Carried(s, t) - files
    requires forall u :: u != t ==> Carried(e, u) == Carried(s, u)
    requires Shelved(e) == Shelved(s) && e.ops == s.ops && e.worker == s.worker
    ensures Owned(e)
  {
    Unlinked(s, e, files, InRequest(t));
  }

  lemma DropOwned(s: State, t: Tid)
    requires Owned(s) && At(s, t).Discarding?
    ensures Owned(Goto(Remove(s, {At(s, t).file}), t, Finished))
  {
    var e := Goto(Remove(s, {At(s, t).file}), t, Finished);
    assert Shelved(e) == Shelved(s);
    RequestUnlinked(s, e, t, {At(s, t).file});
  }

  lemma ReplaceOwned(s: State, v: Visit, file: Upload)
    requires Owned(s) && s.visit == Some(v) && v.pc.Replacing? && file in v.pc.files
    ensures Owned(Next(Remove(s, {file}), v, Replacing(v.pc.files - {file})))
  {
    var e := Next(Remove(s, {file}), v, Replacing(v.pc.files - {file}));
    assert Shelved(e) == Shelved(s);
    RequestUnlinked(s, e, v.t, {file});
  }

  lemma DeleteOwned(s: State, file: Upload)
    requires Owned(s) && (s.worker.Deleting? || s.worker.Purging?) && file in s.worker.files
    ensures Owned(DoDelete(s, file))
  {
    UnlinkOwned(s, {file}, DoDelete(s, file).worker);
  }

  lemma TimeOwned(s: State, e: State)
    requires Owned(s) && e == s.(now := e.now, stopping := e.stopping)
    ensures Owned(e)
  {
    assert Shelved(e) == Shelved(s);
    SameHands(s, e);
  }

  lemma OwnedStep(s: State, step: Step)
    requires Core(s) && Owned(s) && Enabled(s, step)
    ensures Owned(Apply(s, step))
  {
    CoreStep(s, step);
    assert Apply(s, step).fault.None?;
    hide Core, Owned, Remove, Swept, DoWrite, DoProceed, MayProceed, DoWork, MayWork;
    match step
    case Tick(_) => TimeOwned(s, Apply(s, step));
    case Signal => TimeOwned(s, Apply(s, step));
    case Expire => SweptOwned(s);
    case Arrive(t, job) => RequestOwned(s, t, Waiting(job));
    case Enter(t) => EnterOwned(s, t);
    case Write(t, created, ok) => WriteOwned(s, t, created, ok);
    case Parse(t, ok) => RequestOwned(s, t, if ok then Waiting(Stage(At(s, t).file)) else Discarding(At(s, t).file));
    case Drop(t) => DropOwned(s, t);
    case Proceed(token, manual) => ProceedOwned(s, s.visit.value, token, manual);
    case Replace(file) => ReplaceOwned(s, s.visit.value, file);
    case Work(percent, text, ok) => WorkOwned(s, percent, text, ok);
    case Delete(file) => DeleteOwned(s, file);
  }
}
