/**
 Uploads, the one-slot queue, the worker and shutdown as one state machine:
 cul868_flasher/app/ingress.py, operation.py and main.py.

 Every HTTP thread and the worker have a program counter. A step is what one thread does between two
 points where another may run: taking a lock, a section under the registry's lock, one side of the
 queue. `visit` is the thread inside the admission lock (`_submission_lock`); the controller's and
 the flasher's lock are held while a program counter is inside their sections, and no thread enters
 a held one. Signals, the reaper and the clock strike between any two steps.
 */
module Admission {
  import opened Common
  import opened Operation

  type Tid = nat
  type Artifact = string

  const TTL := 900
  const LOG := Some(MAX_EVENTS)

  // ---------------------------------------------------------------- the registry

  datatype Staged = Staged(file: Upload, manual: bool, expires: int, claimed: bool)

  type Registry = map<Artifact, Staged>

  predicate Expired(entry: Staged, now: int) { !entry.claimed && entry.expires <= now }

  function Unexpired(r: Registry, now: int): Registry { map a | a in r && !Expired(r[a], now) :: r[a] }

  function ExpiredFiles(r: Registry, now: int): set<Upload> { set a | a in r && Expired(r[a], now) :: r[a].file }

  function FilesIn(r: Registry): set<Upload> { set a | a in r :: r[a].file }

  predicate AnyClaimed(r: Registry) { exists a :: a in r && r[a].claimed }

  // ---------------------------------------------------------------- threads

  datatype Confirmation = Absent | Denied | Given | Malformed

  /** The second confirmation is wanted exactly for an upload staged for manual recovery. */
  predicate Confirms(manual: bool, c: Confirmation) { if manual then c.Given? else c.Absent? || c.Denied? }

  datatype Job =
    | Validate                                             // validate_upload up to the first check
    | Stage(file: Upload)                                  // its second visit to the admission lock
    | Flash(artifact: Artifact, confirm: Confirmation)
    | Errand                                               // set_led or diagnostics

  /** A request outside the admission lock. */
  datatype Pc =
    | Waiting(job: Job)                                    // for the admission lock
    | Within                                               // holds it, see Visit
    | Writing                                              // before write_upload
    | Parsing(file: Upload)                                // parse_hex_file and preflight
    | Discarding(file: Upload)                             // before unlinking its own upload
    | Finished

  /** The request inside the admission lock. */
  datatype Inner =
    | Entering(job: Job)                                   // before _require_accepting_mutations_locked
    | Checking(job: Job)                                   // before _require_idle
    | Staging(file: Upload)                                // before stage
    | Replacing(files: set<Upload>)                        // unlinks what stage replaced
    | Claiming(artifact: Artifact, confirm: Confirmation)  // before claim
    | Submitting(artifact: Artifact, op: FlashOperation)   // before submit's lock
    | Announcing(artifact: Artifact, op: FlashOperation)   // holds the controller lock, op is in the queue
    | Refusing(artifact: Artifact)                         // before release_claim
    | Consuming(artifact: Artifact)                        // before consume
    | Locking                                              // waits for the flasher
    | Talking                                              // holds the flasher

  datatype Work =
    | Starting
    | Verifying                                            // holds the flasher: startup verification
    | Looping                                              // before stopping.is_set()
    | Getting
    | Took(op: FlashOperation)                             // before claim_for_run's lock
    | Deciding(op: FlashOperation)                         // holds the controller lock, before is_set()
    | Marking(op: FlashOperation)                          // holds it, saw no stop
    | Arming(op: FlashOperation)                           // claimed, waits for the flasher
    | Flashing(op: FlashOperation)                         // holds the flasher
    | Reporting(op: FlashOperation, ok: bool)              // before complete or fail
    | Cleaning(op: FlashOperation)                         // before discard_image
    | Dropping(op: FlashOperation)                         // before discard_image of unclaimed work
    | Closing                                              // before close_admission
    | Draining
    | Deleting(files: set<Upload>)
    | Shutting                                             // before api.close
    | Purging(files: set<Upload>)
    | Done

  datatype Visit = Visit(t: Tid, pc: Inner)

  /** Where an upload belongs. */
  datatype Owner = InRequest(t: Tid) | InRegistry | InQueue | InWorker

  datatype Fate = Accepted | Running | Ended | Discarded

  datatype Ticket = Ticket(file: Upload, fate: Fate)

  /** The branches that should be dead. */
  datatype Fault = QueueFull | BeingSubmitted | BeingFlashed | NoLongerCurrent | NoLongerQueued

  /** `owner`, `unlinks`, `tickets` and `fault` only record what happens; no step looks at them. */
  datatype State = State(
    now: int,
    stopping: bool,
    accepting: bool,
    visit: Option<Visit>,
    ops: Control,
    registry: Registry,
    threads: map<Tid, Pc>,
    worker: Work,
    files: nat,
    ids: nat,
    owner: map<Upload, Owner>,
    unlinks: multiset<Upload>,
    tickets: map<Id, Ticket>,
    fault: Option<Fault>)

  function Initial(now: int): State
  {
    State(now, false, true, None, Fresh(), map[], map[], Starting, 0, 0, map[], multiset{}, map[], None)
  }

  /** OperationController._lock is taken. */
  predicate ControllerHeld(s: State)
  {
    (s.visit.Some? && s.visit.value.pc.Announcing?) || s.worker.Deciding? || s.worker.Marking?
  }

  /** Cul868Flasher._flash_lock is taken. */
  predicate FlasherHeld(s: State)
  {
    (s.visit.Some? && s.visit.value.pc.Talking?) || s.worker.Verifying? || s.worker.Flashing?
  }

  datatype Step =
    | Tick(seconds: nat)
    | Signal
    | Expire                                               // the reaper, or a GET
    | Arrive(t: Tid, job: Job)
    | Enter(t: Tid)                                        // takes the admission lock
    | Write(t: Tid, created: bool, ok: bool)
    | Parse(t: Tid, ok: bool)
    | Drop(t: Tid)                                         // a request unlinks its own upload
    | Proceed(artifact: Artifact, manual: bool)            // the visitor's next step, with what stage would use
    | Replace(file: Upload)                                // the visitor unlinks a replaced upload
    | Work(percent: int, text: string, ok: bool)        // the worker's next step
    | Delete(file: Upload)                                 // the worker unlinks a drained or staged upload

  // ---------------------------------------------------------------- bookkeeping

  function At(s: State, t: Tid): Pc { if t in s.threads then s.threads[t] else Finished }

  function Goto(s: State, t: Tid, pc: Pc): State { s.(threads := s.threads[t := pc]) }

  /** The visitor continues at `pc`, inside the lock. */
  function Next(s: State, v: Visit, pc: Inner): State { s.(visit := Some(v.(pc := pc))) }

  /** It continues at `pc`, outside. */
  function Exit(s: State, v: Visit, pc: Pc): State { Goto(s, v.t, pc).(visit := None) }

  function Give(s: State, files: set<Upload>, o: Owner): State { s.(owner := s.owner + map f | f in files :: o) }

  function Remove(s: State, files: set<Upload>): (e: State)
    ensures e == s.(owner := e.owner, unlinks := e.unlinks)
  {
    s.(owner := s.owner - files, unlinks := s.unlinks + multiset(files))
  }

  function Settle(s: State, ids: set<Id>, fate: Fate): State
  {
    s.(tickets := map i | i in s.tickets :: if i in ids then Ticket(s.tickets[i].file, fate) else s.tickets[i])
  }

  /** What a request leaves alone. */
  predicate SameWorker(s: State, e: State)
  {
    e.worker == s.worker && e.stopping == s.stopping && e.accepting == s.accepting && e.now == s.now
  }

  /** What most sections leave alone. */
  predicate SameUploads(s: State, e: State)
  {
    e.owner == s.owner && e.unlinks == s.unlinks && e.files == s.files && e.tickets == s.tickets
  }

  /** What a controller section of the worker leaves alone besides. */
  predicate SameStore(s: State, e: State)
  {
    e.owner == s.owner && e.unlinks == s.unlinks && e.registry == s.registry && e.ops.queue == s.ops.queue
      && e.accepting == s.accepting
  }

  /** What the worker leaves alone. */
  predicate SameRequests(s: State, e: State)
  {
    e.visit == s.visit && e.threads == s.threads && e.files == s.files && e.ids == s.ids
      && e.stopping == s.stopping && e.now == s.now
  }

  // ---------------------------------------------------------------- requests

  /** `_remove_expired_locked`. */
  function Swept(s: State): (e: State)
    ensures SameRequests(s, e) && e.tickets == s.tickets
  {
    Remove(s, ExpiredFiles(s.registry, s.now)).(registry := Unexpired(s.registry, s.now))
  }

  /** `write_upload` may fail before or after mkstemp made the file. */
  function DoWrite(s: State, t: Tid, created: bool, ok: bool): (e: State)
    ensures SameWorker(s, e) && e.tickets == s.tickets && e.unlinks == s.unlinks && e.files >= s.files
    ensures forall f :: f in e.owner && f < s.files ==> f in s.owner && e.owner[f] == s.owner[f]
  {
    if !created then Goto(s, t, Finished)
    else
      var moved := Goto(s, t, if ok then Parsing(s.files) else Discarding(s.files));
      Give(moved, {s.files}, InRequest(t)).(files := s.files + 1)
  }

  function Refuse(s: State, v: Visit, job: Job): State
  {
    Exit(s, v, if job.Stage? then Discarding(job.file) else Finished)
  }

  function DoEnter(s: State, v: Visit, job: Job): (e: State)
    ensures SameWorker(s, e)
    ensures SameUploads(s, e)
  {
    if s.stopping || !s.accepting then Refuse(s, v, job)
    else Next(s, v, if job.Flash? then Claiming(job.artifact, job.confirm) else Checking(job))
  }

  function DoCheck(s: State, v: Visit, job: Job): (e: State)
    ensures SameWorker(s, e)
    ensures SameUploads(s, e)
  {
    if Pending(s.ops) then Refuse(s, v, job)
    else match job
      case Validate => Exit(s, v, Writing)
      case Stage(file) => Next(s, v, Staging(file))
      case Errand => Next(s, v, Locking)
      case Flash(artifact, confirm) => Next(s, v, Claiming(artifact, confirm))
  }

  /** `stage`, after expired entries are gone. */
  function DoStage(s: State, v: Visit, file: Upload, artifact: Artifact, manual: bool): (e: State)
    ensures SameWorker(s, e) && e.unlinks == s.unlinks
  {
    if AnyClaimed(s.registry) then Exit(s, v, Discarding(file)).(fault := Some(BeingSubmitted))
    else
      var replaced := FilesIn(s.registry);
      Give(Give(Next(s, v, Replacing(replaced)), replaced, InRequest(v.t)), {file}, InRegistry)
      .(registry := map[artifact := Staged(file, manual, s.now + TTL, false)])
  }

  /** `claim`, after expired entries are gone, then the confirmation checks on the claimed entry. */
  function DoClaim(s: State, v: Visit, artifact: Artifact, confirm: Confirmation): (e: State)
    ensures SameWorker(s, e)
    ensures SameUploads(s, e)
  {
    if artifact !in s.registry then Exit(s, v, Finished)
    else if s.registry[artifact].claimed then Exit(s, v, Finished).(fault := Some(BeingFlashed))
    else
      var entry := s.registry[artifact];
      var claimed := s.(registry := s.registry[artifact := entry.(claimed := true)]);
      var op := FlashOperation(s.ids, artifact, entry.file, entry.manual);
      if Confirms(entry.manual, confirm) then Next(claimed, v, Submitting(artifact, op)).(ids := s.ids + 1)
      else Next(claimed, v, Refusing(artifact))
  }

  /** `submit` up to and including `put_nowait`. */
  function DoSubmit(s: State, v: Visit, artifact: Artifact, op: FlashOperation): (e: State)
    ensures SameWorker(s, e) && e.unlinks == s.unlinks
  {
    if Pending(s.ops) then Next(s, v, Refusing(artifact))
    else if |s.ops.queue| >= 1 then Next(s, v, Refusing(artifact)).(fault := Some(QueueFull))
    else
      Give(Next(s, v, Announcing(artifact, op)), {op.file}, InQueue)
      .(ops := Put(s.ops, op), tickets := s.tickets[op.id := Ticket(op.file, Fate.Accepted)])
  }

  /** The rest of `submit`. */
  function DoAnnounce(s: State, v: Visit, artifact: Artifact, op: FlashOperation): (e: State)
    ensures SameWorker(s, e)
    ensures SameUploads(s, e)
  {
    Next(s, v, Consuming(artifact)).(ops := Announce(s.ops, LOG, op.id, s.now))
  }

  /** `release_claim`. */
  function DoRelease(s: State, v: Visit, artifact: Artifact): (e: State)
    ensures SameWorker(s, e)
    ensures SameUploads(s, e)
  {
    var freed := if artifact in s.registry then s.registry[artifact := s.registry[artifact].(claimed := false)]
      else s.registry;
    Exit(s, v, Finished).(registry := freed)
  }

  /** `consume`. */
  function DoConsume(s: State, v: Visit, artifact: Artifact): (e: State)
    ensures SameWorker(s, e)
    ensures SameUploads(s, e)
  {
    Exit(s, v, Finished).(registry := s.registry - {artifact})
  }

  function DoProceed(s: State, v: Visit, token: Artifact, manual: bool): (e: State)
    ensures SameWorker(s, e) && (e.unlinks == s.unlinks || e.unlinks == Swept(s).unlinks)
    ensures !v.pc.Staging? && !v.pc.Claiming? && !v.pc.Submitting? ==> SameUploads(s, e)
  {
    match v.pc
    case Entering(job) => DoEnter(s, v, job)
    case Checking(job) => DoCheck(s, v, job)
    case Staging(file) => DoStage(Swept(s), v, file, token, manual)
    case Replacing(_) => Exit(s, v, Finished)
    case Claiming(artifact, confirm) =>
      if 16 <= |artifact| <= 128 then DoClaim(Swept(s), v, artifact, confirm) else Exit(s, v, Finished)
    case Submitting(artifact, op) => DoSubmit(s, v, artifact, op)
    case Announcing(artifact, op) => DoAnnounce(s, v, artifact, op)
    case Refusing(artifact) => DoRelease(s, v, artifact)
    case Consuming(artifact) => DoConsume(s, v, artifact)
    case Locking => Next(s, v, Talking)
    case Talking => Exit(s, v, Finished)
  }

  predicate MayProceed(s: State, v: Visit, token: Artifact)
  {
    match v.pc
    case Checking(_) => !ControllerHeld(s)
    case Staging(_) => token !in s.registry
    case Replacing(files) => files == {}
    case Submitting(_, _) => !ControllerHeld(s)
    case Locking => !FlasherHeld(s)
    case _ => true
  }

  // ---------------------------------------------------------------- the worker

  /** An exception in the worker loop goes straight to the `finally` block. */
  function Crash(s: State, fault: Fault): State { s.(worker := Closing, fault := Some(fault)) }

  function DoTake(s: State): (e: State)
    ensures SameRequests(s, e) && e.unlinks == s.unlinks && e.tickets == s.tickets
    ensures e.worker == if s.ops.queue == [] then Looping else Took(s.ops.queue[0])
  {
    if s.ops.queue == [] then s.(worker := Looping)
    else
      var op := s.ops.queue[0];
      Give(s, {op.file}, InWorker).(ops := Take(s.ops), worker := Took(op))
  }

  function DoClaimForRun(s: State, op: FlashOperation): (e: State)
    ensures SameRequests(s, e) && e.tickets == s.tickets
    ensures if e.worker.Closing? then e.fault.Some? else e.worker == Deciding(op)
    ensures SameStore(s, e)
  {
    match NeedsQueued(s.ops, op.id)
    case Some(NotCurrent) => Crash(s, NoLongerCurrent)
    case Some(_) => Crash(s, NoLongerQueued)
    case None => s.(worker := Deciding(op))
  }

  function DoDecide(s: State, op: FlashOperation): (e: State)
    ensures SameRequests(s, e)
    ensures e.worker == if s.stopping then Dropping(op) else Marking(op)
    ensures SameStore(s, e)
  {
    if s.stopping
    then Settle(s, {op.id}, Discarded).(ops := Discard(s.ops, LOG, s.now), worker := Dropping(op))
    else s.(worker := Marking(op))
  }

  function DoMark(s: State, op: FlashOperation): (e: State)
    ensures SameRequests(s, e)
    ensures e.worker == Arming(op)
    ensures SameStore(s, e)
  {
    Settle(s, {op.id}, Fate.Running).(ops := MarkRunning(s.ops, LOG, s.now), worker := Arming(op))
  }

  function DoReport(s: State, op: FlashOperation, percent: int, text: string): (e: State)
    ensures SameRequests(s, e) && e.tickets == s.tickets
    ensures e.worker == s.worker || (e.worker == Reporting(op, false) && e.fault.Some?)
    ensures SameStore(s, e)
  {
    if s.ops.current != Some(op.id) then s.(worker := Reporting(op, false), fault := Some(NoLongerCurrent))
    else s.(ops := Reported(s.ops, LOG, percent, text, s.now))
  }

  function DoEnd(s: State, op: FlashOperation, ok: bool, text: string): (e: State)
    ensures SameRequests(s, e)
    ensures e.worker == Cleaning(op) || (e.worker == Dropping(op) && e.fault.Some?)
    ensures SameStore(s, e)
  {
    if s.ops.current != Some(op.id) then s.(worker := Dropping(op), fault := Some(NoLongerCurrent))
    else
      var ended := if ok then Completed(s.ops, LOG, text, s.now) else HasBroken(s.ops, LOG, text, s.now);
      Settle(s, {op.id}, Ended).(ops := ended, worker := Cleaning(op))
  }

  function QueuedFiles(queue: seq<FlashOperation>): set<Upload> { set op | op in queue :: op.file }

  function DoDrain(s: State): (e: State)
    ensures SameRequests(s, e) && e.unlinks == s.unlinks
    ensures e.worker.Deleting?
  {
    var files := QueuedFiles(s.ops.queue);
    Settle(Give(s, files, InWorker), set op | op in s.ops.queue :: op.id, Discarded)
    .(ops := Drained(s.ops, LOG, s.now), worker := Deleting(files))
  }

  function DoShut(s: State): (e: State)
    ensures SameRequests(s, e) && e.ops == s.ops && e.unlinks == s.unlinks && e.tickets == s.tickets
    ensures e.worker.Purging?
  {
    var files := FilesIn(s.registry);
    Give(s, files, InWorker).(registry := map[], worker := Purging(files))
  }

  /** Steps that only take the worker on, while flashing `percent < 0` ends the flash. */
  function NextPc(w: Work, stopping: bool, percent: int, ok: bool): Option<Work>
  {
    match w
    case Starting => Some(Verifying)
    case Verifying => Some(Looping)
    case Looping => Some(if stopping then Closing else Getting)
    case Arming(op) => Some(Flashing(op))
    case Flashing(op) => if percent < 0 then Some(Reporting(op, ok)) else None
    case Deleting(_) => Some(Shutting)
    case Purging(_) => Some(Done)
    case _ => None
  }

  predicate InControl(w: Work) { w.Took? || w.Deciding? || w.Marking? || w.Flashing? || w.Reporting? }

  /** The worker's steps under the controller lock. */
  function DoControl(s: State, percent: int, text: string): (e: State)
    requires InControl(s.worker)
    ensures SameRequests(s, e) && SameStore(s, e)
    ensures e.worker.Marking? ==> s.worker.Deciding? && !s.stopping
  {
    match s.worker
    case Took(op) => DoClaimForRun(s, op)
    case Deciding(op) => DoDecide(s, op)
    case Marking(op) => DoMark(s, op)
    case Flashing(op) => DoReport(s, op, percent, text)
    case Reporting(op, ok) => DoEnd(s, op, ok, text)
  }

  /** The worker's next step; while flashing, `percent < 0` ends the flash with outcome `ok`. */
  function DoWork(s: State, percent: int, text: string, ok: bool): (e: State)
    ensures SameRequests(s, e)
    ensures e.worker.Marking? ==> s.worker.Deciding? && !s.stopping
    ensures e.tickets == s.tickets || InControl(s.worker) || s.worker.Draining?
    ensures e.unlinks == s.unlinks
            || ((s.worker.Cleaning? || s.worker.Dropping?) && e.unlinks == s.unlinks + multiset{s.worker.op.file})
  {
    var next := NextPc(s.worker, s.stopping, percent, ok);
    if next.Some? then s.(worker := next.value)
    else if InControl(s.worker) then DoControl(s, percent, text)
    else
      match s.worker
      case Getting => DoTake(s)
      case Cleaning(op) => Remove(s, {op.file}).(worker := Looping)
      case Dropping(op) => Remove(s, {op.file}).(worker := Closing)
      case Closing => s.(accepting := false, worker := Draining)
      case Draining => DoDrain(s)
      case Shutting => DoShut(s)
      case _ => s
  }

  /** The locks a worker step needs free, and what it must have finished. */
  predicate MayWork(s: State, percent: int)
  {
    match s.worker
    case Starting => !FlasherHeld(s)
    case Took(_) => !ControllerHeld(s)
    case Arming(_) => !FlasherHeld(s)
    case Flashing(_) => percent <= 100 && (percent >= 0 ==> !ControllerHeld(s))
    case Reporting(_, _) => !ControllerHeld(s)
    case Closing => s.visit.None?
    case Draining => !ControllerHeld(s)
    case Deleting(files) => files == {}
    case Shutting => s.visit.None?
    case Purging(files) => files == {}
    case Done => false
    case _ => true
  }

  function DoDelete(s: State, file: Upload): (e: State)
    ensures SameRequests(s, e) && e.tickets == s.tickets
  {
    match s.worker
    case Deleting(files) => Remove(s, {file}).(worker := Deleting(files - {file}))
    case Purging(files) => Remove(s, {file}).(worker := Purging(files - {file}))
    case _ => s
  }

  // ---------------------------------------------------------------- the step relation

  predicate Enabled(s: State, step: Step)
  {
    match step
    case Tick(_) => true
    case Signal => true
    case Expire => true
    case Arrive(t, job) => t !in s.threads && !job.Stage?
    case Enter(t) => At(s, t).Waiting? && s.visit.None?
    case Write(t, _, _) => At(s, t).Writing?
    case Parse(t, _) => At(s, t).Parsing?
    case Drop(t) => At(s, t).Discarding?
    case Proceed(token, _) => s.visit.Some? && MayProceed(s, s.visit.value, token)
    case Replace(file) => s.visit.Some? && s.visit.value.pc.Replacing? && file in s.visit.value.pc.files
    case Work(percent, _, _) => MayWork(s, percent)
    case Delete(file) => (s.worker.Deleting? || s.worker.Purging?) && file in s.worker.files
  }

  function Apply(s: State, step: Step): State
    requires Enabled(s, step)
  {
    match step
    case Tick(seconds) => s.(now := s.now + seconds)
    case Signal => s.(stopping := true)
    case Expire => Swept(s)
    case Arrive(t, job) => Goto(s, t, Waiting(job))
    case Enter(t) => Goto(s, t, Within).(visit := Some(Visit(t, Entering(At(s, t).job))))
    case Write(t, created, ok) => DoWrite(s, t, created, ok)
    case Parse(t, ok) => Goto(s, t, if ok then Waiting(Stage(At(s, t).file)) else Discarding(At(s, t).file))
    case Drop(t) => Goto(Remove(s, {At(s, t).file}), t, Finished)
    case Proceed(token, manual) => DoProceed(s, s.visit.value, token, manual)
    case Replace(file) =>
      Next(Remove(s, {file}), s.visit.value, Replacing(s.visit.value.pc.files - {file}))
    case Work(percent, text, ok) => DoWork(s, percent, text, ok)
    case Delete(file) => DoDelete(s, file)
  }

  /** `steps` lead from `s` to `end`. */
  ghost predicate Follows(s: State, steps: seq<Step>, end: State)
    decreases |steps|
  {
    if steps == [] then s == end
    else Enabled(s, steps[0]) && Follows(Apply(s, steps[0]), steps[1..], end)
  }
}
