/**
 The one-slot operation controller, cul868_flasher/app/operation.py.

 `Control` is the guarded state; the functions are its lock sections, cut where another thread can
 get in between: `Put` and `Take` use the queue's own lock, everything else the controller's. The
 class runs whole calls; Admission.dfy interleaves the sections.
 Messages are given as `_safe_message` leaves them.
 */
module Operation {
  import opened Common

  type Id = nat
  type Upload = nat

  datatype Status = Idle | Queued | Running | Succeeded | Failed

  datatype FlashOperation = FlashOperation(id: Id, artifact: string, file: Upload, consented: bool)

  datatype Kind = WasQueued | WasDiscarded | WasStarted | Progressed | HasSucceeded | HasFailed

  /** The controller's own messages, or one it was given. */
  datatype Message = NothingRuns | IsQueued | WasDropped | Preparing | DidFail | Text(text: string)

  datatype Entry = Entry(at: int, kind: Kind, message: Message)

  datatype Control = Control(queue: seq<FlashOperation>, status: Status, current: Option<Id>, progress: int,
                             message: Message, error: Option<string>, events: seq<Entry>)

  const MAX_EVENTS := 32

  function Fresh(): Control { Control([], Idle, None, 0, NothingRuns, None, []) }

  predicate Pending(c: Control) { c.status.Queued? || c.status.Running? }

  /** `events[-n:]`. */
  function LastOf<T>(xs: seq<T>, n: nat): seq<T>
  {
    if |xs| <= n then xs else xs[|xs| - n..]
  }

  /** How many entries survive an append; `None` is an unbounded log. */
  type Bound = Option<nat>

  function Kept(bound: Bound, log: seq<Entry>): seq<Entry>
  {
    match bound
    case None => log
    case Some(n) => LastOf(log, n)
  }

  // ---------------------------------------------------------------- lock sections

  function Append(c: Control, b: Bound, e: Entry): Control { c.(events := Kept(b, c.events + [e])) }

  function Put(c: Control, op: FlashOperation): Control { c.(queue := c.queue + [op]) }

  function Take(c: Control): Control
    requires c.queue != []
  {
    c.(queue := c.queue[1..])
  }

  function Announce(c: Control, b: Bound, id: Id, at: int): Control
  {
    Append(c.(status := Queued, current := Some(id), progress := 0, message := IsQueued, error := None), b,
           Entry(at, WasQueued, IsQueued))
  }

  function Discard(c: Control, b: Bound, at: int): Control
  {
    Append(c.(status := Idle, current := None, progress := 0, message := NothingRuns, error := None), b,
           Entry(at, WasDiscarded, WasDropped))
  }

  function MarkRunning(c: Control, b: Bound, at: int): Control
  {
    Append(c.(status := Running, progress := Max(c.progress, 1), message := Preparing), b,
           Entry(at, WasStarted, Preparing))
  }

  function Drained(c: Control, b: Bound, at: int): Control
  {
    var rest := c.(queue := []);
    if c.queue != [] && c.status.Queued? then Discard(rest, b, at) else rest
  }

  function Reported(c: Control, b: Bound, percent: int, text: string, at: int): Control
  {
    if c.status.Running?
    then Append(c.(progress := Max(c.progress, percent), message := Text(text)), b, Entry(at, Progressed, Text(text)))
    else c
  }

  function Completed(c: Control, b: Bound, text: string, at: int): Control
  {
    Append(c.(status := Succeeded, progress := 100, message := Text(text), error := None), b,
           Entry(at, HasSucceeded, Text(text)))
  }

  function HasBroken(c: Control, b: Bound, error: string, at: int): Control
  {
    Append(c.(status := Failed, message := DidFail, error := Some(error)), b, Entry(at, HasFailed, Text(error)))
  }

  // ---------------------------------------------------------------- whole calls

  datatype Call =
    | Submit(op: FlashOperation, at: int)
    | Get
    | Drain(at: int)
    | DiscardQueued(id: Id, at: int)
    | Claim(id: Id, stopping: bool, at: int)
    | Report(id: Id, percent: int, text: string, at: int)
    | Complete(id: Id, text: string, at: int)
    | Fail(id: Id, error: string, at: int)

  /** OperationBusyError, the two ValueErrors of `_require_current` and the status checks, a bad argument. */
  datatype Refusal = Busy | NotCurrent | NotQueued | BadArgument

  function Refused(c: Control, call: Call): Option<Refusal>
  {
    match call
    case Submit(op, _) =>
      if op.artifact == "" || |op.artifact| > 128 then Some(BadArgument)
      else if Pending(c) || |c.queue| >= 1 then Some(Busy) else None
    case Get => None
    case Drain(_) => None
    case DiscardQueued(id, _) => NeedsQueued(c, id)
    case Claim(id, _, _) => NeedsQueued(c, id)
    case Report(id, percent, _, _) =>
      if !(0 <= percent <= 100) then Some(BadArgument) else NeedsCurrent(c, id)
    case Complete(id, _, _) => NeedsCurrent(c, id)
    case Fail(id, _, _) => NeedsCurrent(c, id)
  }

  function NeedsCurrent(c: Control, id: Id): Option<Refusal>
  {
    if c.current != Some(id) then Some(NotCurrent) else None
  }

  function NeedsQueued(c: Control, id: Id): Option<Refusal>
  {
    if c.current != Some(id) then Some(NotCurrent)
    else if c.status != Queued then Some(NotQueued) else None
  }

  /** The state after a call; a refused call changes nothing. */
  function Do(c: Control, b: Bound, call: Call): Control
  {
    if Refused(c, call).Some? then c
    else match call
      case Submit(op, at) => Announce(Put(c, op), b, op.id, at)
      case Get => if c.queue == [] then c else Take(c)
      case Drain(at) => Drained(c, b, at)
      case DiscardQueued(_, at) => Discard(c, b, at)
      case Claim(_, stopping, at) => if stopping then Discard(c, b, at) else MarkRunning(c, b, at)
      case Report(_, percent, text, at) => Reported(c, b, percent, text, at)
      case Complete(_, text, at) => Completed(c, b, text, at)
      case Fail(_, error, at) => HasBroken(c, b, error, at)
  }

  function Run(c: Control, b: Bound, calls: seq<Call>): Control
  {
    if calls == [] then c else Do(Run(c, b, calls[..|calls| - 1]), b, calls[|calls| - 1])
  }

  lemma RunOneMore(calls: seq<Call>, call: Call)
    ensures Run(Fresh(), Some(MAX_EVENTS), calls + [call]) ==
            Do(Run(Fresh(), Some(MAX_EVENTS), calls), Some(MAX_EVENTS), call)
  {
    hide Do;
    assert (calls + [call])[..|calls|] == calls;
  }

  // ---------------------------------------------------------------- the bounded log

  lemma LastOfAppend<T>(xs: seq<T>, x: T, n: nat)
    ensures LastOf(LastOf(xs, n) + [x], n) == LastOf(xs + [x], n)
  {
  }

  function Bounded(c: Control): Control { c.(events := LastOf(c.events, MAX_EVENTS)) }

  lemma AppendBounded(c: Control, e: Entry)
    ensures Append(Bounded(c), Some(MAX_EVENTS), e) == Bounded(Append(c, None, e))
  {
    LastOfAppend(c.events, e, MAX_EVENTS);
  }

  lemma BoundedSections(c: Control, id: Id, at: int)
    ensures Announce(Bounded(c), Some(MAX_EVENTS), id, at) == Bounded(Announce(c, None, id, at))
    ensures Discard(Bounded(c), Some(MAX_EVENTS), at) == Bounded(Discard(c, None, at))
    ensures MarkRunning(Bounded(c), Some(MAX_EVENTS), at) == Bounded(MarkRunning(c, None, at))
    ensures Drained(Bounded(c), Some(MAX_EVENTS), at) == Bounded(Drained(c, None, at))
  {
    hide Append, LastOf;
    AppendBounded(c.(status := Queued, current := Some(id), progress := 0, message := IsQueued, error := None),
                  Entry(at, WasQueued, IsQueued));
    var idle := c.(status := Idle, current := None, progress := 0, message := NothingRuns, error := None);
    AppendBounded(idle, Entry(at, WasDiscarded, WasDropped));
    AppendBounded(idle.(queue := []), Entry(at, WasDiscarded, WasDropped));
    AppendBounded(c.(status := Running, progress := Max(c.progress, 1), message := Preparing),
                  Entry(at, WasStarted, Preparing));
  }

  lemma BoundedReports(c: Control, percent: int, text: string, at: int)
    ensures Reported(Bounded(c), Some(MAX_EVENTS), percent, text, at) == Bounded(Reported(c, None, percent, text, at))
    ensures Completed(Bounded(c), Some(MAX_EVENTS), text, at) == Bounded(Completed(c, None, text, at))
    ensures HasBroken(Bounded(c), Some(MAX_EVENTS), text, at) == Bounded(HasBroken(c, None, text, at))
  {
    hide Append, LastOf;
    AppendBounded(c.(progress := Max(c.progress, percent), message := Text(text)), Entry(at, Progressed, Text(text)));
    AppendBounded(c.(status := Succeeded, progress := 100, message := Text(text), error := None),
                  Entry(at, HasSucceeded, Text(text)));
    AppendBounded(c.(status := Failed, message := DidFail, error := Some(text)), Entry(at, HasFailed, Text(text)));
  }

  lemma BoundedRefuses(c: Control, call: Call)
    ensures Refused(Bounded(c), call) == Refused(c, call)
  {
  }

  lemma BoundedStep(c: Control, call: Call)
    ensures Do(Bounded(c), Some(MAX_EVENTS), call) == Bounded(Do(c, None, call))
  {
    hide Announce, Discard, MarkRunning, Drained, Reported, Completed, HasBroken, LastOf, Refused;
    BoundedRefuses(c, call);
    match call
    case Submit(op, at) => BoundedSections(Put(c, op), op.id, at);
    case Drain(at) => BoundedSections(c, 0, at);
    case DiscardQueued(id, at) => BoundedSections(c, id, at);
    case Claim(id, _, at) => BoundedSections(c, id, at);
    case Report(_, percent, text, at) => BoundedReports(c, percent, text, at);
    case Complete(_, text, at) => BoundedReports(c, 0, text, at);
    case Fail(_, text, at) => BoundedReports(c, 0, text, at);
    case Get =>
  }

  /** After any calls the controller is the unbounded one with its log cut to the last 32 entries. */
  lemma {:induction false} BoundedLogRefinesHistory(c: Control, calls: seq<Call>)
    ensures Run(Bounded(c), Some(MAX_EVENTS), calls) == Bounded(Run(c, None, calls))
  {
    if calls != [] {
      BoundedLogRefinesHistory(c, calls[..|calls| - 1]);
      BoundedStep(Run(c, None, calls[..|calls| - 1]), calls[|calls| - 1]);
    }
  }

  // ---------------------------------------------------------------- progress

  predicate Sound(c: Control) { 0 <= c.progress <= 100 && |c.queue| <= 1 && (c.status.Succeeded? ==>
    c.progress == 100) }

  /** The call does not start another operation under the id `id`. */
  predicate Continues(call: Call, id: Id) { call.Submit? ==> call.op.id != id }

  lemma ProgressStep(c: Control, b: Bound, call: Call)
    requires Sound(c)
    ensures Sound(Do(c, b, call))
    ensures var d := Do(c, b, call);
            c.current.Some? && Continues(call, c.current.value) && d.current == c.current ==> d.progress >= c.progress
  {
  }

  lemma {:induction false} RunIsSound(calls: seq<Call>, b: Bound)
    ensures Sound(Run(Fresh(), b, calls))
  {
    if calls != [] {
      RunIsSound(calls[..|calls| - 1], b);
      ProgressStep(Run(Fresh(), b, calls[..|calls| - 1]), b, calls[|calls| - 1]);
    }
  }

  lemma CurrentStep(c: Control, b: Bound, call: Call, id: Id)
    requires Continues(call, id) && c.current != Some(id)
    ensures Do(c, b, call).current != Some(id)
  {
  }

  /**
   While an operation stays current its progress never falls, whatever the flasher reports (90 comes
   before 88); an operation that stopped being current never becomes current again.
   */
  lemma {:induction false} ProgressNeverFalls(calls: seq<Call>, b: Bound, n: nat, id: Id)
    requires n <= |calls| && (forall k :: n <= k < |calls| ==> Continues(calls[k], id))
    requires Run(Fresh(), b, calls).current == Some(id)
    ensures Run(Fresh(), b, calls[..n]).current == Some(id)
    ensures 0 <= Run(Fresh(), b, calls[..n]).progress <= Run(Fresh(), b, calls).progress <= 100
  {
    RunIsSound(calls, b);
    if n == |calls| {
      assert calls[..n] == calls;
    } else {
      var init, last := calls[..|calls| - 1], calls[|calls| - 1];
      assert init[..n] == calls[..n];
      RunIsSound(init, b);
      if Run(Fresh(), b, init).current != Some(id) {
        CurrentStep(Run(Fresh(), b, init), b, last, id);
      }
      ProgressNeverFalls(init, b, n, id);
      ProgressStep(Run(Fresh(), b, init), b, last);
    }
  }

  // ---------------------------------------------------------------- the controller

  class OperationController {
    var queue: seq<FlashOperation>
    var status: Status
    var operationId: Option<Id>
    var progress: int
    var message: Message
    var error: Option<string>
    var events: seq<Entry>
    ghost var calls: seq<Call>

    function State(): Control
      reads this
    {
      Control(queue, status, operationId, progress, message, error, events)
    }

    /** The controller is what its calls so far make of a fresh one. */
    ghost predicate Valid()
      reads this
    {
      State() == Run(Fresh(), Some(MAX_EVENTS), calls)
    }

    constructor ()
      ensures Valid() && calls == [] && State() == Fresh()
    {
      queue, status, operationId, progress, message, error, events := [], Idle, None, 0, NothingRuns, None, [];
      calls := [];
    }

    ghost method Record(call: Call)
      requires State() == Do(Run(Fresh(), Some(MAX_EVENTS), calls), Some(MAX_EVENTS), call)
      modifies this`calls
      ensures Valid() && calls == old(calls) + [call]
    {
      RunOneMore(calls, call);
      hide Do, Run;
      calls := calls + [call];
    }

    method AppendEvent(at: int, kind: Kind, message: Message)
      modifies this`events
      ensures State() == Append(old(State()), Some(MAX_EVENTS), Entry(at, kind, message))
    {
      events := events + [Entry(at, kind, message)];
      if |events| > MAX_EVENTS {
        events := events[|events| - MAX_EVENTS..];
      }
    }

    method Submit(op: FlashOperation, at: int) returns (refusal: Option<Refusal>)
      requires Valid()
      modifies this
      ensures Valid() && calls == old(calls) + [Call.Submit(op, at)]
      ensures refusal == Refused(old(State()), Call.Submit(op, at))
      ensures State() == Do(old(State()), Some(MAX_EVENTS), Call.Submit(op, at))
    {
      hide Announce, Run;
      refusal := None;
      if op.artifact == "" || |op.artifact| > 128 {
        refusal := Some(BadArgument);
      } else if status in {Queued, Running} {
        refusal := Some(Busy);
      } else if |queue| >= 1 {
        refusal := Some(Busy);
      } else {
        queue := queue + [op];
        Enqueued(op.id, at);
      }
      Record(Call.Submit(op, at));
    }

    /** The fields `submit` sets once the queue took the operation. */
    method Enqueued(id: Id, at: int)
      modifies this`status, this`operationId, this`progress, this`message, this`error, this`events
      ensures State() == Announce(old(State()), Some(MAX_EVENTS), id, at)
    {
      status, operationId, progress, message, error := Queued, Some(id), 0, IsQueued, None;
      AppendEvent(at, WasQueued, message);
    }

    method Get() returns (op: Option<FlashOperation>)
      requires Valid()
      modifies this
      ensures Valid() && calls == old(calls) + [Call.Get]
      ensures State() == Do(old(State()), Some(MAX_EVENTS), Call.Get)
      ensures op == if old(queue) == [] then None else Some(old(queue)[0])
    {
      op := None;
      if queue != [] {
        op, queue := Some(queue[0]), queue[1..];
      }
      Record(Call.Get);
    }

    method Drain(at: int) returns (pending: seq<FlashOperation>)
      requires Valid()
      modifies this
      ensures Valid() && calls == old(calls) + [Call.Drain(at)]
      ensures State() == Do(old(State()), Some(MAX_EVENTS), Call.Drain(at)) && pending == old(queue)
    {
      pending := [];
      ghost var all := queue;
      while queue != []
        invariant pending + queue == all && State() == old(State()).(queue := queue) && calls == old(calls)
        decreases |queue|
      {
        pending, queue := pending + [queue[0]], queue[1..];
      }
      if pending != [] && status.Queued? {
        Clear(at);
      }
      Record(Call.Drain(at));
    }

    /** `_discard_queued_locked`. */
    method Clear(at: int)
      modifies this`status, this`operationId, this`progress, this`message, this`error, this`events
      ensures State() == Discard(old(State()), Some(MAX_EVENTS), at)
    {
      status, operationId, progress, message, error := Idle, None, 0, NothingRuns, None;
      AppendEvent(at, WasDiscarded, WasDropped);
    }

    method RequireQueued(id: Id) returns (refusal: Option<Refusal>)
      ensures refusal == NeedsQueued(State(), id)
    {
      refusal := if operationId != Some(id) then Some(NotCurrent) else if status != Queued
        then Some(NotQueued) else None;
    }

    method DiscardQueued(id: Id, at: int) returns (refusal: Option<Refusal>)
      requires Valid()
      modifies this
      ensures Valid() && calls == old(calls) + [Call.DiscardQueued(id, at)]
      ensures refusal == Refused(old(State()), Call.DiscardQueued(id, at))
      ensures State() == Do(old(State()), Some(MAX_EVENTS), Call.DiscardQueued(id, at))
    {
      refusal := RequireQueued(id);
      if refusal.None? {
        Clear(at);
      }
      Record(Call.DiscardQueued(id, at));
    }

    /** `stopping` is the answer `is_set` gave inside the lock. */
    method ClaimForRun(id: Id, stopping: bool, at: int) returns (refusal: Option<Refusal>, claimed: bool)
      requires Valid()
      modifies this
      ensures Valid() && calls == old(calls) + [Call.Claim(id, stopping, at)]
      ensures refusal == Refused(old(State()), Call.Claim(id, stopping, at))
      ensures claimed <==> refusal.None? && !stopping
      ensures State() == Do(old(State()), Some(MAX_EVENTS), Call.Claim(id, stopping, at))
    {
      claimed := false;
      refusal := RequireQueued(id);
      if refusal.None? {
        if stopping {
          Clear(at);
        } else {
          status, progress, message := Running, Max(progress, 1), Preparing;
          AppendEvent(at, WasStarted, message);
          claimed := true;
        }
      }
      Record(Call.Claim(id, stopping, at));
    }

    method ReportProgress(id: Id, percent: int, text: string, at: int) returns (refusal: Option<Refusal>)
      requires Valid()
      modifies this
      ensures Valid() && calls == old(calls) + [Call.Report(id, percent, text, at)]
      ensures refusal == Refused(old(State()), Call.Report(id, percent, text, at))
      ensures State() == Do(old(State()), Some(MAX_EVENTS), Call.Report(id, percent, text, at))
    {
      refusal := None;
      if !(0 <= percent <= 100) {
        refusal := Some(BadArgument);
      } else if operationId != Some(id) {
        refusal := Some(NotCurrent);
      } else if status.Running? {
        progress, message := Max(progress, percent), Text(text);
        AppendEvent(at, Progressed, message);
      }
      Record(Call.Report(id, percent, text, at));
    }

    method Complete(id: Id, text: string, at: int) returns (refusal: Option<Refusal>)
      requires Valid()
      modifies this
      ensures Valid() && calls == old(calls) + [Call.Complete(id, text, at)]
      ensures refusal == Refused(old(State()), Call.Complete(id, text, at))
      ensures State() == Do(old(State()), Some(MAX_EVENTS), Call.Complete(id, text, at))
    {
      refusal := if operationId != Some(id) then Some(NotCurrent) else None;
      if refusal.None? {
        status, progress, message, error := Succeeded, 100, Text(text), None;
        AppendEvent(at, HasSucceeded, message);
      }
      Record(Call.Complete(id, text, at));
    }

    method Fail(id: Id, text: string, at: int) returns (refusal: Option<Refusal>)
      requires Valid()
      modifies this
      ensures Valid() && calls == old(calls) + [Call.Fail(id, text, at)]
      ensures refusal == Refused(old(State()), Call.Fail(id, text, at))
      ensures State() == Do(old(State()), Some(MAX_EVENTS), Call.Fail(id, text, at))
    {
      refusal := if operationId != Some(id) then Some(NotCurrent) else None;
      if refusal.None? {
        status, message, error := Failed, DidFail, Some(text);
        AppendEvent(at, HasFailed, Text(text));
      }
      Record(Call.Fail(id, text, at));
    }
  }
}
