/**
 What single steps of requests, worker and reaper do, said of the state before them: who is admitted, which upload
 may be flashed and with which confirmation, how long it lives, and what an operation ends as
 (cul868_flasher/app/ingress.py and main.py).
 */
module RequestLaws {
  import opened Common
  import opened Operation
  import opened Admission
  import opened AdmissionLaws
  import opened Ownership
  import opened Shutdown

  /** The request `t` left the admission lock empty-handed; an upload it still has is to be unlinked. */
  ghost predicate TurnedAway(s: State, e: State, t: Tid, job: Job)
  {
    && e == s.(visit := None, threads := e.threads)
    && e.threads == s.threads[t := if job.Stage? then Discarding(job.file) else Finished]
  }

  /** A request is admitted exactly while nothing was stopped or closed. */
  lemma AdmissionExactly(s: State, v: Visit, job: Job, token: Artifact, manual: bool)
    requires s.visit == Some(v) && v.pc == Entering(job)
    ensures var e := Apply(s, Proceed(token, manual));
            if s.stopping || !s.accepting then TurnedAway(s, e, v.t, job)
            else
              && e == s.(visit := e.visit) && e.visit.Some? && e.visit.value.t == v.t
              && e.visit.value.pc == if job.Flash? then Claiming(job.artifact, job.confirm) else Checking(job)
  {
  }

  /** Uploads, LED and diagnostics go on exactly while no operation is queued or running. */
  lemma IdleExactly(s: State, v: Visit, job: Job, token: Artifact, manual: bool)
    requires s.visit == Some(v) && v.pc == Checking(job) && !job.Flash? && !ControllerHeld(s)
    ensures var e := Apply(s, Proceed(token, manual));
            if s.ops.status == Queued || s.ops.status == Status.Running then TurnedAway(s, e, v.t, job)
            else match job
                 case Validate => e == s.(visit := None, threads := s.threads[v.t := Writing])
                 case Stage(file) => e == s.(visit := Some(Visit(v.t, Staging(file))))
                 case Errand => e == s.(visit := Some(Visit(v.t, Locking)))
                 case Flash(_, _) => true
  {
  }

  /** Still staged, and neither claimed nor 900 seconds old. */
  predicate Flashable(s: State, artifact: Artifact)
  {
    && artifact in s.registry && !s.registry[artifact].claimed
    && s.now < s.registry[artifact].expires
  }

  /**
   A flash is submitted exactly for a live upload, with the second confirmation exactly for one that was staged
   for manual recovery; the operation is for that upload and carries that mode. Without it the claim is given back.
   */
  lemma ConsentExactly(s: State, v: Visit, artifact: Artifact, confirm: Confirmation, token: Artifact, manual: bool)
    requires Reachable(s) && s.visit == Some(v) && v.pc == Claiming(artifact, confirm)
    ensures var e := Apply(s, Proceed(token, manual));
            var live := 16 <= |artifact| <= 128 && Flashable(s, artifact);
            var wanted := if live && s.registry[artifact].manual then {Given} else {Absent, Denied};
            && (e.visit.None? <==> !live)
            && (live ==>
                  && artifact in e.registry && e.registry[artifact] == s.registry[artifact].(claimed := true)
                  && e.visit == Some(Visit(v.t, if confirm in wanted
                                                then Submitting(artifact,
                                                  FlashOperation(s.ids, artifact, s.registry[artifact].file,
                                                                 s.registry[artifact].manual))
                                                else Refusing(artifact))))
  {
    ReachableInv(s);
    hide Inv;
  }

  /** A refused claim is free again, an accepted one is gone from the registry. */
  lemma ClaimEndsExactly(s: State, v: Visit, token: Artifact, manual: bool)
    requires Reachable(s) && s.visit == Some(v) && (v.pc.Refusing? || v.pc.Consuming?)
    ensures var e := Apply(s, Proceed(token, manual));
            && e.visit.None? && At(e, v.t).Finished?
            && (v.pc.Consuming? ==> e.registry == map[])
            && (v.pc.Refusing? ==>
                  && e.registry.Keys == s.registry.Keys && v.pc.artifact in s.registry
                  && forall a :: a in s.registry ==> e.registry[a] == s.registry[a].(claimed := false))
  {
    ReachableInv(s);
  }

  /** An upload is staged for 900 seconds and replaces what was staged; a claimed one cannot be there. */
  lemma StagedExactly(s: State, v: Visit, file: Upload, token: Artifact, manual: bool)
    requires Reachable(s) && s.visit == Some(v) && v.pc == Staging(file) && token !in s.registry
    ensures var e := Apply(s, Proceed(token, manual));
            && e.registry == map[token := Staged(file, manual, s.now + 900, false)]
            && e.visit.Some? && e.visit.value.t == v.t && e.visit.value.pc.Replacing?
            && forall f :: f in e.visit.value.pc.files <==>
                 exists a :: a in s.registry && s.registry[a].file == f && s.now < s.registry[a].expires
  {
    assert Shelf(s) by { ReachableInv(s); }
    hide Inv, Reachable, Shelf, Give, Remove, ExpiredFiles, FilesIn;
    NobodyClaims(s);
    LiveFiles(s.registry, s.now);
    assert Swept(s).registry == Unexpired(s.registry, s.now) && Swept(s).now == s.now && Swept(s).visit == s.visit;
    StagesOver(Swept(s), v, file, token, manual);
  }

  lemma LiveFiles(r: Registry, now: int)
    requires forall a :: a in r ==> !r[a].claimed
    ensures forall f :: f in FilesIn(Unexpired(r, now)) <==> exists a :: a in r && r[a].file == f && now < r[a].expires
  {
    var left := Unexpired(r, now);
    forall f | f in FilesIn(left) ensures exists a :: a in r && r[a].file == f && now < r[a].expires {
      var a :| a in left && left[a].file == f;
      assert a in r;
    }
    forall a | a in r && now < r[a].expires ensures r[a].file in FilesIn(left) {
      assert a in left && left[a] == r[a];
    }
  }

  lemma NobodyClaims(s: State)
    requires Shelf(s) && s.visit.Some? && s.visit.value.pc.Staging?
    ensures !AnyClaimed(s.registry) && !AnyClaimed(Unexpired(s.registry, s.now))
    ensures forall a :: a in s.registry ==> !s.registry[a].claimed
  {
  }

  lemma StagesOver(s: State, v: Visit, file: Upload, token: Artifact, manual: bool)
    requires s.visit == Some(v) && !AnyClaimed(s.registry)
    ensures var e := DoStage(s, v, file, token, manual);
            && e.registry == map[token := Staged(file, manual, s.now + 900, false)]
            && e.visit == Some(Visit(v.t, Replacing(FilesIn(s.registry))))
  {
  }

  /** The reaper removes exactly what is unclaimed and due, and unlinks its upload. */
  lemma ExpiryExactly(s: State)
    requires Reachable(s)
    ensures var e := Apply(s, Expire);
            && (forall a :: a in e.registry <==>
                  a in s.registry && (s.registry[a].claimed || s.now < s.registry[a].expires))
            && (forall a :: a in e.registry ==> e.registry[a] == s.registry[a])
            && (forall f :: e.unlinks[f] != s.unlinks[f] <==>
                  exists a :: a in s.registry && s.registry[a].file == f
                              && !s.registry[a].claimed && s.registry[a].expires <= s.now)
  {
    ReachableInv(s);
  }

  /** Only one of startup verification, an errand and a flash has the flasher. */
  lemma FlasherIsExclusive(s: State)
    requires Reachable(s)
    ensures !(s.worker.Verifying? && s.visit.Some? && s.visit.value.pc.Talking?)
    ensures !(s.worker.Flashing? && s.visit.Some? && s.visit.value.pc.Talking?)
    ensures !((s.worker.Deciding? || s.worker.Marking?) && s.visit.Some? && s.visit.value.pc.Announcing?)
  {
    ReachableInv(s);
  }

  /** A flash ends as what it returned, and its upload is unlinked next. */
  lemma OutcomeExactly(s: State, percent: int, text: string, ok: bool)
    requires Reachable(s) && s.worker.Reporting? && !ControllerHeld(s) && percent <= 100
    ensures var op, e := s.worker.op, Apply(s, Step.Work(percent, text, ok));
            && e.ops.status == (if s.worker.ok then Succeeded else Failed) && e.ops.current == Some(op.id)
            && (s.worker.ok ==> e.ops.progress == 100 && e.ops.error.None?)
            && (!s.worker.ok ==> e.ops.error == Some(text))
            && e.worker == Cleaning(op) && op.id in e.tickets && e.tickets[op.id].fate.Ended?
  {
    ReachableInv(s);
  }
}
