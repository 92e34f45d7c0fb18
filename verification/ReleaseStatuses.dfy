/** What the records say about a run after any history of webhooks and syncs. */
module ReleaseStatuses {
  import opened Wrappers
  import opened Releases
  import opened ReleaseRuns
  import opened ReleaseGroups
  import opened ReleaseEffects
  import opened ReleaseCopies
  import opened ReleaseHistory
  import opened ReleaseReplay

  // ---------------------------------------------------------------- one webhook

  /** What a delivery says about its run: the status, or that a release was created for it, or nothing. */
  ghost function SaidByWebhook(s: Records, payload: Payload, d: Delivery, runID: int): Option<ReleaseStatus> {
    var status := WebhookStatus(payload.status, payload.conclusion);
    if payload.runID != runID || (FindRun(s.releases, runID).None? && d.project.None?) then None
    else if status.Some? || FindRun(s.releases, runID).Some? || d.pick.Some? then status
    else Some(Pending)
  }

  lemma StoredStatus(s: Records, r: Release, y: int)
    requires Sound(s) && MayStore(s, r) && y != UNBOUND
    ensures StatusOfRun(Stored(s, r).releases, y) == if y == r.runID then Some(r.status) else StatusOfRun(s.releases, y)
  {
    StoreBound(s, r);
  }

  lemma FinishedStatus(s: Records, release: Release, payload: Payload, now: int, y: int)
    requires Sound(s) && MayStore(s, release) && y != UNBOUND
    ensures var status := WebhookStatus(payload.status, payload.conclusion);
      StatusOfRun(Finished(s, release, payload, now).releases, y)
        == if y == release.runID && status.Some? then status else StatusOfRun(s.releases, y)
  {
    var status := WebhookStatus(payload.status, payload.conclusion);
    if status.Some? {
      var tag := OrElse(payload.imageTag, release.imageTag);
      var r := release.(status := status.value, imageTag := tag, updatedAt := now);
      assert Finished(s, release, payload, now) == Stored(s, r);
      StoredStatus(s, r, y);
    }
  }

  lemma CreatedStatus(s: Records, r: Release, payload: Payload, now: int, y: int)
    requires Sound(s) && FindRun(s.releases, r.runID).None? && r.runID != UNBOUND && r.id !in s.releases && r.status == Pending && y != UNBOUND
    ensures var status := WebhookStatus(payload.status, payload.conclusion);
      StatusOfRun(Finished(s.(releases := s.releases[r.id := r]), r, payload, now).releases, y)
        == if y != r.runID then StatusOfRun(s.releases, y) else if status.Some? then status else Some(Pending)
  {
    var s1 := s.(releases := s.releases[r.id := r]);
    UnseenRunMayBeStored(s, r);
    WriteKeepsTidy(s, r, s.releases.Keys);
    StatusAfterWrite(s.releases, r, y);
    FinishedStatus(s1, r, payload, now, y);
  }

  lemma {:induction false} AttachedStatus(s: Records, pending: Release, payload: Payload, now: int, y: int)
    requires Sound(s) && pending.id in s.releases && s.releases[pending.id].runID == UNBOUND != payload.runID
    requires FindRun(s.releases, payload.runID).None? && y != UNBOUND
    ensures var status := WebhookStatus(payload.status, payload.conclusion);
      StatusOfRun(Finished(s, Attached(pending, payload, now), payload, now).releases, y)
        == if y == payload.runID && status.Some? then status else StatusOfRun(s.releases, y)
  {
    UnseenRunMayBeStored(s, Attached(pending, payload, now));
    FinishedStatus(s, Attached(pending, payload, now), payload, now, y);
  }

  lemma {:induction false} UnseenRunStatus(s: Records, projectID: string, payload: Payload, d: Delivery, y: int)
    requires Sound(s) && LegalDelivery(s, payload, d) && FindRun(s.releases, payload.runID).None? && d.project == Some(projectID)
    requires y != UNBOUND
    ensures var said := SaidByWebhook(s, payload, d, y);
      StatusOfRun(Webhook(s, payload, d).releases, y) == if said.Some? then said else StatusOfRun(s.releases, y)
  {
    var stage := ResolveStage(s.stages, projectID, WebhookSlug(payload), d.newStage, d.created);
    var s1 := s.(stages := stage.stages);
    ResolvedStagesStaySound(s.stages, projectID, WebhookSlug(payload), d.newStage, d.created);
    match d.pick
    case Some(pending) => AttachedStatus(s1, pending, payload, d.now, y);
    case None => CreatedStatus(s1, FromPayload(d.newRelease, projectID, stage.stageID, payload, d.now), payload, d.now, y);
  }

  /** The status of every run after a delivery. */
  lemma {:induction false} WebhookStatuses(s: Records, payload: Payload, d: Delivery, y: int)
    requires Sound(s) && LegalDelivery(s, payload, d) && y != UNBOUND
    ensures var said := SaidByWebhook(s, payload, d, y);
      StatusOfRun(Webhook(s, payload, d).releases, y) == if said.Some? then said else StatusOfRun(s.releases, y)
  {
    match FindRun(s.releases, payload.runID)
    case Some(id) => FinishedStatus(s, s.releases[id], payload, d.now, y);
    case None =>
      if d.project.Some? {
        UnseenRunStatus(s, d.project.value, payload, d, y);
      }
  }

  // ---------------------------------------------------------------- every run

  /** The run sits on the release that the step overwrites. */
  ghost predicate Unseats(h: History, step: Step, runID: int) {
    Overwrites(h, step) && Carried(h.records, CopyOf(h, step.sync, step.slug)) == runID
  }

  /** What a step says about a run. If it takes the run's release away it says what the runs after the first new one say. */
  ghost function Said(h: History, step: Step, runID: int): Option<ReleaseStatus> {
    match step
    case WebhookArrives(payload, d) => SaidByWebhook(h.records, payload, d, runID)
    case StageSynced(sync, slug, runs, supply) =>
      if Unseats(h, step, runID) then MappedIn(runs[FirstNew(h.records.releases, runs) + 1..], runID) else MappedIn(runs, runID)
    case _ => None
  }

  lemma NewUnboundStatus(s: Records, r: Release, y: int)
    requires r.id !in s.releases && r.runID == UNBOUND != y && Sound(s)
    ensures StatusOfRun(s.releases[r.id := r], y) == StatusOfRun(s.releases, y)
  {
    var releases' := s.releases[r.id := r];
    if FindRun(s.releases, y).Some? {
      var id := FindRun(s.releases, y).value;
      assert releases'[id] == s.releases[id];
    }
  }

  lemma {:induction false} QuietStepStatus(h: History, step: Step, y: int)
    requires Tidy(h) && Legal(h, step) && y != UNBOUND && !step.WebhookArrives? && !step.StageSynced?
    ensures StatusOfRun(Apply(h, step).records.releases, y) == StatusOfRun(h.records.releases, y)
  {
    match step
    case Bootstraps(projectID, stageID, newID, message, now) =>
      NewUnboundStatus(h.records, Release(newID, projectID, stageID, "", message, Pending, UNBOUND, "", now, now), y);
    case RollsBack(projectID, targetID, newID, message, applied, now) =>
      if RollbackAllowed(h.records, projectID, targetID) {
        var r := RollbackAdds(h.records, projectID, targetID, newID, message, applied, now);
        NewUnboundStatus(h.records, r, y);
      }
    case _ =>
  }

  lemma {:induction false} StageStepStatus(h: History, sync: nat, slug: string, runs: seq<WorkflowRun>, supply: Supply, y: int)
    requires Tidy(h) && Legal(h, StageSynced(sync, slug, runs, supply)) && y != UNBOUND
    ensures var step := StageSynced(sync, slug, runs, supply);
      StatusOfRun(Apply(h, step).records.releases, y)
        == if Said(h, step, y).Some? || Unseats(h, step, y) then Said(h, step, y) else StatusOfRun(h.records.releases, y)
  {
    StageIsProper(h, sync, slug, runs, supply);
    StageStatuses(h.records, CopyOf(h, sync, slug), h.syncs[sync].projectID, slug, runs, supply, y);
  }

  lemma {:induction false} StepStatus(h: History, step: Step, y: int)
    requires Tidy(h) && Legal(h, step) && y != UNBOUND
    ensures var said := Said(h, step, y);
      StatusOfRun(Apply(h, step).records.releases, y)
        == if said.Some? || Unseats(h, step, y) then said else StatusOfRun(h.records.releases, y)
  {
    match step
    case WebhookArrives(payload, d) => WebhookStatuses(h.records, payload, d, y);
    case StageSynced(sync, slug, runs, supply) => StageStepStatus(h, sync, slug, runs, supply, y);
    case _ => QuietStepStatus(h, step, y);
  }

  /** The last thing that was said about a run; nothing, if it has been unseated since. */
  ghost function LastSaid(steps: seq<Step>, runID: int): Option<ReleaseStatus> {
    if steps == [] then None
    else
      var front, step := steps[..|steps| - 1], steps[|steps| - 1];
      var said := Said(After(front), step, runID);
      if said.Some? || Unseats(After(front), step, runID) then said else LastSaid(front, runID)
  }

  /**
   Over every run of the system: the status of a GitHub run is the one that the last delivery or stage of a sync with a
   recognised status gave to it, however late that came, and it is recorded unless it has been unseated since.
   */
  lemma {:induction false} LastWordCounts(steps: seq<Step>, runID: int)
    requires LegalRun(steps) && runID != UNBOUND
    ensures StatusOfRun(After(steps).records.releases, runID) == LastSaid(steps, runID)
  {
    if steps != [] {
      var front := steps[..|steps| - 1];
      LastWordCounts(front, runID);
      RunIsTidy(front);
      StepStatus(After(front), steps[|steps| - 1], runID);
    }
  }

  /** So exactly one release carries a run that has been heard of and not been unseated since, and none any other run. */
  lemma {:induction false} HeardRunsAreBound(steps: seq<Step>, runID: int)
    requires LegalRun(steps) && runID != UNBOUND
    ensures LastSaid(steps, runID).Some? <==> exists id :: Carries(After(steps), id, runID)
    ensures LastSaid(steps, runID).Some? ==> BoundToOne(After(steps).records.releases, runID, LastSaid(steps, runID).value)
  {
    LastWordCounts(steps, runID);
    RunIsTidy(steps);
    var found := FindRun(After(steps).records.releases, runID);
    if found.Some? {
      assert Carries(After(steps), found.value, runID);
      BoundIffStatus(After(steps).records, runID, LastSaid(steps, runID).value);
    }
  }

  // ---------------------------------------------------------------- two deliveries in either order

  /** The run of the payload is known, or some project owns it. */
  ghost predicate IsHeard(s: Records, payload: Payload, d: Delivery) {
    LegalDelivery(s, payload, d) && WebhookStatus(payload.status, payload.conclusion).Some?
    && (FindRun(s.releases, payload.runID).Some? || d.project.Some?)
  }

  lemma {:induction false} SecondOfTwo(s: Records, payload: Payload, d: Delivery, later: Payload, d': Delivery)
    requires Sound(s) && IsHeard(s, payload, d) && later.runID == payload.runID
    requires LegalDelivery(Webhook(s, payload, d), later, d') && WebhookStatus(later.status, later.conclusion).Some?
    ensures StatusOfRun(Webhook(Webhook(s, payload, d), later, d').releases, payload.runID) == WebhookStatus(later.status, later.conclusion)
  {
    WebhookKeepsTidy(s, payload, d, s.releases.Keys);
    WebhookStatuses(s, payload, d, payload.runID);
    WebhookStatuses(Webhook(s, payload, d), later, d', payload.runID);
  }

  /**
   Two deliveries of one run, both recognised, leave it with the status of the one that comes later, so that a delayed
   "in_progress" sets a finished release back; they commute exactly if they say the same.
   */
  lemma {:induction false} DeliveriesCommuteIff(s: Records, a: Payload, b: Payload, d1: Delivery, d2: Delivery, e1: Delivery, e2: Delivery)
    requires Sound(s) && a.runID == b.runID
    requires IsHeard(s, a, d1) && LegalDelivery(Webhook(s, a, d1), b, d2)
    requires IsHeard(s, b, e1) && LegalDelivery(Webhook(s, b, e1), a, e2)
    ensures StatusOfRun(Webhook(Webhook(s, a, d1), b, d2).releases, a.runID) == WebhookStatus(b.status, b.conclusion)
    ensures StatusOfRun(Webhook(Webhook(s, a, d1), b, d2).releases, a.runID) == StatusOfRun(Webhook(Webhook(s, b, e1), a, e2).releases, a.runID)
       <==> WebhookStatus(a.status, a.conclusion) == WebhookStatus(b.status, b.conclusion)
  {
    SecondOfTwo(s, a, d1, b, d2);
    SecondOfTwo(s, b, e1, a, e2);
  }

  // ---------------------------------------------------------------- a run that is lost

  /** A stage whose copy has been overtaken is handed one run that is new. */
  lemma {:induction false} NewRunUnseats(h: History, sync: nat, slug: string, copy: Release, run: WorkflowRun, supply: Supply, runID: int)
    requires Tidy(h) && Legal(h, StageSynced(sync, slug, [run], supply)) && CopyOf(h, sync, slug) == Some(copy)
    requires Carries(h, copy.id, runID) && runID != UNBOUND && IsNew(h.records.releases, run)
    ensures var h' := Apply(h, StageSynced(sync, slug, [run], supply));
      Carries(h', copy.id, run.id) && StatusOfRun(h'.records.releases, runID).None?
  {
    var step := StageSynced(sync, slug, [run], supply);
    StageIsProper(h, sync, slug, [run], supply);
    assert [run][0] == run && FirstNew(h.records.releases, [run]) == 0;
    OvertakenStage(h.records, copy, h.syncs[sync].projectID, slug, [run], supply);
    StatusOfBound(h.records.releases, copy.id);
    assert [run][0 + 1..] == [] && MappedIn([], runID).None?;
    RunIsLostIff(h, step, runID);
  }

  lemma {:induction false} FinishedKeepsKeys(s: Records, release: Release, payload: Payload, now: int)
    requires release.id in s.releases && WebhookStatus(payload.status, payload.conclusion).Some?
    ensures var s' := Finished(s, release, payload, now);
      s'.releases.Keys == s.releases.Keys && s'.stages.Keys == s.stages.Keys && s'.releases[release.id].runID == release.runID
  {
    var tag := OrElse(payload.imageTag, release.imageTag);
    var r := release.(status := WebhookStatus(payload.status, payload.conclusion).value, imageTag := tag, updatedAt := now);
    assert Finished(s, release, payload, now) == Stored(s, r);
    StoreKeepsStageNames(s, r);
  }

  /** What a delivery to a placeholder leaves. */
  lemma {:induction false} AttachedKeepsKeys(s: Records, projectID: string, pick: Release, payload: Payload, d: Delivery)
    requires Placed(s) && LegalDelivery(s, payload, d) && d.project == Some(projectID) && d.pick == Some(pick)
    requires FindRun(s.releases, payload.runID).None? && WebhookStatus(payload.status, payload.conclusion).Some?
    ensures var s' := Webhook(s, payload, d);
      && s'.releases.Keys == s.releases.Keys && s'.stages.Keys == s.stages.Keys
      && pick.id in s.releases && s'.releases[pick.id].runID == payload.runID
  {
    PickedIffAwaited(s, projectID, WebhookSlug(payload), d.newStage, d.created, d.pick);
    FinishedKeepsKeys(s, Attached(pick, payload, d.now), payload, d.now);
  }

  lemma {:induction false} ListingOfOne(s: Records, waiting: Release, stage: Stage)
    requires s == Records(map[waiting.id := waiting], map[stage.id := stage])
    requires waiting.projectID == stage.projectID && waiting.stageID == stage.id != "" && IsCandidate(waiting)
    ensures IsReleaseListing([waiting], s.releases, stage.projectID)
    ensures StagesOf([waiting], s.stages) == map[stage.slug := StageInfo(waiting.createdAt, Some(waiting))]
  {
    assert [waiting][..0] == [] && StagesOf([], s.stages) == map[];
    assert [waiting][0] in [waiting];
  }

  /** Ids that the state after a project's first bootstrap does not use. */
  ghost predicate IsFreshSupply(supply: Supply, used: string, stageID: string) {
    && (forall x: int, y: int :: supply.releaseFor(x) == supply.releaseFor(y) ==> x == y)
    && (forall x: int :: supply.releaseFor(x) != used)
    && supply.newStage != "" && supply.newStage != stageID
  }

  /** A project is bootstrapped, and a sync lists its placeholder. */
  lemma {:induction false} BootstrappedAndListed(stage: Stage, waiting: Release) returns (steps: seq<Step>)
    requires stage.id != "" && IsCanonical(stage.slug)
    requires waiting == Release(waiting.id, stage.projectID, stage.id, "", waiting.commitMessage, Pending, UNBOUND, "", 0, 0)
    ensures LegalRun(steps) && Placed(After(steps).records)
    ensures After(steps) == History(Records(map[waiting.id := waiting], map[stage.id := stage]), {waiting.id},
                                    [OpenSync(stage.projectID, map[stage.slug := StageInfo(0, Some(waiting))])])
  {
    var start := FirstBootstrap(stage, waiting);
    ListingOfOne(After(start).records, waiting, stage);
    OneMoreStep(start, SyncReads(stage.projectID, [waiting]));
    steps := start + [SyncReads(stage.projectID, [waiting])];
  }

  /** Then a webhook binds a run to it. */
  lemma {:induction false} BoundMeanwhile(s: Records, stage: Stage, waiting: Release, payload: Payload) returns (d: Delivery)
    requires s == Records(map[waiting.id := waiting], map[stage.id := stage]) && Placed(s)
    requires waiting.projectID == stage.projectID && waiting.stageID == stage.id && IsOpen(waiting)
    requires payload.runID != UNBOUND && WebhookSlug(payload) == stage.slug && WebhookStatus(payload.status, payload.conclusion).Some?
    ensures LegalDelivery(s, payload, d)
    ensures var s' := Webhook(s, payload, d);
      s'.releases.Keys == {waiting.id} && s'.stages.Keys == {stage.id} && s'.releases[waiting.id].runID == payload.runID
  {
    d := OnlyOneWaits(s, waiting, stage, payload);
    AttachedKeepsKeys(s, stage.projectID, waiting, payload, d);
  }

  lemma {:induction false} ListedThenBound(stage: Stage, waiting: Release, payload: Payload) returns (steps: seq<Step>, h: History)
    requires stage.id != "" && IsCanonical(stage.slug)
    requires waiting == Release(waiting.id, stage.projectID, stage.id, "", waiting.commitMessage, Pending, UNBOUND, "", 0, 0)
    requires payload.runID != UNBOUND && WebhookSlug(payload) == stage.slug && WebhookStatus(payload.status, payload.conclusion).Some?
    ensures LegalRun(steps) && Tidy(h) && h == After(steps)
    ensures h.records.releases.Keys == h.placeholders == {waiting.id} && Carries(h, waiting.id, payload.runID) && h.records.stages.Keys == {stage.id}
    ensures h.syncs == [OpenSync(stage.projectID, map[stage.slug := StageInfo(0, Some(waiting))])]
  {
    var listed := BootstrappedAndListed(stage, waiting);
    var d := BoundMeanwhile(After(listed).records, stage, waiting, payload);
    OneMoreStep(listed, WebhookArrives(payload, d));
    steps := listed + [WebhookArrives(payload, d)];
    h := After(steps);
    RunIsTidy(steps);
  }

  lemma {:induction false} StageMayStillRun(h: History, id: string, stageID: string, slug: string, run: WorkflowRun, supply: Supply)
    requires h.records.releases.Keys == h.placeholders == {id} && h.records.stages.Keys == {stageID}
    requires IsWaiting(h, 0, slug) && run.id != UNBOUND && IsFreshSupply(supply, id, stageID)
    ensures Legal(h, StageSynced(0, slug, [run], supply))
  {
  }

  lemma {:induction false} OtherRunIsNew(h: History, id: string, runID: int, run: WorkflowRun)
    requires h.records.releases.Keys == {id} && Carries(h, id, runID) && run.id != runID && StatusOf(run).Some?
    ensures IsNew(h.records.releases, run)
  {
  }

  /**
   A run of the system in which a GitHub run is lost: a sync lists the placeholder and asks GitHub, meanwhile a webhook
   binds a run to the placeholder, and the stage is then handed another run. It takes the placeholder as it was listed,
   and no release carries the first run any more.
   */
  lemma {:induction false} OvertakenSyncLosesARun(stage: Stage, waiting: Release, payload: Payload, run: WorkflowRun, supply: Supply)
    returns (steps: seq<Step>, step: Step)
    requires stage.id != "" && IsCanonical(stage.slug)
    requires waiting == Release(waiting.id, stage.projectID, stage.id, "", waiting.commitMessage, Pending, UNBOUND, "", 0, 0)
    requires payload.runID != UNBOUND && WebhookSlug(payload) == stage.slug && WebhookStatus(payload.status, payload.conclusion).Some?
    requires run.id != UNBOUND && run.id != payload.runID && StatusOf(run).Some? && IsFreshSupply(supply, waiting.id, stage.id)
    ensures LegalRun(steps + [step]) && step.StageSynced?
    ensures StatusOfRun(After(steps).records.releases, payload.runID).Some?
    ensures StatusOfRun(After(steps + [step]).records.releases, payload.runID).None?
    ensures Carries(After(steps), waiting.id, payload.runID) && Carries(After(steps + [step]), waiting.id, run.id)
  {
    var h;
    steps, h := ListedThenBound(stage, waiting, payload);
    step := StageSynced(0, stage.slug, [run], supply);
    StageMayStillRun(h, waiting.id, stage.id, stage.slug, run, supply);
    OtherRunIsNew(h, waiting.id, payload.runID, run);
    OneMoreStep(steps, step);
    StatusOfBound(h.records.releases, waiting.id);
    NewRunUnseats(h, 0, stage.slug, waiting, run, supply, payload.runID);
  }
}
