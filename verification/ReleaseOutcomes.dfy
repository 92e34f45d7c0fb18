/** What GitHub's words about a run make of the release that carries the run, and of the stage that the release is in. */
module ReleaseOutcomes {
  import opened Wrappers
  import opened Text
  import opened Releases
  import opened ReleaseRuns
  import opened ReleaseEffects
  import opened ReleaseCopies
  import opened ReleaseHistory
  import opened ReleaseOrder
  import Names

  // ---------------------------------------------------------------- words

  /** The status of a release whose run is described with these words. */
  predicate Reads(status: ReleaseStatus, said: string, conclusion: string) {
    match status
    case Success => said == "completed" && conclusion == "success"
    case Failed => said == "completed" && conclusion != "success"
    case Building => said == "in_progress"
    case Pending => said == "queued" || said == "requested" || said == "waiting"
    case Deploying => false
  }

  predicate WebhookKnows(said: string) {
    said == "in_progress" || said == "completed"
  }

  predicate SyncKnows(said: string) {
    WebhookKnows(said) || said == "queued" || said == "requested" || said == "waiting"
  }

  /** The stage of a release that has succeeded is active, and of one that has failed it is failed. */
  ghost predicate StageShows(stages: map<string, Stage>, r: Release) {
    r.stageID != "" && r.stageID in stages ==>
      && (r.status == Success ==> stages[r.stageID].status == StageActive)
      && (r.status == Failed ==> stages[r.stageID].status == StageFailed)
  }

  /** Nothing else happens to the stages that there were: no other changes, and this one only then and only its status. */
  ghost predicate OnlyItsStage(stages: map<string, Stage>, stages': map<string, Stage>, r: Release) {
    forall id :: id in stages ==>
      && id in stages'
      && stages'[id] == stages[id].(status := stages'[id].status)
      && (id != r.stageID || id == "" || (r.status != Success && r.status != Failed) ==> stages'[id] == stages[id])
  }

  /** The record `r` has been written, its status is what the words mean, and its stage has followed. */
  ghost predicate Outcome(s: Records, s': Records, r: Release, said: string, conclusion: string) {
    && Reads(r.status, said, conclusion)
    && s'.releases == s.releases[r.id := r]
    && StageShows(s'.stages, r) && OnlyItsStage(s.stages, s'.stages, r)
  }

  lemma FollowedStages(stages: map<string, Stage>, r: Release)
    ensures StageShows(StagesAfter(stages, r), r) && OnlyItsStage(stages, StagesAfter(stages, r), r)
    ensures StagesAfter(stages, r).Keys == stages.Keys
  {
  }

  lemma WordsOfWebhooks(said: string, conclusion: string)
    ensures WebhookKnows(said) <==> WebhookStatus(said, conclusion).Some?
    ensures WebhookKnows(said) ==> Reads(WebhookStatus(said, conclusion).value, said, conclusion)
  {
  }

  lemma WordsOfSyncs(run: WorkflowRun)
    ensures SyncKnows(run.status) <==> StatusOf(run).Some?
    ensures SyncKnows(run.status) ==> Reads(StatusOf(run).value, run.status, run.conclusion)
  {
  }

  lemma WordsMeanOneThing(a: ReleaseStatus, b: ReleaseStatus, said: string, conclusion: string)
    requires Reads(a, said, conclusion) && Reads(b, said, conclusion)
    ensures a == b
  {
  }

  // ---------------------------------------------------------------- one delivery

  /** What a text gives, if it is not blank. */
  function Given(text: string, otherwise: string): string {
    if Trim(text) != "" then Trim(text) else otherwise
  }

  lemma FinishedOutcome(s: Records, release: Release, payload: Payload, now: int) returns (r: Release)
    ensures WebhookKnows(payload.status) ==>
      && r == release.(status := r.status, imageTag := Given(payload.imageTag, release.imageTag), updatedAt := now)
      && Outcome(s, Finished(s, release, payload, now), r, payload.status, payload.conclusion)
    ensures !WebhookKnows(payload.status) ==> Finished(s, release, payload, now) == s
  {
    WordsOfWebhooks(payload.status, payload.conclusion);
    if WebhookKnows(payload.status) {
      var tag := OrElse(payload.imageTag, release.imageTag);
      r := release.(status := WebhookStatus(payload.status, payload.conclusion).value, imageTag := tag, updatedAt := now);
      assert Finished(s, release, payload, now) == Stored(s, r);
      FollowedStages(s.stages, r);
    } else {
      r := release;
    }
  }

  /** A run that a release carries: its status, image and time change, and nothing at all if the words are not known. */
  lemma KnownRunDelivered(s: Records, payload: Payload, d: Delivery, id: string) returns (r: Release)
    requires Sound(s) && id in s.releases && s.releases[id].runID == payload.runID != UNBOUND
    ensures WebhookKnows(payload.status) ==>
      && r == s.releases[id].(status := r.status, imageTag := Given(payload.imageTag, s.releases[id].imageTag), updatedAt := d.now)
      && Outcome(s, Webhook(s, payload, d), r, payload.status, payload.conclusion)
    ensures !WebhookKnows(payload.status) ==> Webhook(s, payload, d) == s
  {
    RunIsFound(s, id);
    r := FinishedOutcome(s, s.releases[id], payload, d.now);
  }

  /** A project's stages with the production stage that may have been created. */
  ghost predicate StagesResolved(s: Records, stages: map<string, Stage>, projectID: string, d: Delivery) {
    && s.stages.Keys <= stages.Keys <= s.stages.Keys + {d.newStage}
    && (forall id :: id in s.stages ==> stages[id] == s.stages[id])
    && (d.newStage in stages && d.newStage !in s.stages ==>
          stages[d.newStage] == Stage(d.newStage, projectID, "production", if d.created then StageActive else StageFailed))
  }

  lemma StagesAreResolved(s: Records, projectID: string, slug: string, d: Delivery)
    requires d.newStage in s.stages ==> s.stages[d.newStage].projectID == projectID && s.stages[d.newStage].slug == "production"
    ensures StagesResolved(s, ResolveStage(s.stages, projectID, slug, d.newStage, d.created).stages, projectID, d)
  {
  }

  lemma OutcomeFromBefore(
    s: Records, s1: Records, projectID: string, d: Delivery, s': Records, r: Release, made: Release, said: string, conclusion: string)
    requires StagesResolved(s, s1.stages, projectID, d) && Outcome(s1, s', r, said, conclusion)
    requires s1.releases == s.releases || (s1.releases == s.releases[made.id := made] && made.id == r.id)
    ensures Outcome(s, s', r, said, conclusion)
  {
    assert s.releases[made.id := made][made.id := r] == s.releases[made.id := r];
  }

  /** A stage that is given to a release has the project and the slug that were asked for. */
  ghost predicate IsStageOf(stages: map<string, Stage>, stageID: string, projectID: string, slug: string) {
    stageID != "" ==> stageID in stages && stages[stageID].projectID == projectID && stages[stageID].slug == slug
  }

  /** A run's stage is named by the payload, or else by the path of the workflow, or else it is production. */
  lemma SlugOfAPayload(payload: Payload)
    ensures var named, filed := Names.Slug(payload.stageSlug), Names.StageSlugFromWorkflowPath(payload.path);
      WebhookSlug(payload) == if named != "" then named else if filed != "" then filed else "production"
  {
  }

  /** The stage that a slug leads to: the project's own, or a production stage that is created on demand, or none. */
  lemma StageIsResolved(stages: map<string, Stage>, projectID: string, slug: string, newID: string, created: bool)
    ensures var r := ResolveStage(stages, projectID, slug, newID, created);
      if exists id :: id in stages && stages[id].projectID == projectID && stages[id].slug == slug
      then r.stages == stages && r.stageID in stages && stages[r.stageID].projectID == projectID && stages[r.stageID].slug == slug
      else if slug == "production"
      then && r.stageID == (if created then newID else "")
           && r.stages == stages[newID := Stage(newID, projectID, "production", if created then StageActive else StageFailed)]
      else r.stageID == "" && r.stages == stages
  {
  }

  lemma ResolvedIsStageOf(s: Records, projectID: string, slug: string, d: Delivery)
    ensures var stage := ResolveStage(s.stages, projectID, slug, d.newStage, d.created);
      IsStageOf(stage.stages, stage.stageID, projectID, slug)
  {
  }

  /** A run that nobody carries, for a project with an open release in the stage: the release takes the run. */
  lemma WaitingReleaseDelivered(s: Records, payload: Payload, d: Delivery, pick: Release) returns (r: Release)
    requires LegalDelivery(s, payload, d) && (forall id :: id in s.releases ==> s.releases[id].runID != payload.runID)
    requires d.project.Some? && d.pick == Some(pick)
    ensures WebhookKnows(payload.status) ==>
      && r == pick.(runID := payload.runID, commitSHA := Given(payload.headSHA, pick.commitSHA),
                    commitMessage := Given(payload.message, pick.commitMessage),
                    status := r.status, imageTag := Given(payload.imageTag, pick.imageTag), updatedAt := d.now)
      && Outcome(s, Webhook(s, payload, d), r, payload.status, payload.conclusion)
    ensures !WebhookKnows(payload.status) ==> Webhook(s, payload, d).releases == s.releases
  {
    var projectID := d.project.value;
    var stages := ResolveStage(s.stages, projectID, WebhookSlug(payload), d.newStage, d.created).stages;
    var attached := Attached(pick, payload, d.now);
    StagesAreResolved(s, projectID, WebhookSlug(payload), d);
    r := FinishedOutcome(s.(stages := stages), attached, payload, d.now);
    assert Webhook(s, payload, d) == Finished(s.(stages := stages), attached, payload, d.now);
    if WebhookKnows(payload.status) {
      OutcomeFromBefore(s, s.(stages := stages), projectID, d, Webhook(s, payload, d), r, r, payload.status, payload.conclusion);
    }
  }

  /** The release that is made for a run, before the words are looked at. */
  ghost predicate IsMadeFor(r: Release, payload: Payload, d: Delivery, projectID: string) {
    r == Release(d.newRelease, projectID, r.stageID, payload.headSHA, payload.message, Pending, payload.runID, "", d.now, d.now)
  }

  lemma ReleaseIsMade(s: Records, payload: Payload, d: Delivery, projectID: string) returns (made: Release, s1: Records)
    requires LegalDelivery(s, payload, d) && (forall id :: id in s.releases ==> s.releases[id].runID != payload.runID)
    requires d.project == Some(projectID) && d.pick.None?
    ensures IsMadeFor(made, payload, d, projectID)
    ensures s1.releases == s.releases[made.id := made] && StagesResolved(s, s1.stages, projectID, d)
    ensures IsStageOf(s1.stages, made.stageID, projectID, WebhookSlug(payload))
    ensures Webhook(s, payload, d) == Finished(s1, made, payload, d.now)
  {
    var stage := ResolveStage(s.stages, projectID, WebhookSlug(payload), d.newStage, d.created);
    made := FromPayload(d.newRelease, projectID, stage.stageID, payload, d.now);
    s1 := Records(s.releases[made.id := made], stage.stages);
    StagesAreResolved(s, projectID, WebhookSlug(payload), d);
    ResolvedIsStageOf(s, projectID, WebhookSlug(payload), d);
  }

  /** A run that nobody carries or waits for gets a release in the stage of its slug. */
  lemma NewReleaseDelivered(s: Records, payload: Payload, d: Delivery, projectID: string) returns (r: Release)
    requires LegalDelivery(s, payload, d) && (forall id :: id in s.releases ==> s.releases[id].runID != payload.runID)
    requires d.project == Some(projectID) && d.pick.None?
    ensures IsStageOf(Webhook(s, payload, d).stages, r.stageID, projectID, WebhookSlug(payload))
    ensures WebhookKnows(payload.status) ==>
      && IsMadeFor(r.(status := Pending, imageTag := ""), payload, d, projectID) && r.imageTag == Given(payload.imageTag, "")
      && Outcome(s, Webhook(s, payload, d), r, payload.status, payload.conclusion)
    ensures !WebhookKnows(payload.status) ==>
      IsMadeFor(r, payload, d, projectID) && Webhook(s, payload, d).releases == s.releases[r.id := r]
  {
    var made, s1 := ReleaseIsMade(s, payload, d, projectID);
    r := FinishedOutcome(s1, made, payload, d.now);
    if WebhookKnows(payload.status) {
      OutcomeFromBefore(s, s1, projectID, d, Webhook(s, payload, d), r, made, payload.status, payload.conclusion);
    } else {
      r := made;
    }
  }

  /** This release is stored, and no other carries its run. */
  ghost predicate OnlyCarrier(releases: map<string, Release>, r: Release) {
    r.id in releases && releases[r.id] == r && forall id :: id in releases && releases[id].runID == r.runID ==> id == r.id
  }

  /**
   A delivery about a run that a release carries or a project owns, in words that are known: the run is on exactly one
   release afterwards, with the status that the words mean; its stage is active after a success, failed after a failure
   and as it was otherwise; no other release and no other stage changes.
   */
  lemma DeliveryOutcome(s: Records, payload: Payload, d: Delivery) returns (r: Release)
    requires Sound(s) && LegalDelivery(s, payload, d) && WebhookKnows(payload.status)
    requires d.project.Some? || exists id :: id in s.releases && s.releases[id].runID == payload.runID
    ensures r.runID == payload.runID && Outcome(s, Webhook(s, payload, d), r, payload.status, payload.conclusion)
    ensures OnlyCarrier(Webhook(s, payload, d).releases, r)
  {
    WebhookKeepsTidy(s, payload, d, s.releases.Keys);
    if id :| id in s.releases && s.releases[id].runID == payload.runID {
      r := KnownRunDelivered(s, payload, d, id);
    } else if d.pick.Some? {
      r := WaitingReleaseDelivered(s, payload, d, d.pick.value);
    } else {
      r := NewReleaseDelivered(s, payload, d, d.project.value);
    }
  }

  // ---------------------------------------------------------------- one run of a sync

  function TimeOf(run: WorkflowRun, now: int): int {
    if run.updatedAt.Some? then run.updatedAt.value else now
  }

  /** Words that a sync does not know change nothing. */
  lemma UnknownWordsSynced(at: Progress, projectID: string, slug: string, run: WorkflowRun, supply: Supply)
    ensures !SyncKnows(run.status) ==> SyncRun(at, projectID, slug, run, supply) == at
  {
    WordsOfSyncs(run);
  }

  /** A run that a release carries: nothing happens if the release has the status already, and else its status and time change. */
  lemma KnownRunSynced(at: Progress, projectID: string, slug: string, run: WorkflowRun, supply: Supply, id: string) returns (r: Release)
    requires Sound(at.records) && id in at.records.releases && at.records.releases[id].runID == run.id != UNBOUND && SyncKnows(run.status)
    ensures var was, at' := at.records.releases[id], SyncRun(at, projectID, slug, run, supply);
      if Reads(was.status, run.status, run.conclusion) then at' == at && r == was
      else && r == was.(status := r.status, updatedAt := TimeOf(run, supply.now)) && at'.pending == at.pending
           && Outcome(at.records, at'.records, r, run.status, run.conclusion)
  {
    RunIsFound(at.records, id);
    WordsOfSyncs(run);
    var was, status := at.records.releases[id], StatusOf(run).value;
    if was.status == status {
      r := was;
    } else {
      r := was.(status := status, updatedAt := TimeOf(run, supply.now));
      FollowedStages(at.records.stages, r);
      if Reads(was.status, run.status, run.conclusion) {
        WordsMeanOneThing(was.status, status, run.status, run.conclusion);
      }
    }
  }

  /** A run that nobody carries takes the placeholder as it was listed. */
  lemma PlaceholderSynced(at: Progress, projectID: string, slug: string, run: WorkflowRun, supply: Supply, copy: Release) returns (r: Release)
    requires SyncKnows(run.status) && at.pending == Some(copy)
    requires forall id :: id in at.records.releases ==> at.records.releases[id].runID != run.id
    ensures var waits := copy.commitMessage == "" || "Ожидает запуска деплоя из PR:" <= copy.commitMessage;
      r == copy.(runID := run.id, commitSHA := Given(run.headSHA, copy.commitSHA),
                 commitMessage := if waits then run.commitMessage else copy.commitMessage,
                 status := r.status, updatedAt := TimeOf(run, supply.now))
    ensures var at' := SyncRun(at, projectID, slug, run, supply);
      at'.pending.None? && Outcome(at.records, at'.records, r, run.status, run.conclusion)
  {
    WordsOfSyncs(run);
    r := Claimed(copy, run, StatusOf(run).value, supply.now);
    FollowedStages(at.records.stages, r);
  }

  /** And without a placeholder it gets a release in the stage of the slug. */
  lemma NewReleaseSynced(at: Progress, projectID: string, slug: string, run: WorkflowRun, supply: Supply) returns (r: Release)
    requires SyncKnows(run.status) && at.pending.None? && NewStageFits(at.records, projectID, supply)
    requires forall id :: id in at.records.releases ==> at.records.releases[id].runID != run.id
    ensures r == Release(supply.releaseFor(run.id), projectID, r.stageID, run.headSHA, run.commitMessage, r.status, run.id, "",
                         supply.now, supply.now)
    ensures var at' := SyncRun(at, projectID, slug, run, supply);
      && at'.pending.None? && IsStageOf(at'.records.stages, r.stageID, projectID, slug)
      && Outcome(at.records, at'.records, r, run.status, run.conclusion)
  {
    WordsOfSyncs(run);
    var s := at.records;
    var d := Delivery(None, None, "", supply.newStage, supply.created, supply.now);
    var stage := ResolveStage(s.stages, projectID, slug, supply.newStage, supply.created);
    r := Release(supply.releaseFor(run.id), projectID, stage.stageID, run.headSHA, run.commitMessage, StatusOf(run).value, run.id, "",
                 supply.now, supply.now);
    StagesAreResolved(s, projectID, slug, d);
    ResolvedIsStageOf(s, projectID, slug, d);
    FollowedStages(stage.stages, r);
    var s' := SyncRun(at, projectID, slug, run, supply).records;
    OutcomeFromBefore(s, s.(stages := stage.stages), projectID, d, s', r, r, run.status, run.conclusion);
  }

  /**
   A run in words that a sync knows: afterwards some release carries it, with the status that the words mean. Unless the
   release had that status before, its stage is active after a success and failed after a failure.
   */
  lemma RunOutcome(at: Progress, projectID: string, slug: string, run: WorkflowRun, supply: Supply) returns (r: Release)
    requires Sound(at.records) && NewStageFits(at.records, projectID, supply) && run.id != UNBOUND && SyncKnows(run.status)
    ensures var at' := SyncRun(at, projectID, slug, run, supply);
      && r.runID == run.id && r.id in at'.records.releases && at'.records.releases[r.id] == r && Reads(r.status, run.status, run.conclusion)
      && (at' == at || Outcome(at.records, at'.records, r, run.status, run.conclusion))
      && (at'.pending.Some? ==> at'.pending == at.pending && r.id in at.records.releases && at.records.releases[r.id].runID == run.id)
  {
    if id :| id in at.records.releases && at.records.releases[id].runID == run.id {
      r := KnownRunSynced(at, projectID, slug, run, supply, id);
    } else if at.pending.Some? {
      r := PlaceholderSynced(at, projectID, slug, run, supply, at.pending.value);
    } else {
      r := NewReleaseSynced(at, projectID, slug, run, supply);
    }
  }

  // ---------------------------------------------------------------- a stage of a sync

  lemma OneUntilTheClaim(at: Progress, projectID: string, slug: string, run: WorkflowRun, supply: Supply)
    requires Sound(at.records) && SyncRun(at, projectID, slug, run, supply).pending.Some?
    ensures var at' := SyncRun(at, projectID, slug, run, supply);
      && at'.pending == at.pending && at'.records.releases.Keys == at.records.releases.Keys
      && forall id :: id in at.records.releases ==> at'.records.releases[id].runID == at.records.releases[id].runID
  {
  }

  /** As long as the placeholder is not taken no release gets a run. */
  lemma {:induction false} UntilTheClaim(at: Progress, projectID: string, slug: string, runs: seq<WorkflowRun>, supply: Supply)
    requires Sound(at.records) && NewStageFits(at.records, projectID, supply) && BoundRuns(runs)
    requires SyncRuns(at, projectID, slug, runs, supply).pending.Some?
    ensures var at' := SyncRuns(at, projectID, slug, runs, supply);
      && at'.pending == at.pending && at'.records.releases.Keys == at.records.releases.Keys
      && forall id :: id in at.records.releases ==> at'.records.releases[id].runID == at.records.releases[id].runID
  {
    if runs != [] {
      var front, last := runs[..|runs| - 1], runs[|runs| - 1];
      var mid := SyncRuns(at, projectID, slug, front, supply);
      AnyRunsKeepSound(at, projectID, slug, front, supply);
      OneUntilTheClaim(mid, projectID, slug, last, supply);
      UntilTheClaim(at, projectID, slug, front, supply);
    }
  }

  /** The release and all stages are as they were. */
  ghost predicate LeftAlone(s: Records, s': Records, id: string)
    requires id in s.releases
  {
    id in s'.releases && s'.releases[id] == s.releases[id] && forall k :: k in s.stages ==> k in s'.stages && s'.stages[k] == s.stages[k]
  }

  /** The release carries another run, and is not the placeholder. */
  ghost predicate IsElsewhere(at: Progress, id: string, runID: int) {
    && id in at.records.releases && at.records.releases[id].runID !in {runID, UNBOUND}
    && (at.pending.Some? ==> at.pending.value.id != id)
  }

  lemma OutcomeElsewhere(s: Records, s': Records, r: Release, said: string, conclusion: string, id: string)
    requires Outcome(s, s', r, said, conclusion) && id in s.releases && id != r.id && said != "completed"
    ensures LeftAlone(s, s', id)
  {
  }

  lemma RunElsewhere(at: Progress, projectID: string, slug: string, run: WorkflowRun, supply: Supply, id: string)
    requires Sound(at.records) && SupplyFits(at.records, projectID, supply) && run.id != UNBOUND
    requires IsElsewhere(at, id, run.id) && run.status != "completed"
    ensures var at' := SyncRun(at, projectID, slug, run, supply);
      LeftAlone(at.records, at'.records, id) && (at'.pending == at.pending || at'.pending == None)
  {
    if !SyncKnows(run.status) {
      UnknownWordsSynced(at, projectID, slug, run, supply);
    } else {
      var s' := SyncRun(at, projectID, slug, run, supply).records;
      var r: Release;
      if k :| k in at.records.releases && at.records.releases[k].runID == run.id {
        r := KnownRunSynced(at, projectID, slug, run, supply, k);
      } else if at.pending.Some? {
        r := PlaceholderSynced(at, projectID, slug, run, supply, at.pending.value);
      } else {
        r := NewReleaseSynced(at, projectID, slug, run, supply);
      }
      if s' != at.records {
        OutcomeElsewhere(at.records, s', r, run.status, run.conclusion, id);
      }
    }
  }

  ghost predicate AllElsewhere(at: Progress, id: string, runs: seq<WorkflowRun>) {
    forall i :: 0 <= i < |runs| ==> runs[i].status != "completed" && IsElsewhere(at, id, runs[i].id)
  }

  lemma {:induction false} RunsElsewhere(at: Progress, projectID: string, slug: string, runs: seq<WorkflowRun>, supply: Supply, id: string)
    requires Sound(at.records) && SupplyFits(at.records, projectID, supply) && BoundRuns(runs)
    requires Copied(at.records, at.pending) && Spared(supply, at.pending)
    requires id in at.records.releases
    requires AllElsewhere(at, id, runs)
    ensures LeftAlone(at.records, SyncRuns(at, projectID, slug, runs, supply).records, id)
  {
    if runs != [] {
      var front, last := runs[..|runs| - 1], runs[|runs| - 1];
      assert forall i :: 0 <= i < |front| ==> front[i] == runs[i];
      assert IsElsewhere(at, id, runs[|runs| - 1].id);
      RunsElsewhere(at, projectID, slug, front, supply, id);
      AnyRunsInOrder(at, projectID, slug, front, supply);
      RunElsewhere(SyncRuns(at, projectID, slug, front, supply), projectID, slug, last, supply, id);
    }
  }

  /** No release carries the run with this status yet. */
  ghost predicate IsNews(releases: map<string, Release>, run: WorkflowRun) {
    forall id :: id in releases && releases[id].runID == run.id ==> !Reads(releases[id].status, run.status, run.conclusion)
  }

  /** The runs before it say nothing about a run. */
  lemma NewsLasts(s: Records, pending: Option<Release>, projectID: string, slug: string, runs: seq<WorkflowRun>, supply: Supply, a: nat)
    requires Sound(s) && SupplyFits(s, projectID, supply) && BoundRuns(runs) && Copied(s, pending) && Spared(supply, pending)
    requires DistinctRuns(runs) && a < |runs| && IsNews(s.releases, runs[a]) && Carried(s, pending) != runs[a].id
    ensures IsNews(StageAt(s, pending, projectID, slug, runs[..a], supply).releases, runs[a])
  {
    var s' := StageAt(s, pending, projectID, slug, runs[..a], supply);
    AnyRunsInOrder(Progress(s, pending), projectID, slug, runs[..a], supply);
    StageStatuses(s, pending, projectID, slug, runs[..a], supply, runs[a].id);
    MappedRunsAreListed(runs[..a], runs[a].id);
    forall id | id in s'.releases && s'.releases[id].runID == runs[a].id
      ensures !Reads(s'.releases[id].status, runs[a].status, runs[a].conclusion)
    {
      RunIsFound(s', id);
      assert StatusOfRun(s'.releases, runs[a].id) == StatusOfRun(s.releases, runs[a].id);
    }
  }

  /** The turn of one run: what is still waiting afterwards is another release. */
  lemma TurnOutcome(s: Records, pending: Option<Release>, projectID: string, slug: string, runs: seq<WorkflowRun>, supply: Supply, a: nat)
    returns (r: Release, at: Progress)
    requires Sound(s) && Placed(s) && SupplyFits(s, projectID, supply) && BoundRuns(runs) && Copied(s, pending) && Spared(supply, pending)
    requires DistinctRuns(runs) && a < |runs| && SyncKnows(runs[a].status)
    requires IsNews(s.releases, runs[a]) && Carried(s, pending) != runs[a].id
    ensures at == SyncRuns(Progress(s, pending), projectID, slug, runs[..a + 1], supply)
    ensures InOrder(s, at.records, projectID, supply) && Placed(at.records) && Copied(at.records, at.pending) && Spared(supply, at.pending)
    ensures r.runID == runs[a].id && r.id in at.records.releases && at.records.releases[r.id] == r
    ensures Reads(r.status, runs[a].status, runs[a].conclusion) && StageShows(at.records.stages, r)
    ensures at.pending.Some? ==> at.pending.value.id != r.id
  {
    var start := Progress(s, pending);
    var mid := SyncRuns(start, projectID, slug, runs[..a], supply);
    assert runs[..a + 1][..a] == runs[..a];
    at := SyncRuns(start, projectID, slug, runs[..a + 1], supply);
    NewsLasts(s, pending, projectID, slug, runs, supply, a);
    AnyRunsInOrder(start, projectID, slug, runs[..a], supply);
    AnyRunsInOrder(start, projectID, slug, runs[..a + 1], supply);
    RunsPlaced(start, projectID, slug, runs[..a + 1], supply);
    CopyLasts(s, at.records, pending);
    r := RunOutcome(mid, projectID, slug, runs[a], supply);
    if at.pending.Some? {
      UntilTheClaim(start, projectID, slug, runs[..a], supply);
    }
  }

  lemma LaterRunsAreElsewhere(at: Progress, runs: seq<WorkflowRun>, a: nat, id: string)
    requires a < |runs| && DistinctRuns(runs) && runs[a].id != UNBOUND && forall b :: a < b < |runs| ==> runs[b].status != "completed"
    requires id in at.records.releases && at.records.releases[id].runID == runs[a].id && (at.pending.Some? ==> at.pending.value.id != id)
    ensures AllElsewhere(at, id, runs[a + 1..])
  {
  }

  /** What the later runs of the stage leave of the release and its stage. */
  lemma StillShown(at: Progress, projectID: string, slug: string, rest: seq<WorkflowRun>, supply: Supply, r: Release)
    requires Sound(at.records) && Placed(at.records) && SupplyFits(at.records, projectID, supply) && BoundRuns(rest)
    requires Copied(at.records, at.pending) && Spared(supply, at.pending) && AllElsewhere(at, r.id, rest)
    requires r.id in at.records.releases && at.records.releases[r.id] == r && StageShows(at.records.stages, r)
    ensures var s' := SyncRuns(at, projectID, slug, rest, supply).records;
      r.id in s'.releases && s'.releases[r.id] == r && StageShows(s'.stages, r)
  {
    RunsElsewhere(at, projectID, slug, rest, supply, r.id);
    assert InItsProject(at.records.stages, at.records.releases[r.id]);
  }

  lemma StageInTwo(at: Progress, projectID: string, slug: string, runs: seq<WorkflowRun>, supply: Supply, k: nat)
    requires k <= |runs| && BoundRuns(runs)
    ensures SyncRuns(at, projectID, slug, runs, supply)
         == SyncRuns(SyncRuns(at, projectID, slug, runs[..k], supply), projectID, slug, runs[k..], supply)
    ensures BoundRuns(runs[k..])
  {
    RunsSplit(at, projectID, slug, runs[..k], runs[k..], supply);
    assert runs[..k] + runs[k..] == runs;
  }

  /**
   A stage of a sync that is handed news of a run: the run's release has the status that the words mean, and its stage
   shows it, if no later run of the stage is completed. The sync's copy may be old, but not overtaken by that very run.
   */
  lemma StageShowsTheLastWord(
    s: Records, pending: Option<Release>, projectID: string, slug: string, runs: seq<WorkflowRun>, supply: Supply, a: nat) returns (r: Release)
    requires Sound(s) && Placed(s) && SupplyFits(s, projectID, supply) && BoundRuns(runs) && Copied(s, pending) && Spared(supply, pending)
    requires DistinctRuns(runs) && a < |runs| && SyncKnows(runs[a].status)
    requires IsNews(s.releases, runs[a]) && Carried(s, pending) != runs[a].id
    requires forall b :: a < b < |runs| ==> runs[b].status != "completed"
    ensures var s' := StageAt(s, pending, projectID, slug, runs, supply);
      && r.runID == runs[a].id && r.id in s'.releases && s'.releases[r.id] == r
      && Reads(r.status, runs[a].status, runs[a].conclusion) && StageShows(s'.stages, r)
  {
    var at;
    r, at := TurnOutcome(s, pending, projectID, slug, runs, supply, a);
    var rest := runs[a + 1..];
    LaterRunsAreElsewhere(at, runs, a, r.id);
    StageInTwo(Progress(s, pending), projectID, slug, runs, supply, a + 1);
    StillShown(at, projectID, slug, rest, supply, r);
  }

  // ---------------------------------------------------------------- every reachable state

  lemma OneCarrier(releases: map<string, Release>, runID: int, status: ReleaseStatus) returns (r: Release)
    requires BoundToOne(releases, runID, status) && forall id :: id in releases ==> releases[id].id == id
    ensures OnlyCarrier(releases, r) && r.runID == runID && r.status == status
  {
    var id :| id in releases && releases[id].runID == runID && releases[id].status == status
              && forall other :: other in releases && releases[other].runID == runID ==> other == id;
    r := releases[id];
  }

  /**
   In any reachable state a run that GitHub shows to a stage of a sync ends on exactly one release, with the status that
   the words mean, unless it was bound to the stage's placeholder since the listing. If the words are news and no later
   run of the stage is completed, the stage of that release is active after a success and failed after a failure.
   */
  lemma {:induction false} ShownRunOutcome(steps: seq<Step>, sync: nat, slug: string, feed: seq<FeedRun>, supply: Supply, a: nat) returns (r: Release)
    requires IsStage(steps, sync, slug, feed, supply)
    requires var h := After(steps); var runs := ShownTo(h, sync, slug, feed);
      a < |runs| && SyncKnows(runs[a].status) && Carried(h.records, CopyOf(h, sync, slug)) != runs[a].id
    ensures var h := After(steps); var runs := ShownTo(h, sync, slug, feed);
      var s' := Apply(h, StageSynced(sync, slug, runs, supply)).records;
      && OnlyCarrier(s'.releases, r) && r.runID == runs[a].id && Reads(r.status, runs[a].status, runs[a].conclusion)
      && (IsNews(h.records.releases, runs[a]) && (forall b :: a < b < |runs| ==> runs[b].status != "completed") ==> StageShows(s'.stages, r))
  {
    var h := After(steps);
    var runs := ShownTo(h, sync, slug, feed);
    WordsOfSyncs(runs[a]);
    StageIsAStep(steps, sync, slug, feed, supply);
    StageIsProper(h, sync, slug, runs, supply);
    StageBindsTheFeedIff(steps, sync, slug, feed, supply, a);
    StepKeepsTidyRecords(h, StageSynced(sync, slug, runs, supply));
    r := OneCarrier(Apply(h, StageSynced(sync, slug, runs, supply)).records.releases, runs[a].id, StatusOf(runs[a]).value);
    if IsNews(h.records.releases, runs[a]) && forall b :: a < b < |runs| ==> runs[b].status != "completed" {
      var shown := StageShowsTheLastWord(h.records, CopyOf(h, sync, slug), h.syncs[sync].projectID, slug, runs, supply, a);
    }
  }

  /** A sync that nothing interrupts does so for every run that GitHub shows for a stage, without exception. */
  lemma SyncOutcome(
    steps: seq<Step>, projectID: string, listing: seq<Release>, order: seq<string>, feed: seq<FeedRun>, supply: Supply,
    slug: string, run: WorkflowRun)
    returns (r: Release)
    requires IsSync(steps, projectID, listing, order, feed, supply)
    requires ShownFor(After(steps).records, listing, feed, slug, run) && SyncKnows(run.status)
    ensures var s := After(steps).records; var s' := SyncJobs(s, projectID, SyncJobsOf(s, listing, order, feed), supply);
      OnlyCarrier(s'.releases, r) && r.runID == run.id && Reads(r.status, run.status, run.conclusion)
  {
    var s := After(steps).records;
    var jobs := SyncJobsOf(s, listing, order, feed);
    WordsOfSyncs(run);
    SyncBindsTheFeed(steps, projectID, listing, order, feed, supply);
    SyncIsProper(steps, projectID, listing, order, feed, supply);
    SyncAllJobs(s, projectID, jobs, supply);
    r := OneCarrier(SyncJobs(s, projectID, jobs, supply).releases, run.id, StatusOf(run).value);
  }

  // ---------------------------------------------------------------- both paths

  /** A run that has been delivered, and is then shown to a sync in the same words: the sync changes nothing, and keeps its placeholder. */
  lemma ShownAgain(
    s: Records, payload: Payload, d: Delivery, pending: Option<Release>, projectID: string, slug: string, run: WorkflowRun, supply: Supply)
    requires Sound(s) && LegalDelivery(s, payload, d) && WebhookKnows(payload.status)
    requires d.project.Some? || exists id :: id in s.releases && s.releases[id].runID == payload.runID
    requires run.id == payload.runID && run.status == payload.status && run.conclusion == payload.conclusion
    ensures var at := Progress(Webhook(s, payload, d), pending); SyncRun(at, projectID, slug, run, supply) == at
  {
    WebhookKeepsTidy(s, payload, d, s.releases.Keys);
    var r := DeliveryOutcome(s, payload, d);
    var r' := KnownRunSynced(Progress(Webhook(s, payload, d), pending), projectID, slug, run, supply, r.id);
  }

  lemma StageOfOne(s: Records, pending: Option<Release>, projectID: string, slug: string, run: WorkflowRun, supply: Supply)
    requires SyncRun(Progress(s, pending), projectID, slug, run, supply) == Progress(s, pending)
    ensures StageAt(s, pending, projectID, slug, [run], supply) == s
  {
    var at, runs := Progress(s, pending), [run];
    assert runs[..|runs| - 1] == [] && SyncRuns(at, projectID, slug, [], supply) == at;
  }

  lemma StageWithoutEffect(h: History, sync: nat, slug: string, run: WorkflowRun, supply: Supply)
    requires IsWaiting(h, sync, slug) ==>
      var at := Progress(h.records, CopyOf(h, sync, slug)); SyncRun(at, h.syncs[sync].projectID, slug, run, supply) == at
    ensures Apply(h, StageSynced(sync, slug, [run], supply)).records == h.records
  {
    if IsWaiting(h, sync, slug) {
      StageOfOne(h.records, CopyOf(h, sync, slug), h.syncs[sync].projectID, slug, run, supply);
    }
  }

  /** The two paths agree: in any reachable state a stage that is handed a delivered run in the same words leaves all records as they are. */
  lemma {:induction false} PathsAgree(steps: seq<Step>, payload: Payload, d: Delivery, sync: nat, slug: string, run: WorkflowRun, supply: Supply)
    requires LegalRun(steps) && Legal(After(steps), WebhookArrives(payload, d)) && WebhookKnows(payload.status)
    requires d.project.Some? || exists id :: id in After(steps).records.releases && After(steps).records.releases[id].runID == payload.runID
    requires run.id == payload.runID && run.status == payload.status && run.conclusion == payload.conclusion
    ensures var h := Apply(After(steps), WebhookArrives(payload, d));
      Apply(h, StageSynced(sync, slug, [run], supply)).records == h.records
  {
    RunIsTidy(steps);
    var h := Apply(After(steps), WebhookArrives(payload, d));
    if IsWaiting(h, sync, slug) {
      ShownAgain(After(steps).records, payload, d, CopyOf(h, sync, slug), h.syncs[sync].projectID, slug, run, supply);
    }
    StageWithoutEffect(h, sync, slug, run, supply);
  }
}
