/** What webhooks, syncs and rollbacks keep of release records, whichever state they find and however old a sync's copy is. */
module ReleaseEffects {
  import opened Wrappers
  import opened Releases
  import opened ReleaseRuns
  import Names

  // ---------------------------------------------------------------- what lasts

  predicate SamePlace(r: Release, r': Release) {
    r'.id == r.id && r'.projectID == r.projectID && r'.stageID == r.stageID && r'.createdAt == r.createdAt
  }

  /** A release stays in its project and stage, and whoever changes it leaves a run bound to it. */
  predicate Enduring(r: Release, r': Release) {
    SamePlace(r, r') && (r' == r || r'.runID != UNBOUND)
  }

  /** And once a run is bound to it no other run is. */
  predicate Lasting(r: Release, r': Release) {
    Enduring(r, r') && (r.runID != UNBOUND ==> r'.runID == r.runID)
  }

  ghost predicate StagesEndure(stages: map<string, Stage>, stages': map<string, Stage>) {
    forall id :: id in stages ==> id in stages' && stages'[id].projectID == stages[id].projectID && stages'[id].slug == stages[id].slug
  }

  ghost predicate Endures(s: Records, s': Records) {
    && (forall id :: id in s.releases ==> id in s'.releases && Enduring(s.releases[id], s'.releases[id]))
    && StagesEndure(s.stages, s'.stages)
  }

  ghost predicate Persists(s: Records, s': Records) {
    && (forall id :: id in s.releases ==> id in s'.releases && Lasting(s.releases[id], s'.releases[id]))
    && StagesEndure(s.stages, s'.stages)
  }

  /** No run is bound twice, and whoever still waits for a run was created by a bootstrap. */
  ghost predicate TidyRecords(s: Records, placeholders: set<string>) {
    Sound(s) && forall id :: id in s.releases && IsOpen(s.releases[id]) ==> id in placeholders
  }

  /** Whoever waits afterwards waited before. */
  ghost predicate NobodyNewWaits(s: Records, s': Records) {
    forall id :: id in s'.releases && IsOpen(s'.releases[id]) ==> id in s.releases && IsOpen(s.releases[id])
  }

  lemma PersistsOn(a: Records, b: Records, c: Records)
    requires Persists(a, b) && Persists(b, c)
    ensures Persists(a, c)
  {
    forall id | id in a.releases
      ensures id in c.releases && Lasting(a.releases[id], c.releases[id])
    {
      assert Lasting(a.releases[id], b.releases[id]);
    }
  }

  lemma EnduresOn(a: Records, b: Records, c: Records)
    requires Endures(a, b) && Endures(b, c)
    ensures Endures(a, c)
  {
    forall id | id in a.releases
      ensures id in c.releases && Enduring(a.releases[id], c.releases[id])
    {
      assert Enduring(a.releases[id], b.releases[id]);
    }
  }

  lemma PersistsEndures(s: Records, s': Records)
    requires Persists(s, s')
    ensures Endures(s, s')
  {
    forall id | id in s.releases
      ensures id in s'.releases && Enduring(s.releases[id], s'.releases[id])
    {
      assert Lasting(s.releases[id], s'.releases[id]);
    }
  }

  lemma StorePersists(s: Records, r: Release)
    requires r.id in s.releases ==> Lasting(s.releases[r.id], r)
    ensures Persists(s, Stored(s, r))
  {
    StoreKeepsStageNames(s, r);
  }

  lemma StoreEndures(s: Records, r: Release)
    requires r.runID != UNBOUND && (r.id in s.releases ==> SamePlace(s.releases[r.id], r))
    ensures Endures(s, Stored(s, r)) && NobodyNewWaits(s, Stored(s, r))
  {
    StoreKeepsStageNames(s, r);
  }

  lemma StagesLetNobodyWait(s: Records, projectID: string, slug: string, newID: string, created: bool)
    requires Sound(s) && (newID in s.stages ==> s.stages[newID].projectID == projectID && s.stages[newID].slug == "production")
    ensures var s1 := s.(stages := ResolveStage(s.stages, projectID, slug, newID, created).stages);
      s1.releases == s.releases && Persists(s, s1)
  {
    ResolvedStagesStaySound(s.stages, projectID, slug, newID, created);
  }

  // ---------------------------------------------------------------- webhooks last

  lemma FinishedPersists(s: Records, release: Release, payload: Payload, now: int)
    requires release.id in s.releases ==> Lasting(s.releases[release.id], release)
    requires release.runID != UNBOUND
    ensures Persists(s, Finished(s, release, payload, now))
  {
    var status := WebhookStatus(payload.status, payload.conclusion);
    if status.Some? {
      StorePersists(s, release.(status := status.value, imageTag := OrElse(payload.imageTag, release.imageTag), updatedAt := now));
    }
  }

  lemma WebhookPersists(s: Records, payload: Payload, d: Delivery)
    requires Sound(s) && LegalDelivery(s, payload, d)
    ensures Persists(s, Webhook(s, payload, d))
  {
    match FindRun(s.releases, payload.runID)
    case Some(id) => FinishedPersists(s, s.releases[id], payload, d.now);
    case None =>
      if d.project.Some? {
        UnseenRunPersists(s, d.project.value, payload, d);
      }
  }

  lemma UnseenRunPersists(s: Records, projectID: string, payload: Payload, d: Delivery)
    requires Sound(s) && LegalDelivery(s, payload, d)
    requires FindRun(s.releases, payload.runID).None? && d.project == Some(projectID)
    ensures Persists(s, Webhook(s, payload, d))
  {
    var stage := ResolveStage(s.stages, projectID, WebhookSlug(payload), d.newStage, d.created);
    var s1 := s.(stages := stage.stages);
    StagesLetNobodyWait(s, projectID, WebhookSlug(payload), d.newStage, d.created);
    match d.pick
    case Some(pending) => AttachedPersists(s, s1, pending, payload, d.now);
    case None => CreatedPersists(s, s1, FromPayload(d.newRelease, projectID, stage.stageID, payload, d.now), payload, d.now);
  }

  lemma AttachedPersists(s: Records, s1: Records, pending: Release, payload: Payload, now: int)
    requires Persists(s, s1) && payload.runID != UNBOUND
    requires pending.id in s1.releases && s1.releases[pending.id] == pending && pending.runID == UNBOUND
    ensures Persists(s, Finished(s1, Attached(pending, payload, now), payload, now))
  {
    FinishedPersists(s1, Attached(pending, payload, now), payload, now);
    PersistsOn(s, s1, Finished(s1, Attached(pending, payload, now), payload, now));
  }

  lemma CreatedPersists(s: Records, s1: Records, r: Release, payload: Payload, now: int)
    requires Persists(s, s1) && r.id !in s1.releases && r.runID != UNBOUND
    ensures Persists(s, Finished(s1.(releases := s1.releases[r.id := r]), r, payload, now))
  {
    var s2 := s1.(releases := s1.releases[r.id := r]);
    FinishedPersists(s2, r, payload, now);
    PersistsOn(s, s1, s2);
    PersistsOn(s, s2, Finished(s2, r, payload, now));
  }

  // ---------------------------------------------------------------- the copies of a sync

  /**
   A sync works on the placeholder as it was listed. The copy is in its place still; as long as the stored record has
   no run the copy is current, and it has been overtaken once a run is bound to the record.
   */
  ghost predicate Copied(s: Records, pending: Option<Release>) {
    pending.Some? ==>
      && pending.value.id in s.releases && SamePlace(s.releases[pending.value.id], pending.value) && pending.value.runID == UNBOUND
      && (s.releases[pending.value.id].runID == UNBOUND ==> s.releases[pending.value.id] == pending.value)
  }

  /** No id is drawn for a run that is the id of the copy. */
  ghost predicate Spared(supply: Supply, pending: Option<Release>) {
    pending.Some? ==> forall x: int :: supply.releaseFor(x) != pending.value.id
  }

  lemma CopyLasts(s: Records, s': Records, pending: Option<Release>)
    requires Copied(s, pending) && Endures(s, s')
    ensures Copied(s', pending)
  {
    if pending.Some? {
      assert Enduring(s.releases[pending.value.id], s'.releases[pending.value.id]);
    }
  }

  /** Writing a run that nobody carries keeps runs unique, even over a record that carries another one. */
  lemma OverwriteKeepsSound(s: Records, r: Release)
    requires Sound(s) && r.runID != UNBOUND && FindRun(s.releases, r.runID).None?
    ensures Sound(Stored(s, r))
  {
    StagesStayKeyed(s.stages, r);
  }

  lemma OverwriteKeepsSupply(s: Records, r: Release, projectID: string, supply: Supply)
    requires SupplyFits(s, projectID, supply) && Spared(supply, Some(r))
    ensures SupplyFits(Stored(s, r), projectID, supply)
  {
    StoreKeepsStageNames(s, r);
  }

  /** What one run leaves in order, however old the copy. */
  ghost predicate InOrder(s: Records, s': Records, projectID: string, supply: Supply) {
    Sound(s') && SupplyFits(s', projectID, supply) && Endures(s, s') && NobodyNewWaits(s, s')
  }

  lemma KnownRunInOrder(s: Records, id: string, projectID: string, r: Release, supply: Supply)
    requires Sound(s) && SupplyFits(s, projectID, supply) && id in s.releases && r.id == id
    requires r.runID == s.releases[id].runID != UNBOUND && SamePlace(s.releases[id], r)
    ensures InOrder(s, Stored(s, r), projectID, supply)
  {
    StoreEndures(s, r);
    StoreRun(s, r, projectID, supply);
  }

  lemma ClaimInOrder(s: Records, projectID: string, copy: Release, r: Release, supply: Supply)
    requires Sound(s) && SupplyFits(s, projectID, supply) && Copied(s, Some(copy)) && Spared(supply, Some(copy))
    requires SamePlace(copy, r) && r.runID != UNBOUND && FindRun(s.releases, r.runID).None?
    ensures InOrder(s, Stored(s, r), projectID, supply)
  {
    OverwriteKeepsSound(s, r);
    OverwriteKeepsSupply(s, r, projectID, supply);
    StoreEndures(s, r);
  }

  lemma NewRunInOrder(s: Records, s1: Records, projectID: string, r: Release, supply: Supply)
    requires Sound(s1) && SupplyFits(s1, projectID, supply) && s1.releases == s.releases && Persists(s, s1)
    requires r.runID != UNBOUND && FindRun(s.releases, r.runID).None? && r.id == supply.releaseFor(r.runID)
    ensures r.id !in s.releases && InOrder(s, Stored(s1, r), projectID, supply)
  {
    StoreRun(s1, r, projectID, supply);
    StoreEndures(s1, r);
    PersistsEndures(s, s1);
    EnduresOn(s, s1, Stored(s1, r));
  }

  lemma AnyRunInOrder(at: Progress, projectID: string, slug: string, run: WorkflowRun, supply: Supply)
    requires Sound(at.records) && SupplyFits(at.records, projectID, supply) && run.id != UNBOUND
    requires Copied(at.records, at.pending) && Spared(supply, at.pending)
    ensures var at' := SyncRun(at, projectID, slug, run, supply);
      InOrder(at.records, at'.records, projectID, supply) && (at'.pending == at.pending || at'.pending == None)
  {
    var Progress(s, pending) := at;
    var status := StatusOf(run);
    if status.Some? {
      match FindRun(s.releases, run.id)
      case Some(id) =>
        KnownRunInOrder(s, id, projectID, s.releases[id].(status := status.value,
                                                          updatedAt := if run.updatedAt.Some? then run.updatedAt.value else supply.now), supply);
      case None =>
        match pending
        case Some(copy) => ClaimInOrder(s, projectID, copy, Claimed(copy, run, status.value, supply.now), supply);
        case None =>
          var stage := ResolveStage(s.stages, projectID, slug, supply.newStage, supply.created);
          StagesKeepSupply(s, projectID, slug, supply);
          StagesLetNobodyWait(s, projectID, slug, supply.newStage, supply.created);
          NewRunInOrder(s, s.(stages := stage.stages), projectID,
                        Release(supply.releaseFor(run.id), projectID, stage.stageID, run.headSHA, run.commitMessage, status.value,
                                run.id, "", supply.now, supply.now), supply);
    }
  }

  lemma InOrderOn(a: Records, b: Records, c: Records, projectID: string, supply: Supply)
    requires InOrder(a, b, projectID, supply) && InOrder(b, c, projectID, supply)
    ensures InOrder(a, c, projectID, supply)
  {
    EnduresOn(a, b, c);
  }

  lemma NothingInOrder(s: Records, projectID: string, supply: Supply)
    requires Sound(s) && SupplyFits(s, projectID, supply)
    ensures InOrder(s, s, projectID, supply)
  {
  }

  /** The runs of one stage, on a copy that may have been overtaken. */
  lemma {:induction false} AnyRunsInOrder(at: Progress, projectID: string, slug: string, runs: seq<WorkflowRun>, supply: Supply)
    requires Sound(at.records) && SupplyFits(at.records, projectID, supply) && BoundRuns(runs)
    requires Copied(at.records, at.pending) && Spared(supply, at.pending)
    ensures var at' := SyncRuns(at, projectID, slug, runs, supply);
      InOrder(at.records, at'.records, projectID, supply) && (at'.pending == at.pending || at'.pending == None)
  {
    if runs == [] {
      NothingInOrder(at.records, projectID, supply);
    } else {
      var front := runs[..|runs| - 1];
      AnyRunsInOrder(at, projectID, slug, front, supply);
      var mid := SyncRuns(at, projectID, slug, front, supply);
      CopyLasts(at.records, mid.records, at.pending);
      AnyRunInOrder(mid, projectID, slug, runs[|runs| - 1], supply);
      InOrderOn(at.records, mid.records, SyncRun(mid, projectID, slug, runs[|runs| - 1], supply).records, projectID, supply);
    }
  }

  // ---------------------------------------------------------------- syncs of anything keep runs unique

  lemma NewStageStillFits(s: Records, r: Release, projectID: string, supply: Supply)
    requires NewStageFits(s, projectID, supply)
    ensures NewStageFits(Stored(s, r), projectID, supply)
  {
    StoreKeepsStageNames(s, r);
  }

  /** Whatever the sync takes for the placeholder. */
  lemma AnyRunKeepsSound(at: Progress, projectID: string, slug: string, run: WorkflowRun, supply: Supply)
    requires Sound(at.records) && NewStageFits(at.records, projectID, supply) && run.id != UNBOUND
    ensures var s' := SyncRun(at, projectID, slug, run, supply).records; Sound(s') && NewStageFits(s', projectID, supply)
  {
    var Progress(s, pending) := at;
    var status := StatusOf(run);
    if status.Some? {
      match FindRun(s.releases, run.id)
      case Some(id) =>
        var r := s.releases[id].(status := status.value, updatedAt := if run.updatedAt.Some? then run.updatedAt.value else supply.now);
        StoreKeepsSound(s, r);
        NewStageStillFits(s, r, projectID, supply);
      case None =>
        match pending
        case Some(copy) =>
          OverwriteKeepsSound(s, Claimed(copy, run, status.value, supply.now));
          NewStageStillFits(s, Claimed(copy, run, status.value, supply.now), projectID, supply);
        case None =>
          var stage := ResolveStage(s.stages, projectID, slug, supply.newStage, supply.created);
          ResolvedStagesStaySound(s.stages, projectID, slug, supply.newStage, supply.created);
          var r := Release(supply.releaseFor(run.id), projectID, stage.stageID, run.headSHA, run.commitMessage, status.value,
                           run.id, "", supply.now, supply.now);
          OverwriteKeepsSound(s.(stages := stage.stages), r);
          NewStageStillFits(s.(stages := stage.stages), r, projectID, supply);
    }
  }

  lemma {:induction false} AnyRunsKeepSound(at: Progress, projectID: string, slug: string, runs: seq<WorkflowRun>, supply: Supply)
    requires Sound(at.records) && NewStageFits(at.records, projectID, supply) && BoundRuns(runs)
    ensures var s' := SyncRuns(at, projectID, slug, runs, supply).records; Sound(s') && NewStageFits(s', projectID, supply)
  {
    if runs != [] {
      AnyRunsKeepSound(at, projectID, slug, runs[..|runs| - 1], supply);
      AnyRunKeepsSound(SyncRuns(at, projectID, slug, runs[..|runs| - 1], supply), projectID, slug, runs[|runs| - 1], supply);
    }
  }

  lemma {:induction false} AnyJobsKeepSound(s: Records, projectID: string, jobs: seq<Job>, supply: Supply)
    requires Sound(s) && NewStageFits(s, projectID, supply) && forall i :: 0 <= i < |jobs| ==> BoundRuns(jobs[i].runs)
    ensures var s' := SyncJobs(s, projectID, jobs, supply); Sound(s') && NewStageFits(s', projectID, supply)
  {
    if jobs != [] {
      var front, job := jobs[..|jobs| - 1], jobs[|jobs| - 1];
      assert forall i :: 0 <= i < |front| ==> front[i] == jobs[i];
      AnyJobsKeepSound(s, projectID, front, supply);
      AnyRunsKeepSound(Progress(SyncJobs(s, projectID, front, supply), job.pending), projectID, job.slug, job.runs, supply);
    }
  }

  // ---------------------------------------------------------------- syncs with current copies last

  lemma CurrentIsCopied(s: Records, pending: Option<Release>)
    requires Sound(s) && Fits(s, pending)
    ensures Copied(s, pending)
  {
  }

  lemma NewRunPersists(s: Records, projectID: string, slug: string, r: Release, supply: Supply)
    requires Sound(s) && SupplyFits(s, projectID, supply) && r.runID != UNBOUND && r.id !in s.releases
    ensures Persists(s, Stored(s.(stages := ResolveStage(s.stages, projectID, slug, supply.newStage, supply.created).stages), r))
  {
    var s1 := s.(stages := ResolveStage(s.stages, projectID, slug, supply.newStage, supply.created).stages);
    StagesLetNobodyWait(s, projectID, slug, supply.newStage, supply.created);
    StorePersists(s1, r);
    PersistsOn(s, s1, Stored(s1, r));
  }

  lemma RunPersists(at: Progress, projectID: string, slug: string, run: WorkflowRun, supply: Supply)
    requires Sound(at.records) && Fits(at.records, at.pending) && SupplyFits(at.records, projectID, supply) && run.id != UNBOUND
    ensures Persists(at.records, SyncRun(at, projectID, slug, run, supply).records)
  {
    var Progress(s, pending) := at;
    var status := StatusOf(run);
    if status.Some? {
      match FindRun(s.releases, run.id)
      case Some(id) =>
        StorePersists(s, s.releases[id].(status := status.value, updatedAt := if run.updatedAt.Some? then run.updatedAt.value else supply.now));
      case None =>
        match pending
        case Some(candidate) => StorePersists(s, Claimed(candidate, run, status.value, supply.now));
        case None =>
          var stageID := ResolveStage(s.stages, projectID, slug, supply.newStage, supply.created).stageID;
          assert supply.releaseFor(run.id) !in s.releases;
          NewRunPersists(s, projectID, slug, Release(supply.releaseFor(run.id), projectID, stageID, run.headSHA, run.commitMessage,
                                                     status.value, run.id, "", supply.now, supply.now), supply);
    }
  }

  lemma {:induction false} RunsPersist(at: Progress, projectID: string, slug: string, runs: seq<WorkflowRun>, supply: Supply)
    requires Sound(at.records) && Fits(at.records, at.pending) && SupplyFits(at.records, projectID, supply) && BoundRuns(runs)
    ensures Persists(at.records, SyncRuns(at, projectID, slug, runs, supply).records)
  {
    if runs != [] {
      var front := runs[..|runs| - 1];
      var mid := SyncRuns(at, projectID, slug, front, supply);
      RunsPersist(at, projectID, slug, front, supply);
      StageRuns(at, projectID, slug, front, supply);
      RunPersists(mid, projectID, slug, runs[|runs| - 1], supply);
      PersistsOn(at.records, mid.records, SyncRun(mid, projectID, slug, runs[|runs| - 1], supply).records);
    }
  }

  lemma {:induction false} JobsPersist(s: Records, projectID: string, jobs: seq<Job>, supply: Supply)
    requires Sound(s) && SupplyFits(s, projectID, supply) && JobsFit(s, jobs)
    ensures Persists(s, SyncJobs(s, projectID, jobs, supply))
  {
    if jobs != [] {
      var front, job := jobs[..|jobs| - 1], jobs[|jobs| - 1];
      var mid := SyncJobs(s, projectID, front, supply);
      JobsPersist(s, projectID, front, supply);
      SyncAllJobs(s, projectID, front, supply);
      LastJobFits(s, mid, jobs);
      RunsPersist(Progress(mid, job.pending), projectID, job.slug, job.runs, supply);
      PersistsOn(s, mid, SyncJobs(s, projectID, jobs, supply));
    }
  }

  // ---------------------------------------------------------------- everything stays in its place

  lemma StorePlaced(s: Records, r: Release)
    requires Placed(s) && InItsProject(s.stages, r)
    ensures Placed(Stored(s, r))
  {
    StoreKeepsStageNames(s, r);
  }

  lemma WritePlaced(s: Records, r: Release)
    requires Placed(s) && InItsProject(s.stages, r)
    ensures Placed(s.(releases := s.releases[r.id := r]))
  {
  }

  lemma ProductionIsCanonical()
    ensures IsCanonical("production")
  {
    assert Names.IsSlug("production");
  }

  lemma ResolvePlaced(s: Records, projectID: string, slug: string, newID: string, created: bool)
    requires Placed(s) && newID != ""
    requires newID in s.stages ==> s.stages[newID].projectID == projectID && s.stages[newID].slug == "production"
    ensures var stage := ResolveStage(s.stages, projectID, slug, newID, created);
      && Placed(s.(stages := stage.stages))
      && (stage.stageID != "" ==>
            && stage.stageID in stage.stages && stage.stages[stage.stageID].projectID == projectID
            && stage.stages[stage.stageID].slug == slug)
  {
    ProductionIsCanonical();
    if FindStage(s.stages, projectID, slug).None? && newID in s.stages {
      assert slug != "production";
    }
  }

  lemma FinishedPlaced(s: Records, release: Release, payload: Payload, now: int)
    requires Placed(s) && InItsProject(s.stages, release) && release.runID != UNBOUND
    ensures Placed(Finished(s, release, payload, now))
  {
    var status := WebhookStatus(payload.status, payload.conclusion);
    if status.Some? {
      StorePlaced(s, release.(status := status.value, imageTag := OrElse(payload.imageTag, release.imageTag), updatedAt := now));
    }
  }

  lemma WebhookPlaced(s: Records, payload: Payload, d: Delivery)
    requires Placed(s) && LegalDelivery(s, payload, d)
    ensures Placed(Webhook(s, payload, d))
  {
    match FindRun(s.releases, payload.runID)
    case Some(id) => FinishedPlaced(s, s.releases[id], payload, d.now);
    case None =>
      if d.project.Some? {
        UnseenRunPlaced(s, d.project.value, payload, d);
      }
  }

  lemma UnseenRunPlaced(s: Records, projectID: string, payload: Payload, d: Delivery)
    requires Placed(s) && LegalDelivery(s, payload, d)
    requires FindRun(s.releases, payload.runID).None? && d.project == Some(projectID)
    ensures Placed(Webhook(s, payload, d))
  {
    var stage := ResolveStage(s.stages, projectID, WebhookSlug(payload), d.newStage, d.created);
    var s1 := s.(stages := stage.stages);
    ResolvePlaced(s, projectID, WebhookSlug(payload), d.newStage, d.created);
    match d.pick
    case Some(pending) =>
      assert InItsProject(s1.stages, s1.releases[pending.id]);
      FinishedPlaced(s1, Attached(pending, payload, d.now), payload, d.now);
    case None =>
      var r := FromPayload(d.newRelease, projectID, stage.stageID, payload, d.now);
      WritePlaced(s1, r);
      FinishedPlaced(s1.(releases := s1.releases[r.id := r]), r, payload, d.now);
  }

  lemma RunPlaced(at: Progress, projectID: string, slug: string, run: WorkflowRun, supply: Supply)
    requires Placed(at.records) && Copied(at.records, at.pending) && SupplyFits(at.records, projectID, supply) && run.id != UNBOUND
    ensures Placed(SyncRun(at, projectID, slug, run, supply).records)
  {
    var Progress(s, pending) := at;
    var status := StatusOf(run);
    if status.Some? {
      match FindRun(s.releases, run.id)
      case Some(id) =>
        StorePlaced(s, s.releases[id].(status := status.value, updatedAt := if run.updatedAt.Some? then run.updatedAt.value else supply.now));
      case None =>
        match pending
        case Some(copy) =>
          assert InItsProject(s.stages, s.releases[copy.id]);
          StorePlaced(s, Claimed(copy, run, status.value, supply.now));
        case None =>
          var stage := ResolveStage(s.stages, projectID, slug, supply.newStage, supply.created);
          ResolvePlaced(s, projectID, slug, supply.newStage, supply.created);
          StorePlaced(s.(stages := stage.stages),
                      Release(supply.releaseFor(run.id), projectID, stage.stageID, run.headSHA, run.commitMessage, status.value,
                              run.id, "", supply.now, supply.now));
    }
  }

  lemma {:induction false} RunsPlaced(at: Progress, projectID: string, slug: string, runs: seq<WorkflowRun>, supply: Supply)
    requires Sound(at.records) && SupplyFits(at.records, projectID, supply) && BoundRuns(runs)
    requires Copied(at.records, at.pending) && Spared(supply, at.pending) && Placed(at.records)
    ensures Placed(SyncRuns(at, projectID, slug, runs, supply).records)
  {
    if runs != [] {
      var front := runs[..|runs| - 1];
      var mid := SyncRuns(at, projectID, slug, front, supply);
      RunsPlaced(at, projectID, slug, front, supply);
      AnyRunsInOrder(at, projectID, slug, front, supply);
      CopyLasts(at.records, mid.records, at.pending);
      RunPlaced(mid, projectID, slug, runs[|runs| - 1], supply);
    }
  }

  /** What a rollback adds: one closed record in the stage of its target. */
  lemma {:induction false} RollbackAdds(s: Records, projectID: string, targetID: string, newID: string, message: string, applied: bool, now: int)
    returns (r: Release)
    requires RollbackAllowed(s, projectID, targetID)
    ensures RolledBack(s, projectID, targetID, newID, message, applied, now) == s.(releases := s.releases[newID := r])
    ensures r.id == newID && r.runID == UNBOUND && !IsOpen(r)
    ensures targetID in s.releases && r.projectID == s.releases[targetID].projectID && r.stageID == s.releases[targetID].stageID
  {
    var target := s.releases[targetID];
    r := Release(newID, projectID, target.stageID, target.commitSHA, message,
                 if applied then Success else ReleaseStatus.Failed, UNBOUND, target.imageTag, now, now);
  }

  lemma {:induction false} ClosedRecordPlaced(s: Records, targetID: string, r: Release)
    requires Placed(s) && targetID in s.releases && r.projectID == s.releases[targetID].projectID && r.stageID == s.releases[targetID].stageID
    requires !IsOpen(r)
    ensures Placed(s.(releases := s.releases[r.id := r]))
  {
    assert InItsProject(s.stages, s.releases[targetID]);
    WritePlaced(s, r);
  }

  lemma {:induction false} RollbackPlaced(s: Records, projectID: string, targetID: string, newID: string, message: string, applied: bool, now: int)
    requires Placed(s)
    ensures Placed(RolledBack(s, projectID, targetID, newID, message, applied, now))
  {
    if RollbackAllowed(s, projectID, targetID) {
      var r := RollbackAdds(s, projectID, targetID, newID, message, applied, now);
      ClosedRecordPlaced(s, targetID, r);
    }
  }

  lemma AddedStagePlaced(s: Records, stage: Stage)
    requires Placed(s) && stage.id !in s.stages && stage.id != "" && IsCanonical(stage.slug)
    ensures Placed(s.(stages := s.stages[stage.id := stage]))
  {
  }

  lemma MarkedStagePlaced(s: Records, stageID: string, status: StageStatus)
    requires Placed(s) && stageID in s.stages
    ensures Placed(s.(stages := s.stages[stageID := s.stages[stageID].(status := status)]))
  {
  }

  // ---------------------------------------------------------------- records stay tidy

  lemma WriteKeepsTidy(s: Records, r: Release, placeholders: set<string>)
    requires TidyRecords(s, placeholders) && MayStore(s, r)
    ensures TidyRecords(s.(releases := s.releases[r.id := r]), placeholders)
  {
  }

  lemma FinishedKeepsTidy(s: Records, release: Release, payload: Payload, now: int, placeholders: set<string>)
    requires TidyRecords(s, placeholders) && MayStore(s, release)
    ensures TidyRecords(Finished(s, release, payload, now), placeholders)
  {
    var status := WebhookStatus(payload.status, payload.conclusion);
    if status.Some? {
      var r := release.(status := status.value, imageTag := OrElse(payload.imageTag, release.imageTag), updatedAt := now);
      StoreKeepsSound(s, r);
      WriteKeepsTidy(s, r, placeholders);
    }
  }

  lemma UnseenRunMayBeStored(s: Records, r: Release)
    requires FindRun(s.releases, r.runID).None? && r.runID != UNBOUND
    requires r.id in s.releases ==> s.releases[r.id].runID == UNBOUND
    ensures MayStore(s, r)
  {
  }

  lemma StagesKeepTidy(s: Records, projectID: string, slug: string, newID: string, created: bool, placeholders: set<string>)
    requires TidyRecords(s, placeholders) && newID !in s.stages
    ensures TidyRecords(s.(stages := ResolveStage(s.stages, projectID, slug, newID, created).stages), placeholders)
  {
    ResolvedStagesStaySound(s.stages, projectID, slug, newID, created);
  }

  /** Every webhook keeps runs unique and lets nobody new wait. */
  lemma WebhookKeepsTidy(s: Records, payload: Payload, d: Delivery, placeholders: set<string>)
    requires TidyRecords(s, placeholders) && LegalDelivery(s, payload, d)
    ensures TidyRecords(Webhook(s, payload, d), placeholders)
  {
    match FindRun(s.releases, payload.runID)
    case Some(id) =>
      FinishedKeepsTidy(s, s.releases[id], payload, d.now, placeholders);
    case None =>
      if d.project.Some? {
        UnseenRunKeepsTidy(s, d.project.value, payload, d, placeholders);
      }
  }

  lemma UnseenRunKeepsTidy(s: Records, projectID: string, payload: Payload, d: Delivery, placeholders: set<string>)
    requires TidyRecords(s, placeholders) && LegalDelivery(s, payload, d)
    requires FindRun(s.releases, payload.runID).None? && d.project == Some(projectID)
    ensures TidyRecords(Webhook(s, payload, d), placeholders)
  {
    var stage := ResolveStage(s.stages, projectID, WebhookSlug(payload), d.newStage, d.created);
    var s1 := s.(stages := stage.stages);
    StagesKeepTidy(s, projectID, WebhookSlug(payload), d.newStage, d.created, placeholders);
    match d.pick
    case Some(pending) =>
      UnseenRunMayBeStored(s1, Attached(pending, payload, d.now));
      FinishedKeepsTidy(s1, Attached(pending, payload, d.now), payload, d.now, placeholders);
    case None => CreatedKeepsTidy(s1, FromPayload(d.newRelease, projectID, stage.stageID, payload, d.now), payload, d.now, placeholders);
  }

  lemma CreatedKeepsTidy(s: Records, r: Release, payload: Payload, now: int, placeholders: set<string>)
    requires TidyRecords(s, placeholders) && FindRun(s.releases, r.runID).None? && r.runID != UNBOUND && r.id !in s.releases
    ensures TidyRecords(Finished(s.(releases := s.releases[r.id := r]), r, payload, now), placeholders)
  {
    UnseenRunMayBeStored(s, r);
    WriteKeepsTidy(s, r, placeholders);
    FinishedKeepsTidy(s.(releases := s.releases[r.id := r]), r, payload, now, placeholders);
  }

  /** The runs of one stage keep both, even when the copy has been overtaken. */
  lemma StageKeepsTidy(
    s: Records, pending: Option<Release>, projectID: string, slug: string, runs: seq<WorkflowRun>, supply: Supply, placeholders: set<string>)
    requires TidyRecords(s, placeholders) && SupplyFits(s, projectID, supply) && BoundRuns(runs)
    requires Copied(s, pending) && Spared(supply, pending)
    ensures TidyRecords(SyncRuns(Progress(s, pending), projectID, slug, runs, supply).records, placeholders)
  {
    AnyRunsInOrder(Progress(s, pending), projectID, slug, runs, supply);
  }

  lemma UnboundWriteKeepsTidy(s: Records, r: Release, placeholders: set<string>)
    requires TidyRecords(s, placeholders) && r.id !in s.releases && r.runID == UNBOUND
    ensures TidyRecords(s.(releases := s.releases[r.id := r]), placeholders + {r.id})
  {
  }

  lemma StagesMayBeAdded(s: Records, stage: Stage, placeholders: set<string>)
    requires TidyRecords(s, placeholders) && stage.id !in s.stages && FindStage(s.stages, stage.projectID, stage.slug).None?
    ensures TidyRecords(s.(stages := s.stages[stage.id := stage]), placeholders)
  {
  }

  lemma StagesMayBeMarked(s: Records, stageID: string, status: StageStatus, placeholders: set<string>)
    requires TidyRecords(s, placeholders) && stageID in s.stages
    ensures TidyRecords(s.(stages := s.stages[stageID := s.stages[stageID].(status := status)]), placeholders)
  {
  }

  lemma ClosedWriteKeepsTidy(s: Records, r: Release, placeholders: set<string>)
    requires TidyRecords(s, placeholders) && r.id !in s.releases && r.runID == UNBOUND && !IsOpen(r)
    ensures TidyRecords(s.(releases := s.releases[r.id := r]), placeholders)
  {
  }

  lemma {:induction false} RollbackKeepsTidy(
    s: Records, projectID: string, targetID: string, newID: string, message: string, applied: bool, now: int, placeholders: set<string>)
    requires TidyRecords(s, placeholders) && newID !in s.releases
    ensures TidyRecords(RolledBack(s, projectID, targetID, newID, message, applied, now), placeholders)
  {
    if RollbackAllowed(s, projectID, targetID) {
      var r := RollbackAdds(s, projectID, targetID, newID, message, applied, now);
      ClosedWriteKeepsTidy(s, r, placeholders);
    }
  }
}
