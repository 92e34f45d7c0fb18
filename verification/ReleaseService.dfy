/** The release part of the project service, as it runs: loops over listings and map keys, records rewritten in stores. */
module ReleaseService {
  import opened Wrappers
  import opened Sequences
  import opened Text
  import opened Projects
  import opened Releases
  import opened ReleaseRuns
  import opened ReleaseGroups
  import opened ReleaseEffects
  import opened ReleaseCopies
  import opened ReleaseReplay
  import Names

  predicate KeyedReleases(releases: map<string, Release>) {
    forall id :: id in releases ==> releases[id].id == id
  }

  predicate KeyedStages(stages: map<string, Stage>) {
    forall id :: id in stages ==> stages[id].id == id
  }

  class ReleaseStore {
    var records: map<string, Release>

    constructor ()
      ensures records == map[]
    {
      records := map[];
    }

    method Create(r: Release)
      modifies this
      ensures records == old(records)[r.id := r]
    {
      records := records[r.id := r];
    }

    method GetByID(id: string) returns (release: Option<Release>)
      ensures release == if id in records then Some(records[id]) else None
    {
      release := if id in records then Some(records[id]) else None;
    }

    method Update(r: Release)
      modifies this
      ensures records == old(records)[r.id := r]
    {
      records := records[r.id := r];
    }

    /** The map is walked in an order nobody controls. */
    method ListByProject(projectID: string) returns (listing: seq<Release>)
      requires KeyedReleases(records)
      ensures IsReleaseListing(listing, records, projectID)
    {
      listing := [];
      var left := records.Keys;
      while left != {}
        invariant left <= records.Keys
        invariant NoDuplicates(listing)
        invariant forall r: Release :: r in listing <==> r.id in records && r.id !in left && records[r.id] == r && r.projectID == projectID
      {
        var id :| id in left;
        if records[id].projectID == projectID {
          assert records[id] !in listing;
          listing := listing + [records[id]];
        }
        left := left - {id};
      }
    }

    method GetByWorkflowRunID(runID: int) returns (found: Option<Release>)
      requires KeyedReleases(records)
      ensures found.Some? ==> found.value.id in records && records[found.value.id] == found.value && found.value.runID == runID
      ensures found.None? ==> forall id :: id in records ==> records[id].runID != runID
    {
      var left := records.Keys;
      while left != {}
        invariant left <= records.Keys
        invariant forall id :: id in records && id !in left ==> records[id].runID != runID
      {
        var id :| id in left;
        if records[id].runID == runID {
          return Some(records[id]);
        }
        left := left - {id};
      }
      found := None;
    }
  }

  class StageStore {
    var stages: map<string, Stage>

    constructor ()
      ensures stages == map[]
    {
      stages := map[];
    }

    method Create(stage: Stage)
      modifies this
      ensures stages == old(stages)[stage.id := stage]
    {
      stages := stages[stage.id := stage];
    }

    method GetByID(id: string) returns (stage: Option<Stage>)
      ensures stage == if id in stages then Some(stages[id]) else None
    {
      stage := if id in stages then Some(stages[id]) else None;
    }

    method Update(stage: Stage)
      modifies this
      ensures stages == old(stages)[stage.id := stage]
    {
      stages := stages[stage.id := stage];
    }

    method GetBySlug(projectID: string, slug: string) returns (found: Option<Stage>)
      requires KeyedStages(stages)
      ensures found.Some? ==>
        found.value.id in stages && stages[found.value.id] == found.value && found.value.projectID == projectID && found.value.slug == slug
      ensures found.None? ==> forall id :: id in stages ==> !(stages[id].projectID == projectID && stages[id].slug == slug)
    {
      var left := stages.Keys;
      while left != {}
        invariant left <= stages.Keys
        invariant forall id :: id in stages && id !in left ==> !(stages[id].projectID == projectID && stages[id].slug == slug)
      {
        var id :| id in left;
        if stages[id].projectID == projectID && stages[id].slug == slug {
          return Some(stages[id]);
        }
        left := left - {id};
      }
      found := None;
    }
  }

  function ServesRepository(repoOwner: string, repoName: string): Project -> bool {
    (p: Project) => Serves(p, repoOwner, repoName)
  }

  lemma NobodyServes(projects: map<string, Project>, listing: seq<Project>, repoOwner: string, repoName: string)
    requires Keyed(projects) && IsListing(listing, projects) && Filter(listing, ServesRepository(repoOwner, repoName)) == []
    ensures forall id :: id in projects ==> !Serves(projects[id], repoOwner, repoName)
  {
    FilterKeeps(listing, ServesRepository(repoOwner, repoName));
    forall id | id in projects
      ensures !ServesRepository(repoOwner, repoName)(projects[id])
    {
      assert projects[id] in listing && projects[id] !in Filter(listing, ServesRepository(repoOwner, repoName));
    }
  }

  /** A stage may be created when the caller owns the project and no stage of the project has the slug. */
  ghost predicate AcceptsStage(
    projects: map<string, Project>, stages: map<string, Stage>, projectID: string, userID: string, slug: string, reachable: bool)
  {
    && projectID in projects && projects[projectID].owner == userID
    && slug != "" && FindStage(stages, projectID, slug).None? && reachable
  }

  /** What CreateStage did: nothing unless the stage is accepted, and then a stage that is active iff its environment came up. */
  ghost predicate StageCreated(
    projects: map<string, Project>, before: map<string, Stage>, after: map<string, Stage>, projectID: string, userID: string, slug: string,
    newID: string, reachable: bool, created: bool, result: Option<Stage>)
  {
    var stage := Stage(newID, projectID, slug, if created then StageActive else StageFailed);
    if AcceptsStage(projects, before, projectID, userID, slug, reachable)
    then after == before[newID := stage] && result == if created then Some(stage) else None
    else after == before && result == None
  }

  /** A stage may be deleted by the owner of its project, unless it is the production stage. */
  predicate AcceptsDeletion(projects: map<string, Project>, stages: map<string, Stage>, projectID: string, stageID: string, userID: string) {
    && projectID in projects && projects[projectID].owner == userID
    && stageID in stages && stages[stageID].projectID == projectID && stages[stageID].slug != "production"
  }

  function WithStatus(stages: map<string, Stage>, stageID: string, status: StageStatus): map<string, Stage>
    requires stageID in stages
  {
    stages[stageID := stages[stageID].(status := status)]
  }

  class ReleaseService {
    const store: ProjectStore
    const releaseStore: ReleaseStore
    const stageStore: StageStore

    ghost predicate Valid()
      reads this, store, releaseStore, stageStore
    {
      Keyed(store.projects) && Sound(View())
    }

    ghost function View(): Records
      reads this, releaseStore, stageStore
    {
      Records(releaseStore.records, stageStore.stages)
    }

    constructor (store: ProjectStore, releaseStore: ReleaseStore, stageStore: StageStore)
      requires Keyed(store.projects) && Sound(Records(releaseStore.records, stageStore.stages))
      ensures Valid() && this.store == store && this.releaseStore == releaseStore && this.stageStore == stageStore
    {
      this.store, this.releaseStore, this.stageStore := store, releaseStore, stageStore;
    }

    // ---------------------------------------------------------------- stages

    method UpdateStageStatusFromRelease(r: Release)
      requires KeyedStages(stageStore.stages)
      modifies stageStore
      ensures stageStore.stages == StagesAfter(old(stageStore.stages), r)
    {
      if r.stageID == "" {
        return;
      }
      var found := stageStore.GetByID(r.stageID);
      if found.None? {
        return;
      }
      var stage := found.value;
      var desired := stage.status;
      match r.status {
        case Success => desired := StageActive;
        case Failed => desired := StageFailed;
        case _ => return;
      }
      if stage.status == desired {
        return;
      }
      stageStore.Update(stage.(status := desired));
    }

    /** createStage: the record comes first, and stays as failed when the environment does not come up. */
    method ProvisionStage(projectID: string, slug: string, newID: string, created: bool) returns (result: Option<Stage>)
      modifies stageStore
      ensures stageStore.stages ==
              old(stageStore.stages)[newID := Stage(newID, projectID, slug, if created then StageActive else StageFailed)]
      ensures result == if created then Some(stageStore.stages[newID]) else None
    {
      var stage := Stage(newID, projectID, slug, StageCreating);
      stageStore.Create(stage);
      if !created {
        stageStore.Update(stage.(status := StageFailed));
        return None;
      }
      stage := stage.(status := StageActive);
      stageStore.Update(stage);
      result := Some(stage);
    }

    method GetOrCreateProductionStage(projectID: string, newID: string, created: bool) returns (result: Option<Stage>)
      requires KeyedStages(stageStore.stages) && UniqueSlugs(stageStore.stages)
      modifies stageStore
      ensures var r := ResolveStage(old(stageStore.stages), projectID, "production", newID, created);
        && stageStore.stages == r.stages
        && (result.Some? ==> result.value.id == r.stageID)
        && (result.None? ==> r.stageID == "")
    {
      var found := stageStore.GetBySlug(projectID, "production");
      if found.Some? {
        return found;
      }
      result := ProvisionStage(projectID, "production", newID, created);
    }

    method ResolveReleaseStageID(projectID: string, slug: string, newID: string, created: bool) returns (stageID: string)
      requires KeyedStages(stageStore.stages) && UniqueSlugs(stageStore.stages)
      modifies stageStore
      ensures Resolved(stageID, stageStore.stages) == ResolveStage(old(stageStore.stages), projectID, slug, newID, created)
      ensures KeyedStages(stageStore.stages)
    {
      var found := stageStore.GetBySlug(projectID, slug);
      if found.Some? {
        return found.value.id;
      }
      if slug == "production" {
        var stage := GetOrCreateProductionStage(projectID, newID, created);
        if stage.Some? {
          return stage.value.id;
        }
      }
      stageID := "";
    }

    // ---------------------------------------------------------------- webhooks

    method FindPendingReleaseWithoutWorkflow(projectID: string, stageID: string) returns (pick: Option<Release>)
      requires KeyedReleases(releaseStore.records)
      ensures IsPick(releaseStore.records, projectID, stageID, pick)
      ensures forall id :: id in releaseStore.records ==>
        var r := releaseStore.records[id];
        r.projectID == projectID && r.stageID == stageID && r.runID == 0 && r.status in {Pending, Building, Deploying} ==>
          pick.Some? && r.createdAt <= pick.value.createdAt
      ensures pick.Some? ==>
        && pick.value.projectID == projectID && pick.value.stageID == stageID && pick.value.runID == 0
        && pick.value.status in {Pending, Building, Deploying}
    {
      var releases := releaseStore.ListByProject(projectID);
      pick := None;
      for i := 0 to |releases|
        invariant pick.Some? ==> pick.value in releases[..i] && Waits(pick.value, projectID, stageID)
        invariant forall r :: r in releases[..i] && Waits(r, projectID, stageID) ==> pick.Some? && r.createdAt <= pick.value.createdAt
      {
        assert releases[i] in releases && releases[..i + 1] == releases[..i] + [releases[i]];
        var release := releases[i];
        if release.runID != UNBOUND || release.stageID != stageID {
          continue;
        }
        if !(release.status == Pending || release.status == Building || release.status == Deploying) {
          continue;
        }
        if pick.None? || release.createdAt > pick.value.createdAt {
          pick := Some(release);
        }
      }
      assert releases[..|releases|] == releases;
      forall id | id in releaseStore.records && Waits(releaseStore.records[id], projectID, stageID)
        ensures releaseStore.records[id] in releases
      {
      }
    }

    /** The search over all projects that a webhook starts with. */
    method FindProject(payload: Payload) returns (project: Option<string>)
      requires Keyed(store.projects)
      ensures IsOwner(store.projects, payload, project)
      ensures var repoOwner, repoName := Trim(payload.repositoryOwner), Trim(payload.repositoryName);
        forall id :: id in store.projects && (project.None? || project == Some(id)) ==>
          var p := store.projects[id];
          project.Some? <==> repoOwner != "" && repoName != "" && p.status != Deleted && p.status != Deleting
                             && EqualFold(Trim(p.repositoryOwner), repoOwner) && EqualFold(Trim(p.repositoryName), repoName)
    {
      var repoOwner, repoName := Trim(payload.repositoryOwner), Trim(payload.repositoryName);
      if repoOwner == "" || repoName == "" {
        return None;
      }
      var listing := store.List();
      for i := 0 to |listing|
        invariant Filter(listing[..i], ServesRepository(repoOwner, repoName)) == []
      {
        FilterStep(listing, i, ServesRepository(repoOwner, repoName));
        assert listing[i] in listing;
        var hit := Matches(listing[i], repoOwner, repoName);
        if hit {
          return Some(listing[i].id);
        }
      }
      assert listing[..|listing|] == listing;
      NobodyServes(store.projects, listing, repoOwner, repoName);
      project := None;
    }

    method Matches(p: Project, repoOwner: string, repoName: string) returns (hit: bool)
      ensures hit == Serves(p, repoOwner, repoName)
    {
      if p.status == Deleted || p.status == Deleting {
        return false;
      }
      hit := EqualFold(Trim(p.repositoryOwner), repoOwner) && EqualFold(Trim(p.repositoryName), repoName);
    }

    /** The part of the handler after the release is known. */
    method FinishWebhook(release: Release, payload: Payload, now: int)
      requires KeyedStages(stageStore.stages)
      modifies releaseStore, stageStore
      ensures View() == Finished(old(View()), release, payload, now)
    {
      var newStatus := WebhookStatus(payload.status, payload.conclusion);
      if newStatus.None? {
        return;
      }
      var r := release.(status := newStatus.value);
      var imageTag := Trim(payload.imageTag);
      if imageTag != "" {
        r := r.(imageTag := imageTag);
      }
      r := r.(updatedAt := now);
      releaseStore.Update(r);
      UpdateStageStatusFromRelease(r);
    }

    method StageSlugOf(payload: Payload) returns (slug: string)
      ensures slug == WebhookSlug(payload)
    {
      slug := Names.SlugifyStageName(payload.stageSlug);
      if slug == "" {
        slug := Names.StageSlugFromWorkflowPath(payload.path);
      }
      if slug == "" {
        slug := "production";
      }
    }

    /** Attaches the run to an open release of the stage, in memory only, or creates a release for it. */
    method BindRun(projectID: string, stageID: string, payload: Payload, newRelease: string, now: int)
      returns (release: Release, pick: Option<Release>)
      requires KeyedReleases(releaseStore.records)
      modifies releaseStore
      ensures IsPick(old(releaseStore.records), projectID, stageID, pick)
      ensures release == if pick.Some? then Attached(pick.value, payload, now)
                         else FromPayload(newRelease, projectID, stageID, payload, now)
      ensures releaseStore.records == if pick.Some? then old(releaseStore.records) else old(releaseStore.records)[newRelease := release]
    {
      pick := FindPendingReleaseWithoutWorkflow(projectID, stageID);
      if pick.Some? {
        release := pick.value.(runID := payload.runID);
        var headSHA := Trim(payload.headSHA);
        if headSHA != "" {
          release := release.(commitSHA := headSHA);
        }
        var message := Trim(payload.message);
        if message != "" {
          release := release.(commitMessage := message);
        }
        release := release.(updatedAt := now);
      } else {
        release := FromPayload(newRelease, projectID, stageID, payload, now);
        releaseStore.Create(release);
      }
    }

    method HandleUnseenRun(projectID: string, payload: Payload, newRelease: string, newStage: string, created: bool, now: int)
      returns (pick: Option<Release>)
      requires Valid() && FindRun(releaseStore.records, payload.runID).None?
      modifies releaseStore, stageStore
      ensures View() == Webhook(old(View()), payload, Delivery(Some(projectID), pick, newRelease, newStage, created, now))
      ensures IsPick(old(releaseStore.records), projectID,
                     ResolveStage(old(stageStore.stages), projectID, WebhookSlug(payload), newStage, created).stageID, pick)
    {
      var slug := StageSlugOf(payload);
      var stageID := ResolveReleaseStageID(projectID, slug, newStage, created);
      var release;
      release, pick := BindRun(projectID, stageID, payload, newRelease, now);
      FinishWebhook(release, payload, now);
    }

    method HandleKnownRun(release: Release, payload: Payload, ghost d: Delivery, now: int)
      requires Valid() && payload.runID != UNBOUND && release.runID == payload.runID && d.now == now
      requires release.id in releaseStore.records && releaseStore.records[release.id] == release
      modifies releaseStore, stageStore
      ensures View() == Webhook(old(View()), payload, d)
    {
      RunIsFound(View(), release.id);
      FinishWebhook(release, payload, now);
    }

    /** The handler for a run that no release carries: it looks for the project first. */
    method HandleUnknownRun(payload: Payload, newRelease: string, newStage: string, created: bool, now: int)
      returns (ghost d: Delivery)
      requires Valid() && payload.runID != UNBOUND && NewIDs(View(), newRelease, newStage) && FindRun(releaseStore.records, payload.runID).None?
      modifies releaseStore, stageStore
      ensures View() == Webhook(old(View()), payload, d) && LegalDelivery(old(View()), payload, d)
      ensures d == Delivery(d.project, d.pick, newRelease, newStage, created, now) && IsOwner(store.projects, payload, d.project)
    {
      var project := FindProject(payload);
      if project.None? {
        d := Delivery(None, None, newRelease, newStage, created, now);
        return;
      }
      var pick := HandleUnseenRun(project.value, payload, newRelease, newStage, created, now);
      d := Delivery(project, pick, newRelease, newStage, created, now);
    }

    method HandleGitHubWebhook(payload: Payload, newRelease: string, newStage: string, created: bool, now: int)
      returns (ghost d: Delivery)
      requires Valid() && payload.runID != UNBOUND && NewIDs(View(), newRelease, newStage)
      modifies releaseStore, stageStore
      ensures Valid()
      ensures View() == Webhook(old(View()), payload, d) && LegalDelivery(old(View()), payload, d)
      ensures d == Delivery(d.project, d.pick, newRelease, newStage, created, now)
      ensures FindRun(old(View()).releases, payload.runID).None? ==> IsOwner(store.projects, payload, d.project)
    {
      ghost var was := View();
      var known := releaseStore.GetByWorkflowRunID(payload.runID);
      if known.Some? {
        d := Delivery(None, None, newRelease, newStage, created, now);
        HandleKnownRun(known.value, payload, d, now);
      } else {
        d := HandleUnknownRun(payload, newRelease, newStage, created, now);
      }
      WebhookKeepsTidy(was, payload, d, was.releases.Keys);
    }

    // ---------------------------------------------------------------- sync

    method StageSlugOfRelease(r: Release) returns (slug: string)
      ensures slug == SlugOf(r, stageStore.stages)
      ensures r.stageID != "" && r.stageID in stageStore.stages ==> slug == stageStore.stages[r.stageID].slug
      ensures r.stageID == "" || r.stageID !in stageStore.stages ==> slug == "production"
    {
      slug := "production";
      if r.stageID != "" {
        var stage := stageStore.GetByID(r.stageID);
        if stage.Some? {
          slug := stage.value.slug;
        }
      }
    }

    method NoteRelease(before: StageInfo, r: Release) returns (info: StageInfo)
      ensures info == Noted(before, r)
      ensures info.since >= before.since && info.since >= r.createdAt && info.since in {before.since, r.createdAt}
      ensures var newer := before.pending.None? || r.createdAt > before.pending.value.createdAt;
        info.pending == if r.runID == 0 && r.status in {Pending, Building} && newer then Some(r) else before.pending
    {
      info := before;
      if r.createdAt > info.since {
        info := info.(since := r.createdAt);
      }
      if r.runID == UNBOUND && (r.status == Pending || r.status == Building) {
        if info.pending.None? || r.createdAt > info.pending.value.createdAt {
          info := info.(pending := Some(r));
        }
      }
    }

    /** The first loop: what is known about each stage. */
    method GroupByStage(listing: seq<Release>) returns (byStage: map<string, StageInfo>)
      ensures byStage == StagesOf(listing, stageStore.stages)
    {
      byStage := map[];
      for i := 0 to |listing|
        invariant byStage == StagesOf(listing[..i], stageStore.stages)
      {
        var r := listing[i];
        var slug := StageSlugOfRelease(r);
        var info := NoteRelease(if slug in byStage then byStage[slug] else StageInfo(r.createdAt, None), r);
        assert listing[..i + 1][..i] == listing[..i];
        byStage := byStage[slug := info];
      }
      assert listing[..|listing|] == listing;
    }

    /** The first branch of the inner loop's body: the run is known, its status may be new. */
    method SyncKnownRun(existing: Release, run: WorkflowRun, newStatus: ReleaseStatus, now: int)
      requires KeyedStages(stageStore.stages)
      modifies releaseStore, stageStore
      ensures View() == if existing.status == newStatus then old(View())
                        else Stored(old(View()), existing.(status := newStatus,
                                                           updatedAt := if run.updatedAt.Some? then run.updatedAt.value else now))
    {
      if existing.status != newStatus {
        var updated := existing.(status := newStatus, updatedAt := if run.updatedAt.Some? then run.updatedAt.value else now);
        releaseStore.Update(updated);
        UpdateStageStatusFromRelease(updated);
      }
    }

    /** The second branch: the run takes the placeholder. */
    method ClaimPending(pending: Release, run: WorkflowRun, newStatus: ReleaseStatus, now: int)
      requires KeyedStages(stageStore.stages)
      modifies releaseStore, stageStore
      ensures View() == Stored(old(View()), Claimed(pending, run, newStatus, now))
    {
      var candidate := pending.(runID := run.id);
      var headSHA := Trim(run.headSHA);
      if headSHA != "" {
        candidate := candidate.(commitSHA := headSHA);
      }
      if candidate.commitMessage == "" || PLACEHOLDER_MESSAGE <= candidate.commitMessage {
        candidate := candidate.(commitMessage := run.commitMessage);
      }
      candidate := candidate.(status := newStatus, updatedAt := if run.updatedAt.Some? then run.updatedAt.value else now);
      releaseStore.Update(candidate);
      UpdateStageStatusFromRelease(candidate);
    }

    /** The last branch: the run gets a release of its own. */
    method CreateForRun(projectID: string, slug: string, run: WorkflowRun, newStatus: ReleaseStatus, supply: Supply)
      requires KeyedStages(stageStore.stages) && UniqueSlugs(stageStore.stages)
      modifies releaseStore, stageStore
      ensures var stage := ResolveStage(old(stageStore.stages), projectID, slug, supply.newStage, supply.created);
        View() == Stored(old(View()).(stages := stage.stages),
                         Release(supply.releaseFor(run.id), projectID, stage.stageID, run.headSHA, run.commitMessage, newStatus,
                                 run.id, "", supply.now, supply.now))
    {
      var stageID := ResolveReleaseStageID(projectID, slug, supply.newStage, supply.created);
      var newRelease := Release(supply.releaseFor(run.id), projectID, stageID, run.headSHA, run.commitMessage, newStatus,
                                run.id, "", supply.now, supply.now);
      releaseStore.Create(newRelease);
      UpdateStageStatusFromRelease(newRelease);
    }

    /** The body of the inner loop. */
    method SyncOneRun(projectID: string, slug: string, run: WorkflowRun, pending: Option<Release>, supply: Supply)
      returns (rest: Option<Release>)
      requires Sound(View()) && run.id != UNBOUND
      modifies releaseStore, stageStore
      ensures Progress(View(), rest) == SyncRun(Progress(old(View()), pending), projectID, slug, run, supply)
    {
      rest := pending;
      var newStatus := MapWorkflowRunStatus(run.status, run.conclusion);
      if newStatus.None? {
        return;
      }
      var known := releaseStore.GetByWorkflowRunID(run.id);
      if known.Some? {
        RunIsFound(View(), known.value.id);
        SyncKnownRun(known.value, run, newStatus.value, supply.now);
        return;
      }
      rest := None;
      if pending.Some? {
        ClaimPending(pending.value, run, newStatus.value, supply.now);
      } else {
        CreateForRun(projectID, slug, run, newStatus.value, supply);
      }
    }

    /** The inner loop. `pending` is what the listing had; the stored record may have moved on since. */
    method SyncStage(projectID: string, slug: string, pending: Option<Release>, runs: seq<WorkflowRun>, supply: Supply)
      requires Sound(View()) && NewStageFits(View(), projectID, supply) && BoundRuns(runs)
      modifies releaseStore, stageStore
      ensures View() == StageAt(old(View()), pending, projectID, slug, runs, supply)
    {
      ghost var start := Progress(View(), pending);
      var rest := pending;
      for k := 0 to |runs|
        invariant Progress(View(), rest) == SyncRuns(start, projectID, slug, runs[..k], supply)
      {
        AnyRunsKeepSound(start, projectID, slug, runs[..k], supply);
        assert runs[..k + 1][..k] == runs[..k];
        rest := SyncOneRun(projectID, slug, runs[k], rest, supply);
      }
      assert runs[..|runs|] == runs;
    }

    /** One round of the outer loop. */
    method SyncNextStage(
      projectID: string, slug: string, groups: map<string, StageInfo>, lookup: (string, int) -> seq<WorkflowRun>, supply: Supply,
      ghost was: Records, ghost order: seq<string>)
      requires Sound(was) && NewStageFits(was, projectID, supply) && BoundAnswers(lookup)
      requires slug in groups && AllIn(order, groups)
      requires View() == SyncJobs(was, projectID, JobsFor(order, groups, lookup), supply)
      modifies releaseStore, stageStore
      ensures AllIn(order + [slug], groups)
      ensures View() == SyncJobs(was, projectID, JobsFor(order + [slug], groups, lookup), supply)
    {
      var runs := lookup(Names.StageWorkflowPath(slug), groups[slug].since);
      ghost var done, job := JobsFor(order, groups, lookup), JobFor(slug, groups, lookup);
      JobsForAreBound(order, groups, lookup);
      AnyJobsKeepSound(was, projectID, done, supply);
      SyncStage(projectID, slug, groups[slug].pending, runs, supply);
      SyncJobsOneMore(was, projectID, done, job, supply);
      JobsForOneMore(order, slug, groups, lookup);
    }

    /** The outer loop, over the keys of the grouping in any order; `lookup` is what GitHub answers for a path and a time. */
    method SyncStages(projectID: string, groups: map<string, StageInfo>, lookup: (string, int) -> seq<WorkflowRun>, supply: Supply)
      returns (ghost order: seq<string>)
      requires Sound(View()) && NewStageFits(View(), projectID, supply) && BoundAnswers(lookup)
      modifies releaseStore, stageStore
      ensures IsOrder(order, groups)
      ensures View() == SyncJobs(old(View()), projectID, JobsFor(order, groups, lookup), supply)
    {
      ghost var was := View();
      order := [];
      var left := groups.Keys;
      while left != {}
        invariant left <= groups.Keys && AllIn(order, groups) && NoDuplicates(order)
        invariant forall slug :: slug in groups ==> (slug in order <==> slug !in left)
        invariant View() == SyncJobs(was, projectID, JobsFor(order, groups, lookup), supply)
      {
        var slug :| slug in left;
        SyncNextStage(projectID, slug, groups, lookup, supply, was, order);
        order := order + [slug];
        left := left - {slug};
      }
    }

    /** The listing may be older than the records. */
    method SyncLatestUnresolvedRelease(
      project: Project, listing: seq<Release>, hasToken: bool, lookup: (string, int) -> seq<WorkflowRun>, supply: Supply)
      returns (ghost jobs: seq<Job>, ghost order: seq<string>)
      requires Valid() && NewStageFits(View(), project.id, supply) && BoundAnswers(lookup)
      modifies releaseStore, stageStore
      ensures Valid()
      ensures View() == SyncJobs(old(View()), project.id, jobs, supply)
      ensures IsReleaseListing(listing, old(releaseStore.records), project.id) ==> JobsFit(old(View()), jobs)
      ensures var byStage := StagesOf(listing, old(stageStore.stages));
        if Trim(project.repositoryOwner) != "" && Trim(project.repositoryName) != "" && hasToken
        then IsOrder(order, byStage) && jobs == JobsFor(order, byStage, lookup) else jobs == []
    {
      jobs, order := [], [];
      if Trim(project.repositoryOwner) == "" || Trim(project.repositoryName) == "" || !hasToken {
        return;
      }
      ghost var was := View();
      var groups := GroupByStage(listing);
      order := SyncStages(project.id, groups, lookup, supply);
      jobs := JobsFor(order, groups, lookup);
      JobsForAreBound(order, groups, lookup);
      AnyJobsKeepSound(was, project.id, jobs, supply);
      if IsReleaseListing(listing, was.releases, project.id) {
        JobsForFit(order, was, listing, project.id, lookup);
      }
    }

    /** `read` is the listing before the sync, `order` the order in which the sync met the stages. */
    method ListReleases(projectID: string, hasToken: bool, lookup: (string, int) -> seq<WorkflowRun>, supply: Supply)
      returns (result: Option<seq<Release>>, ghost read: seq<Release>, ghost order: seq<string>)
      requires Valid() && NewStageFits(View(), projectID, supply) && BoundAnswers(lookup)
      modifies releaseStore, stageStore
      ensures Valid()
      ensures result.Some? == (projectID in store.projects)
      ensures result.Some? ==> IsReleaseListing(result.value, releaseStore.records, projectID)
      ensures if && projectID in store.projects && hasToken
                 && Trim(store.projects[projectID].repositoryOwner) != "" && Trim(store.projects[projectID].repositoryName) != ""
              then && IsReleaseListing(read, old(releaseStore.records), projectID) && IsOrder(order, StagesOf(read, old(stageStore.stages)))
                   && View() == SyncJobs(old(View()), projectID, JobsFor(order, StagesOf(read, old(stageStore.stages)), lookup), supply)
              else View() == old(View())
    {
      read, order := [], [];
      var project := store.GetByID(projectID);
      if project.None? {
        return None, read, order;
      }
      var releases := releaseStore.ListByProject(projectID);
      read := releases;
      ghost var jobs;
      jobs, order := SyncLatestUnresolvedRelease(project.value, releases, hasToken, lookup, supply);
      var listing := releaseStore.ListByProject(projectID);
      result := Some(listing);
    }

    // ---------------------------------------------------------------- rollback, bootstrap and stages

    /** Runs to its end before any webhook is looked at. `funded` and `applied` are the reserve's and the cluster's answers. */
    method RollbackToRelease(projectID: string, releaseID: string, funded: bool, applied: bool, newID: string, now: int)
      returns (result: Option<Release>)
      requires Valid() && newID !in releaseStore.records
      modifies releaseStore
      ensures Valid()
      ensures View() == if projectID in store.projects && funded
                        then RolledBack(old(View()), projectID, releaseID, newID, "rollback to " + releaseID, applied, now)
                        else old(View())
      ensures result.Some? == (projectID in store.projects && funded && RollbackAllowed(old(View()), projectID, releaseID) && applied)
      ensures result.Some? ==> newID in releaseStore.records && result.value == releaseStore.records[newID]
      ensures result.Some? <==>
        && projectID in store.projects && releaseID in old(releaseStore.records) && old(releaseStore.records)[releaseID].projectID == projectID
        && old(releaseStore.records)[releaseID].status == Success && Trim(old(releaseStore.records)[releaseID].imageTag) != "" && funded && applied
      ensures result.Some? ==>
        var target := old(releaseStore.records)[releaseID];
        result.value == Release(newID, projectID, target.stageID, target.commitSHA, "rollback to " + releaseID, Success, 0, target.imageTag, now, now)
    {
      var project := store.GetByID(projectID);
      if project.None? {
        return None;
      }
      var found := releaseStore.GetByID(releaseID);
      if found.None? || found.value.projectID != projectID {
        return None;
      }
      var target := found.value;
      if target.status != Success {
        return None;
      }
      if Trim(target.imageTag) == "" {
        return None;
      }
      if !funded {
        return None;
      }
      RollbackKeepsTidy(View(), projectID, releaseID, newID, "rollback to " + releaseID, applied, now, releaseStore.records.Keys);
      result := ApplyRollback(target, newID, applied, now);
    }

    /** The second half of RollbackToRelease: the record is opened, the image applied, the record closed. */
    method ApplyRollback(target: Release, newID: string, applied: bool, now: int) returns (result: Option<Release>)
      modifies releaseStore
      ensures var closed := Release(newID, target.projectID, target.stageID, target.commitSHA, "rollback to " + target.id,
                                    if applied then Success else ReleaseStatus.Failed, UNBOUND, target.imageTag, now, now);
        && releaseStore.records == old(releaseStore.records)[newID := closed]
        && result == if applied then Some(closed) else None
    {
      var rollback := Release(newID, target.projectID, target.stageID, target.commitSHA, "rollback to " + target.id, Pending, UNBOUND,
                              target.imageTag, now, now);
      releaseStore.Create(rollback);
      if !applied {
        releaseStore.Update(rollback.(status := ReleaseStatus.Failed));
        return None;
      }
      rollback := rollback.(status := Success);
      releaseStore.Update(rollback);
      result := Some(rollback);
    }

    method CreateBootstrapPendingRelease(projectID: string, stageID: string, pullRequestURL: string, newID: string, now: int)
      requires Valid() && newID !in releaseStore.records
      modifies releaseStore
      ensures Valid()
      ensures View() == if Trim(pullRequestURL) == "" then old(View())
                        else Bootstrapped(old(View()), projectID, stageID, newID, PLACEHOLDER_MESSAGE + " " + pullRequestURL, now)
      ensures Trim(pullRequestURL) != "" ==>
        newID in releaseStore.records && releaseStore.records[newID] == Release(
          newID, projectID, stageID, "", "Ожидает запуска деплоя из PR:" + " " + pullRequestURL, Pending, 0, "", now, now)
    {
      if Trim(pullRequestURL) == "" {
        return;
      }
      releaseStore.Create(Release(newID, projectID, stageID, "", PLACEHOLDER_MESSAGE + " " + pullRequestURL, Pending, UNBOUND, "", now, now));
    }

    /** A blank name and a name without letters or digits both give no slug. */
    method SlugOfName(name: string) returns (slug: string)
      ensures slug == Names.Slug(Trim(name))
    {
      var trimmed := Trim(name);
      if trimmed == "" {
        Names.EmptySlug("");
        return "";
      }
      slug := Names.SlugifyStageName(trimmed);
    }

    /** The checks that CreateStage makes before it writes anything; `reachable` is the cluster's answer. */
    method AcceptStage(projectID: string, userID: string, slug: string, reachable: bool) returns (accepted: bool)
      requires KeyedStages(stageStore.stages)
      ensures accepted == AcceptsStage(store.projects, stageStore.stages, projectID, userID, slug, reachable)
    {
      var project := store.GetByID(projectID);
      if project.None? || project.value.owner != userID {
        return false;
      }
      if slug == "" {
        return false;
      }
      var taken := stageStore.GetBySlug(projectID, slug);
      accepted := taken.None? && reachable;
    }

    /** A stage whose environment does not come up is kept, though the caller is told of the failure. */
    method CreateStage(projectID: string, userID: string, name: string, newID: string, reachable: bool, created: bool)
      returns (result: Option<Stage>)
      requires Valid() && newID !in stageStore.stages
      modifies stageStore
      ensures Valid()
      ensures StageCreated(store.projects, old(stageStore.stages), stageStore.stages, projectID, userID, Names.Slug(Trim(name)), newID,
                           reachable, created, result)
    {
      var slug := SlugOfName(name);
      result := CreateStageWithSlug(projectID, userID, slug, newID, reachable, created);
    }

    method CreateStageWithSlug(projectID: string, userID: string, slug: string, newID: string, reachable: bool, created: bool)
      returns (result: Option<Stage>)
      requires Valid() && newID !in stageStore.stages
      modifies stageStore
      ensures Valid()
      ensures StageCreated(store.projects, old(stageStore.stages), stageStore.stages, projectID, userID, slug, newID, reachable, created, result)
      ensures result.Some? <==>
        && projectID in store.projects && store.projects[projectID].owner == userID && slug != "" && reachable && created
        && forall id :: id in old(stageStore.stages) ==> old(stageStore.stages)[id].projectID != projectID || old(stageStore.stages)[id].slug != slug
      ensures result.Some? ==>
        result.value == Stage(newID, projectID, slug, StageActive) && stageStore.stages == old(stageStore.stages)[newID := result.value]
    {
      var accepted := AcceptStage(projectID, userID, slug, reachable);
      if !accepted {
        return None;
      }
      StagesMayBeAdded(View(), Stage(newID, projectID, slug, if created then StageActive else StageFailed), releaseStore.records.Keys);
      result := ProvisionStage(projectID, slug, newID, created);
    }

    /** The production stage cannot be deleted; any other stays as `Deleting` until its environment is gone. */
    method DeleteStage(projectID: string, stageID: string, userID: string, removed: bool) returns (ok: bool)
      requires Valid()
      modifies stageStore
      ensures Valid()
      ensures stageStore.stages == if AcceptsDeletion(store.projects, old(stageStore.stages), projectID, stageID, userID)
                                   then WithStatus(old(stageStore.stages), stageID, if removed then StageDeleted else StageDeleting)
                                   else old(stageStore.stages)
      ensures ok == (AcceptsDeletion(store.projects, old(stageStore.stages), projectID, stageID, userID) && removed)
      ensures ok <==>
        && projectID in store.projects && store.projects[projectID].owner == userID && removed
        && stageID in old(stageStore.stages) && old(stageStore.stages)[stageID].projectID == projectID
        && old(stageStore.stages)[stageID].slug != "production"
      ensures ok ==> stageStore.stages == old(stageStore.stages)[stageID := old(stageStore.stages)[stageID].(status := StageDeleted)]
    {
      var project := store.GetByID(projectID);
      if project.None? || project.value.owner != userID {
        return false;
      }
      var found := stageStore.GetByID(stageID);
      if found.None? || found.value.projectID != projectID {
        return false;
      }
      if found.value.slug == "production" {
        return false;
      }
      StagesMayBeMarked(View(), stageID, if removed then StageDeleted else StageDeleting, releaseStore.records.Keys);
      RemoveStage(found.value, removed);
      ok := removed;
    }

    method RemoveStage(stage: Stage, removed: bool)
      requires stage.id in stageStore.stages && stageStore.stages[stage.id] == stage
      modifies stageStore
      ensures stageStore.stages == WithStatus(old(stageStore.stages), stage.id, if removed then StageDeleted else StageDeleting)
    {
      stageStore.Update(stage.(status := StageDeleting));
      if removed {
        stageStore.Update(stage.(status := StageDeleted));
      }
    }
  }
}
