/**
 Release records and how GitHub runs are bound to them, as functions on values. Two paths do it: webhooks,
 one run at a time, and the sync that reads the latest runs of every stage.
 */
module Releases {
  import opened Wrappers
  import opened Sequences
  import opened Text
  import Names

  datatype ReleaseStatus = Pending | Building | Deploying | Success | Failed

  datatype Release = Release(
    id: string,
    projectID: string,
    stageID: string,
    commitSHA: string,
    commitMessage: string,
    status: ReleaseStatus,
    runID: int,
    imageTag: string,
    createdAt: int,
    updatedAt: int)

  datatype StageStatus = StageCreating | StageActive | StageDeleting | StageDeleted | StageFailed

  datatype Stage = Stage(id: string, projectID: string, slug: string, status: StageStatus)

  datatype Records = Records(releases: map<string, Release>, stages: map<string, Stage>)

  /** Run id 0 means that no run is bound. */
  const UNBOUND := 0

  /** A bootstrap placeholder that waits for its first run looks like this. */
  predicate IsOpen(r: Release) {
    r.runID == UNBOUND && (r.status == Pending || r.status == Building || r.status == Deploying)
  }

  /** What slugifyStageName makes of a name that is not refused. */
  predicate IsCanonical(slug: string) {
    slug != "" && Names.IsSlug(slug)
  }

  ghost predicate CanonicalSlugs(stages: map<string, Stage>) {
    forall id :: id in stages ==> IsCanonical(stages[id].slug)
  }

  /** The release is in a stage of its own project, or in none; whoever waits for a run is in one. */
  predicate InItsProject(stages: map<string, Stage>, r: Release) {
    if r.stageID == "" then !IsOpen(r) else r.stageID in stages && stages[r.stageID].projectID == r.projectID
  }

  /** Where things are: every release in its project, every stage under a proper id and slug. */
  ghost predicate Placed(s: Records) {
    && "" !in s.stages && CanonicalSlugs(s.stages)
    && forall id :: id in s.releases ==> InItsProject(s.stages, s.releases[id])
  }

  // ---------------------------------------------------------------- lookups

  ghost predicate UniqueRuns(releases: map<string, Release>) {
    forall a, b :: a in releases && b in releases && releases[a].runID == releases[b].runID != UNBOUND ==> a == b
  }

  ghost predicate UniqueSlugs(stages: map<string, Stage>) {
    forall a, b ::
      a in stages && b in stages && stages[a].projectID == stages[b].projectID && stages[a].slug == stages[b].slug ==> a == b
  }

  /** What every step keeps. */
  ghost predicate Sound(s: Records) {
    && (forall id :: id in s.releases ==> s.releases[id].id == id)
    && (forall id :: id in s.stages ==> s.stages[id].id == id)
    && UniqueRuns(s.releases) && UniqueSlugs(s.stages)
  }

  ghost function FindRun(releases: map<string, Release>, runID: int): (found: Option<string>)
    ensures found.Some? ==> found.value in releases && releases[found.value].runID == runID
    ensures found.None? ==> forall id :: id in releases ==> releases[id].runID != runID
  {
    if exists id :: id in releases && releases[id].runID == runID
    then var id :| id in releases && releases[id].runID == runID; Some(id)
    else None
  }

  ghost function FindStage(stages: map<string, Stage>, projectID: string, slug: string): (found: Option<string>)
    ensures found.Some? ==> found.value in stages && stages[found.value].projectID == projectID && stages[found.value].slug == slug
    ensures found.None? ==> forall id :: id in stages ==> !(stages[id].projectID == projectID && stages[id].slug == slug)
  {
    if exists id :: id in stages && stages[id].projectID == projectID && stages[id].slug == slug
    then var id :| id in stages && stages[id].projectID == projectID && stages[id].slug == slug; Some(id)
    else None
  }

  /** The status of the release that carries the run, if there is one. */
  ghost function StatusOfRun(releases: map<string, Release>, runID: int): Option<ReleaseStatus> {
    var found := FindRun(releases, runID);
    if found.Some? then Some(releases[found.value].status) else None
  }

  predicate Waits(r: Release, projectID: string, stageID: string) {
    r.projectID == projectID && r.stageID == stageID && IsOpen(r)
  }

  /** findPendingReleaseWithoutWorkflow: one of the newest open releases of the stage; ties fall to the map order. */
  ghost predicate IsPick(releases: map<string, Release>, projectID: string, stageID: string, pick: Option<Release>) {
    match pick
    case Some(r) =>
      && r.id in releases && releases[r.id] == r && Waits(r, projectID, stageID)
      && forall id :: id in releases && Waits(releases[id], projectID, stageID) ==> releases[id].createdAt <= r.createdAt
    case None => forall id :: id in releases ==> !Waits(releases[id], projectID, stageID)
  }

  // ---------------------------------------------------------------- stages

  datatype Resolved = Resolved(stageID: string, stages: map<string, Stage>)

  /** resolveReleaseStageID: a missing production stage is created; if its environment fails, it stays as failed and goes unused. */
  ghost function ResolveStage(stages: map<string, Stage>, projectID: string, slug: string, newID: string, created: bool): Resolved {
    match FindStage(stages, projectID, slug)
    case Some(id) => Resolved(id, stages)
    case None =>
      if slug != "production" then Resolved("", stages)
      else if created then Resolved(newID, stages[newID := Stage(newID, projectID, slug, StageActive)])
      else Resolved("", stages[newID := Stage(newID, projectID, slug, StageFailed)])
  }

  /** updateStageStatusFromRelease */
  function StagesAfter(stages: map<string, Stage>, r: Release): map<string, Stage> {
    if r.stageID == "" || r.stageID !in stages then stages
    else match r.status
         case Success => stages[r.stageID := stages[r.stageID].(status := StageActive)]
         case Failed => stages[r.stageID := stages[r.stageID].(status := StageFailed)]
         case _ => stages
  }

  // ---------------------------------------------------------------- webhooks

  datatype Payload = Payload(
    runID: int, status: string, conclusion: string, headSHA: string, path: string, stageSlug: string, imageTag: string,
    message: string, repositoryOwner: string, repositoryName: string)

  function WebhookStatus(status: string, conclusion: string): Option<ReleaseStatus> {
    if status == "in_progress" then Some(Building)
    else if status == "completed" && conclusion == "success" then Some(Success)
    else if status == "completed" then Some(Failed)
    else None
  }

  function WebhookSlug(payload: Payload): string {
    var slug := Names.Slug(payload.stageSlug);
    var slug' := if slug == "" then Names.StageSlugFromWorkflowPath(payload.path) else slug;
    if slug' == "" then "production" else slug'
  }

  function OrElse(text: string, fallback: string): string {
    if Trim(text) == "" then fallback else Trim(text)
  }

  function Attached(pending: Release, payload: Payload, now: int): Release {
    pending.(runID := payload.runID,
             commitSHA := OrElse(payload.headSHA, pending.commitSHA),
             commitMessage := OrElse(payload.message, pending.commitMessage),
             updatedAt := now)
  }

  function FromPayload(id: string, projectID: string, stageID: string, payload: Payload, now: int): Release {
    Release(id, projectID, stageID, payload.headSHA, payload.message, Pending, payload.runID, "", now, now)
  }

  /** The second half of the handler: an unrecognised status returns before anything is stored. */
  function Finished(s: Records, release: Release, payload: Payload, now: int): Records {
    match WebhookStatus(payload.status, payload.conclusion)
    case None => s
    case Some(status) =>
      var r := release.(status := status, imageTag := OrElse(payload.imageTag, release.imageTag), updatedAt := now);
      Records(s.releases[r.id := r], StagesAfter(s.stages, r))
  }

  /** What the surroundings decide during one delivery. */
  datatype Delivery = Delivery(
    project: Option<string>,  // the id of the project that the repository belongs to
    pick: Option<Release>,    // the open release that findPendingReleaseWithoutWorkflow returns
    newRelease: string, newStage: string, created: bool, now: int)

  ghost function Webhook(s: Records, payload: Payload, d: Delivery): Records {
    match FindRun(s.releases, payload.runID)
    case Some(id) => Finished(s, s.releases[id], payload, d.now)
    case None =>
      if d.project.None? then s
      else
        var stage := ResolveStage(s.stages, d.project.value, WebhookSlug(payload), d.newStage, d.created);
        var s1 := s.(stages := stage.stages);
        match d.pick
        case Some(pending) => Finished(s1, Attached(pending, payload, d.now), payload, d.now)
        case None =>
          var r := FromPayload(d.newRelease, d.project.value, stage.stageID, payload, d.now);
          Finished(s1.(releases := s1.releases[r.id := r]), r, payload, d.now)
  }

  /** Ids drawn for a new release and a new stage: nothing stored bears or mentions them. */
  predicate NewIDs(s: Records, newRelease: string, newStage: string) {
    && newRelease !in s.releases && newStage !in s.stages && newStage != ""
    && forall id :: id in s.releases ==> s.releases[id].stageID != newStage
  }

  ghost predicate LegalDelivery(s: Records, payload: Payload, d: Delivery) {
    && payload.runID != UNBOUND && NewIDs(s, d.newRelease, d.newStage)
    && (d.project.Some? ==>
          IsPick(s.releases, d.project.value,
                 ResolveStage(s.stages, d.project.value, WebhookSlug(payload), d.newStage, d.created).stageID, d.pick))
  }

  // ---------------------------------------------------------------- sync

  datatype WorkflowRun = WorkflowRun(
    id: int, status: string, conclusion: string, headSHA: string, commitMessage: string, updatedAt: Option<int>)

  function MapWorkflowRunStatus(status: string, conclusion: string): Option<ReleaseStatus> {
    if status == "in_progress" then Some(Building)
    else if status == "completed" && conclusion == "success" then Some(Success)
    else if status == "completed" then Some(Failed)
    else if status == "queued" || status == "requested" || status == "waiting" then Some(Pending)
    else None
  }

  function StatusOf(run: WorkflowRun): Option<ReleaseStatus> {
    MapWorkflowRunStatus(run.status, run.conclusion)
  }

  /** One stage of a sync: its slug, a copy of its newest open placeholder, and the runs that were found. */
  datatype Job = Job(slug: string, pending: Option<Release>, runs: seq<WorkflowRun>)

  /** New ids during a sync: a release created for a run gets the id drawn for that run. */
  datatype Supply = Supply(releaseFor: int -> string, newStage: string, created: bool, now: int)

  const PLACEHOLDER_MESSAGE := "Ожидает запуска деплоя из PR:"

  function Claimed(pending: Release, run: WorkflowRun, status: ReleaseStatus, now: int): Release {
    pending.(runID := run.id,
             commitSHA := OrElse(run.headSHA, pending.commitSHA),
             commitMessage := if pending.commitMessage == "" || PLACEHOLDER_MESSAGE <= pending.commitMessage
                              then run.commitMessage else pending.commitMessage,
             status := status,
             updatedAt := if run.updatedAt.Some? then run.updatedAt.value else now)
  }

  function Stored(s: Records, r: Release): Records {
    Records(s.releases[r.id := r], StagesAfter(s.stages, r))
  }

  datatype Progress = Progress(records: Records, pending: Option<Release>)

  /** The body of the inner loop. */
  ghost function SyncRun(at: Progress, projectID: string, slug: string, run: WorkflowRun, supply: Supply): Progress {
    var Progress(s, pending) := at;
    match StatusOf(run)
    case None => at
    case Some(status) =>
      match FindRun(s.releases, run.id)
      case Some(id) =>
        var existing := s.releases[id];
        if existing.status == status then at
        else Progress(Stored(s, existing.(status := status,
                                          updatedAt := if run.updatedAt.Some? then run.updatedAt.value else supply.now)), pending)
      case None =>
        match pending
        case Some(candidate) => Progress(Stored(s, Claimed(candidate, run, status, supply.now)), None)
        case None =>
          var stage := ResolveStage(s.stages, projectID, slug, supply.newStage, supply.created);
          var r := Release(supply.releaseFor(run.id), projectID, stage.stageID, run.headSHA, run.commitMessage, status, run.id, "",
                           supply.now, supply.now);
          Progress(Stored(s.(stages := stage.stages), r), None)
  }

  ghost function SyncRuns(at: Progress, projectID: string, slug: string, runs: seq<WorkflowRun>, supply: Supply): Progress {
    if runs == [] then at
    else SyncRun(SyncRuns(at, projectID, slug, runs[..|runs| - 1], supply), projectID, slug, runs[|runs| - 1], supply)
  }

  ghost function SyncJobs(s: Records, projectID: string, jobs: seq<Job>, supply: Supply): Records {
    if jobs == [] then s
    else
      var job := jobs[|jobs| - 1];
      SyncRuns(Progress(SyncJobs(s, projectID, jobs[..|jobs| - 1], supply), job.pending), projectID, job.slug, job.runs, supply).records
  }

  // ---------------------------------------------------------------- rollback and bootstrap

  predicate RollbackAllowed(s: Records, projectID: string, targetID: string) {
    && targetID in s.releases && s.releases[targetID].projectID == projectID
    && s.releases[targetID].status == Success && Trim(s.releases[targetID].imageTag) != ""
  }

  /** RollbackToRelease as one step: the record is closed again before anything else runs. */
  function RolledBack(s: Records, projectID: string, targetID: string, newID: string, message: string, applied: bool, now: int): Records {
    if !RollbackAllowed(s, projectID, targetID) then s
    else
      var target := s.releases[targetID];
      s.(releases := s.releases[newID := Release(newID, projectID, target.stageID, target.commitSHA, message,
                                                 if applied then Success else Failed, UNBOUND, target.imageTag, now, now)])
  }

  /** createBootstrapPendingRelease, for a response that carries a pull request. */
  function Bootstrapped(s: Records, projectID: string, stageID: string, newID: string, message: string, now: int): Records {
    s.(releases := s.releases[newID := Release(newID, projectID, stageID, "", message, Pending, UNBOUND, "", now, now)])
  }

  // ---------------------------------------------------------------- what GitHub reports

  datatype FeedRun = FeedRun(run: WorkflowRun, path: string, createdAt: int)

  const SLACK := 120000000000  // two minutes, in nanoseconds

  function Relevant(path: string, since: Option<int>): FeedRun -> bool {
    (f: FeedRun) =>
      && (if path != "" then f.path == path else Names.StageSlugFromWorkflowPath(Trim(f.path)) != "")
      && !(since.Some? && f.createdAt < since.value - SLACK)
  }

  /** Two minutes of slack before the given time; without a path, the files of all stages. */
  lemma RelevantRuns(feed: seq<FeedRun>, path: string, since: Option<int>, f: FeedRun)
    ensures f in Filter(feed, Relevant(path, since)) <==>
      && f in feed && (since.Some? ==> f.createdAt >= since.value - 120000000000)
      && (path != "" ==> f.path == path) && (path == "" ==> Names.StageSlugFromWorkflowPath(Trim(f.path)) != "")
  {
    FilterKeeps(feed, Relevant(path, since));
  }

  /** The filter loop of FindLatestDeployWorkflowRun. */
  method FindLatestDeployWorkflowRun(feed: seq<FeedRun>, path: string, since: Option<int>) returns (results: seq<FeedRun>)
    ensures results == Filter(feed, Relevant(path, since))
  {
    results := [];
    for i := 0 to |feed|
      invariant results == Filter(feed[..i], Relevant(path, since))
    {
      FilterStep(feed, i, Relevant(path, since));
      if path != "" {
        if feed[i].path != path {
          continue;
        }
      } else if Names.StageSlugFromWorkflowPath(Trim(feed[i].path)) == "" {
        continue;
      }
      if since.Some? && feed[i].createdAt < since.value - SLACK {
        continue;
      }
      results := results + [feed[i]];
    }
    assert feed[..|feed|] == feed;
  }
}
