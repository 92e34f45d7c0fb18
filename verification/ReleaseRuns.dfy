/** What holds of release records over every mix of webhooks, syncs, bootstraps and rollbacks. */
module ReleaseRuns {
  import opened Wrappers
  import opened Releases

  // ---------------------------------------------------------------- lookups under soundness

  lemma RunIsFound(s: Records, id: string)
    requires Sound(s) && id in s.releases && s.releases[id].runID != UNBOUND
    ensures FindRun(s.releases, s.releases[id].runID) == Some(id)
  {
    var found := FindRun(s.releases, s.releases[id].runID);
  }

  /** Writing a record that carries run `x` changes the status of that run and of no other. */
  lemma StatusAfterWrite(releases: map<string, Release>, r: Release, y: int)
    requires UniqueRuns(releases) && UniqueRuns(releases[r.id := r]) && y != UNBOUND && r.runID != UNBOUND
    requires r.id in releases ==> releases[r.id].runID == r.runID || releases[r.id].runID == UNBOUND
    ensures StatusOfRun(releases[r.id := r], y) == if y == r.runID then Some(r.status) else StatusOfRun(releases, y)
  {
    var releases' := releases[r.id := r];
    var before, after := FindRun(releases, y), FindRun(releases', y);
    if y == r.runID {
      assert releases'[r.id].runID == y;
    } else if before.Some? {
      assert releases'[before.value].runID == y;
    }
  }

  lemma StagesStayKeyed(stages: map<string, Stage>, r: Release)
    requires UniqueSlugs(stages) && forall id :: id in stages ==> stages[id].id == id
    ensures UniqueSlugs(StagesAfter(stages, r)) && forall id :: id in StagesAfter(stages, r) ==> StagesAfter(stages, r)[id].id == id
    ensures StagesAfter(stages, r).Keys == stages.Keys
  {
  }

  lemma ResolvedStagesStaySound(stages: map<string, Stage>, projectID: string, slug: string, newID: string, created: bool)
    requires UniqueSlugs(stages) && (forall id :: id in stages ==> stages[id].id == id)
    requires newID in stages && slug == "production" ==> FindStage(stages, projectID, slug).Some?
    ensures var stages' := ResolveStage(stages, projectID, slug, newID, created).stages;
      && UniqueSlugs(stages') && (forall id :: id in stages' ==> stages'[id].id == id)
      && stages.Keys <= stages'.Keys <= stages.Keys + {newID}
      && (newID in stages' && newID !in stages ==> stages'[newID].projectID == projectID && stages'[newID].slug == "production")
      && (forall id :: id in stages ==> stages'[id] == stages[id])
  {
    var found := FindStage(stages, projectID, slug);
  }

  // ---------------------------------------------------------------- one run of a sync

  /** The copy of the placeholder is still what the store holds. */
  ghost predicate Fits(s: Records, pending: Option<Release>) {
    pending.Some? ==> pending.value.id in s.releases && s.releases[pending.value.id] == pending.value && pending.value.runID == UNBOUND
  }

  /** The id drawn for a new stage is used for nothing but the project's production stage. */
  ghost predicate NewStageFits(s: Records, projectID: string, supply: Supply) {
    supply.newStage != "" && (supply.newStage in s.stages ==>
      s.stages[supply.newStage].projectID == projectID && s.stages[supply.newStage].slug == "production")
  }

  /** Ids drawn for runs are used for nothing else. */
  ghost predicate SupplyFits(s: Records, projectID: string, supply: Supply) {
    && (forall x: int, y: int :: supply.releaseFor(x) == supply.releaseFor(y) ==> x == y)
    && (forall x: int :: supply.releaseFor(x) in s.releases ==> s.releases[supply.releaseFor(x)].runID == x != UNBOUND)
    && NewStageFits(s, projectID, supply)
  }

  /** What one processed run leaves behind. */
  ghost predicate Processed(s: Records, s': Records, pending: Option<Release>, pending': Option<Release>, run: WorkflowRun) {
    var status := StatusOf(run);
    var isNew := status.Some? && FindRun(s.releases, run.id).None?;
    && (forall y: int :: y != UNBOUND ==>
          StatusOfRun(s'.releases, y) == if y == run.id && status.Some? then status else StatusOfRun(s.releases, y))
    && |s'.releases| == |s.releases| + (if isNew && pending.None? then 1 else 0)
    && pending' == (if isNew then None else pending)
    && s.releases.Keys <= s'.releases.Keys
    && (forall id :: id in s.releases && s.releases[id].runID == UNBOUND && pending != Some(s.releases[id]) ==>
          s'.releases[id] == s.releases[id])
  }

  /** A record may be written under its run: nobody else carries it, and the record is new, unbound or already there. */
  ghost predicate MayStore(s: Records, r: Release) {
    && r.runID != UNBOUND
    && (forall id :: id in s.releases && s.releases[id].runID == r.runID ==> id == r.id)
    && (r.id in s.releases ==> s.releases[r.id].runID == r.runID || s.releases[r.id].runID == UNBOUND)
  }

  lemma StoreKeepsSound(s: Records, r: Release)
    requires Sound(s) && MayStore(s, r)
    ensures Sound(Stored(s, r))
  {
    StagesStayKeyed(s.stages, r);
  }

  lemma StoreBound(s: Records, r: Release)
    requires Sound(s) && MayStore(s, r)
    ensures Sound(Stored(s, r))
    ensures forall y: int :: y != UNBOUND ==>
      StatusOfRun(Stored(s, r).releases, y) == if y == r.runID then Some(r.status) else StatusOfRun(s.releases, y)
    ensures |Stored(s, r).releases| == |s.releases| + if r.id in s.releases then 0 else 1
  {
    StoreKeepsSound(s, r);
    SizeAfterWrite(s.releases, r);
    forall y: int | y != UNBOUND
      ensures StatusOfRun(Stored(s, r).releases, y) == if y == r.runID then Some(r.status) else StatusOfRun(s.releases, y)
    {
      StatusAfterWrite(s.releases, r, y);
    }
  }

  lemma SizeAfterWrite(releases: map<string, Release>, r: Release)
    ensures |releases[r.id := r]| == |releases| + if r.id in releases then 0 else 1
  {
    assert releases[r.id := r].Keys == releases.Keys + {r.id};
  }

  lemma StoreKeepsStageNames(s: Records, r: Release)
    ensures Stored(s, r).stages.Keys == s.stages.Keys
    ensures forall id :: id in s.stages ==>
      Stored(s, r).stages[id].projectID == s.stages[id].projectID && Stored(s, r).stages[id].slug == s.stages[id].slug
  {
  }

  /** What storing a record under its run does, whichever path leads to it. */
  ghost predicate StoreEffect(s: Records, s': Records, r: Release) {
    && (forall y: int :: y != UNBOUND ==> StatusOfRun(s'.releases, y) == if y == r.runID then Some(r.status) else StatusOfRun(s.releases, y))
    && |s'.releases| == |s.releases| + (if r.id in s.releases then 0 else 1)
    && s'.releases == s.releases[r.id := r]
  }

  lemma StoreKeepsSupply(s: Records, r: Release, projectID: string, supply: Supply)
    requires MayStore(s, r) && SupplyFits(s, projectID, supply)
    requires r.id in s.releases || r.id == supply.releaseFor(r.runID)
    ensures SupplyFits(Stored(s, r), projectID, supply)
  {
    StoreKeepsStageNames(s, r);
  }

  lemma StoreRun(s: Records, r: Release, projectID: string, supply: Supply)
    requires Sound(s) && MayStore(s, r) && SupplyFits(s, projectID, supply)
    requires r.id in s.releases || r.id == supply.releaseFor(r.runID)
    ensures Sound(Stored(s, r)) && SupplyFits(Stored(s, r), projectID, supply) && StoreEffect(s, Stored(s, r), r)
  {
    StoreBound(s, r);
    StoreKeepsSupply(s, r, projectID, supply);
  }

  /** The new status of a run that some release carries. */
  lemma KnownRun(s: Records, id: string, projectID: string, pending: Option<Release>, run: WorkflowRun, r: Release, supply: Supply)
    requires Sound(s) && Fits(s, pending) && SupplyFits(s, projectID, supply) && run.id != UNBOUND
    requires FindRun(s.releases, run.id) == Some(id) && StatusOf(run) == Some(r.status) && r.id == id && r.runID == run.id
    ensures var s' := Stored(s, r);
      Sound(s') && Fits(s', pending) && SupplyFits(s', projectID, supply) && Processed(s, s', pending, pending, run)
  {
    RunIsFound(s, id);
    StoreRun(s, r, projectID, supply);
  }

  /** A run that takes the waiting placeholder. */
  lemma ClaimingRun(s: Records, projectID: string, pending: Release, run: WorkflowRun, r: Release, supply: Supply)
    requires Sound(s) && Fits(s, Some(pending)) && SupplyFits(s, projectID, supply) && run.id != UNBOUND
    requires FindRun(s.releases, run.id).None? && StatusOf(run) == Some(r.status) && r.id == pending.id && r.runID == run.id
    ensures var s' := Stored(s, r);
      Sound(s') && SupplyFits(s', projectID, supply) && Processed(s, s', Some(pending), None, run)
  {
    StoreRun(s, r, projectID, supply);
  }

  /** A run that gets a release of its own. */
  lemma NewRun(s: Records, stages: map<string, Stage>, projectID: string, run: WorkflowRun, r: Release, supply: Supply)
    requires Sound(s) && Sound(s.(stages := stages)) && run.id != UNBOUND
    requires SupplyFits(s, projectID, supply) && SupplyFits(s.(stages := stages), projectID, supply)
    requires FindRun(s.releases, run.id).None? && StatusOf(run) == Some(r.status) && r.id == supply.releaseFor(run.id) && r.runID == run.id
    ensures var s' := Stored(s.(stages := stages), r);
      Sound(s') && SupplyFits(s', projectID, supply) && Processed(s, s', None, None, run)
  {
    assert r.id !in s.releases;
    StoreRun(s.(stages := stages), r, projectID, supply);
  }

  lemma StagesKeepSupply(s: Records, projectID: string, slug: string, supply: Supply)
    requires Sound(s) && SupplyFits(s, projectID, supply)
    ensures var s1 := s.(stages := ResolveStage(s.stages, projectID, slug, supply.newStage, supply.created).stages);
      Sound(s1) && SupplyFits(s1, projectID, supply)
  {
    ResolvedStagesStaySound(s.stages, projectID, slug, supply.newStage, supply.created);
  }

  lemma OneRun(at: Progress, projectID: string, slug: string, run: WorkflowRun, supply: Supply)
    requires Sound(at.records) && Fits(at.records, at.pending) && SupplyFits(at.records, projectID, supply) && run.id != UNBOUND
    ensures var at' := SyncRun(at, projectID, slug, run, supply);
      && Sound(at'.records) && Fits(at'.records, at'.pending) && SupplyFits(at'.records, projectID, supply)
      && Processed(at.records, at'.records, at.pending, at'.pending, run)
  {
    var Progress(s, pending) := at;
    var status := StatusOf(run);
    if status.Some? {
      match FindRun(s.releases, run.id)
      case Some(id) =>
        if s.releases[id].status != status.value {
          var r := s.releases[id].(status := status.value,
                                   updatedAt := if run.updatedAt.Some? then run.updatedAt.value else supply.now);
          KnownRun(s, id, projectID, pending, run, r, supply);
        }
      case None =>
        match pending
        case Some(candidate) =>
          ClaimingRun(s, projectID, candidate, run, Claimed(candidate, run, status.value, supply.now), supply);
        case None =>
          StagesKeepSupply(s, projectID, slug, supply);
          var stage := ResolveStage(s.stages, projectID, slug, supply.newStage, supply.created);
          var r := Release(supply.releaseFor(run.id), projectID, stage.stageID, run.headSHA, run.commitMessage, status.value,
                           run.id, "", supply.now, supply.now);
          NewRun(s, stage.stages, projectID, run, r, supply);
    }
  }

  // ---------------------------------------------------------------- the runs of one stage

  /** The status that a list of runs gives to a run id. */
  function MappedIn(runs: seq<WorkflowRun>, y: int): Option<ReleaseStatus> {
    if runs == [] then None
    else
      var last := runs[|runs| - 1];
      if last.id == y && StatusOf(last).Some? then StatusOf(last) else MappedIn(runs[..|runs| - 1], y)
  }

  ghost predicate BoundRuns(runs: seq<WorkflowRun>) {
    forall i :: 0 <= i < |runs| ==> runs[i].id != UNBOUND
  }

  ghost predicate DistinctRuns(runs: seq<WorkflowRun>) {
    forall i, j :: 0 <= i < j < |runs| ==> runs[i].id != runs[j].id
  }

  /** How many of the runs have a status and no release yet. */
  ghost function NewRuns(releases: map<string, Release>, runs: seq<WorkflowRun>): nat {
    if runs == [] then 0
    else
      var last := runs[|runs| - 1];
      NewRuns(releases, runs[..|runs| - 1]) + if StatusOf(last).Some? && FindRun(releases, last.id).None? then 1 else 0
  }

  /** Each new run takes a new release, but for the first, which takes the placeholder if there is one. */
  ghost function GrowthOf(releases: map<string, Release>, job: Job): nat {
    var n := NewRuns(releases, job.runs);
    if job.pending.Some? && n > 0 then n - 1 else n
  }

  lemma {:induction false} MappedRunsAreListed(runs: seq<WorkflowRun>, y: int)
    ensures MappedIn(runs, y).Some? ==>
      exists i :: 0 <= i < |runs| && runs[i].id == y && StatusOf(runs[i]) == MappedIn(runs, y)
    ensures MappedIn(runs, y).None? ==> forall i :: 0 <= i < |runs| && runs[i].id == y ==> StatusOf(runs[i]).None?
  {
    if runs != [] {
      var front := runs[..|runs| - 1];
      MappedRunsAreListed(front, y);
      assert forall i :: 0 <= i < |front| ==> front[i] == runs[i];
    }
  }

  /** What a stage's runs leave behind, in whatever state the sync found the records. */
  ghost predicate StageProcessed(s: Records, s': Records, pending: Option<Release>, pending': Option<Release>, runs: seq<WorkflowRun>) {
    && (forall y: int :: y != UNBOUND ==>
          StatusOfRun(s'.releases, y) == if MappedIn(runs, y).Some? then MappedIn(runs, y) else StatusOfRun(s.releases, y))
    && (pending' == None || pending' == pending)
    && s.releases.Keys <= s'.releases.Keys
    && (forall id :: id in s.releases && s.releases[id].runID == UNBOUND && pending != Some(s.releases[id]) ==>
          s'.releases[id] == s.releases[id])
  }

  lemma ProcessOneMore(
    s: Records, mid: Records, s': Records, pending: Option<Release>, midPending: Option<Release>, pending': Option<Release>,
    runs: seq<WorkflowRun>)
    requires runs != [] && StageProcessed(s, mid, pending, midPending, runs[..|runs| - 1])
    requires Processed(mid, s', midPending, pending', runs[|runs| - 1])
    ensures StageProcessed(s, s', pending, pending', runs)
  {
    forall id | id in s.releases && s.releases[id].runID == UNBOUND && pending != Some(s.releases[id])
      ensures s'.releases[id] == s.releases[id]
    {
      assert mid.releases[id] == s.releases[id];
    }
  }

  lemma {:induction false} StageRuns(at: Progress, projectID: string, slug: string, runs: seq<WorkflowRun>, supply: Supply)
    requires Sound(at.records) && Fits(at.records, at.pending) && SupplyFits(at.records, projectID, supply) && BoundRuns(runs)
    ensures var at' := SyncRuns(at, projectID, slug, runs, supply);
      && Sound(at'.records) && Fits(at'.records, at'.pending) && SupplyFits(at'.records, projectID, supply)
      && StageProcessed(at.records, at'.records, at.pending, at'.pending, runs)
  {
    if runs != [] {
      var front, last := runs[..|runs| - 1], runs[|runs| - 1];
      StageRuns(at, projectID, slug, front, supply);
      var mid := SyncRuns(at, projectID, slug, front, supply);
      OneRun(mid, projectID, slug, last, supply);
      var at' := SyncRun(mid, projectID, slug, last, supply);
      ProcessOneMore(at.records, mid.records, at'.records, at.pending, mid.pending, at'.pending, runs);
    }
  }

  /** The runs before the last one say nothing about its id. */
  lemma LastRunIsUntouched(s: Records, s': Records, pending: Option<Release>, pending': Option<Release>, runs: seq<WorkflowRun>)
    requires runs != [] && DistinctRuns(runs) && runs[|runs| - 1].id != UNBOUND
    requires StageProcessed(s, s', pending, pending', runs[..|runs| - 1])
    ensures StatusOfRun(s'.releases, runs[|runs| - 1].id) == StatusOfRun(s.releases, runs[|runs| - 1].id)
  {
    MappedRunsAreListed(runs[..|runs| - 1], runs[|runs| - 1].id);
  }

  /** The count needs the run ids to be distinct. */
  lemma {:induction false} StageGrowth(at: Progress, projectID: string, slug: string, runs: seq<WorkflowRun>, supply: Supply)
    requires Sound(at.records) && Fits(at.records, at.pending) && SupplyFits(at.records, projectID, supply)
    requires BoundRuns(runs) && DistinctRuns(runs)
    ensures var at' := SyncRuns(at, projectID, slug, runs, supply);
      Grew(at.records.releases, at'.records.releases, at.pending, at'.pending, runs)
  {
    if runs != [] {
      var front, last := runs[..|runs| - 1], runs[|runs| - 1];
      StageGrowth(at, projectID, slug, front, supply);
      StageRuns(at, projectID, slug, front, supply);
      var mid := SyncRuns(at, projectID, slug, front, supply);
      OneRun(mid, projectID, slug, last, supply);
      var at' := SyncRun(mid, projectID, slug, last, supply);
      LastRunIsUntouched(at.records, mid.records, at.pending, mid.pending, runs);
      GrowsByOne(at.records, mid.records, at'.records, at.pending, mid.pending, at'.pending, runs);
    }
  }

  /** The stage's new runs each brought a release, but for the first if a placeholder waited. */
  ghost predicate Grew(
    releases: map<string, Release>, releases': map<string, Release>, pending: Option<Release>, pending': Option<Release>, runs: seq<WorkflowRun>)
  {
    var n := NewRuns(releases, runs);
    && pending' == (if n > 0 then None else pending)
    && |releases'| == |releases| + (if pending.Some? && n > 0 then n - 1 else n)
  }

  lemma GrowsByOne(
    s: Records, mid: Records, s': Records, pending: Option<Release>, midPending: Option<Release>, pending': Option<Release>, runs: seq<WorkflowRun>)
    requires runs != [] && Grew(s.releases, mid.releases, pending, midPending, runs[..|runs| - 1])
    requires Processed(mid, s', midPending, pending', runs[|runs| - 1])
    requires StatusOfRun(mid.releases, runs[|runs| - 1].id) == StatusOfRun(s.releases, runs[|runs| - 1].id)
    ensures Grew(s.releases, s'.releases, pending, pending', runs)
  {
  }

  // ---------------------------------------------------------------- all stages of one sync

  function MappedInJobs(jobs: seq<Job>, y: int): Option<ReleaseStatus> {
    if jobs == [] then None
    else
      var last := MappedIn(jobs[|jobs| - 1].runs, y);
      if last.Some? then last else MappedInJobs(jobs[..|jobs| - 1], y)
  }

  ghost function Growth(releases: map<string, Release>, jobs: seq<Job>): nat {
    if jobs == [] then 0 else Growth(releases, jobs[..|jobs| - 1]) + GrowthOf(releases, jobs[|jobs| - 1])
  }

  /** The jobs that a sync makes of the store: each placeholder copy is current and belongs to one stage only. */
  ghost predicate JobsFit(s: Records, jobs: seq<Job>) {
    && (forall i :: 0 <= i < |jobs| ==> Fits(s, jobs[i].pending) && BoundRuns(jobs[i].runs))
    && forall i, j :: 0 <= i < j < |jobs| && jobs[i].pending.Some? ==> jobs[i].pending != jobs[j].pending
  }

  ghost predicate DistinctJobs(jobs: seq<Job>) {
    && (forall i :: 0 <= i < |jobs| ==> DistinctRuns(jobs[i].runs))
    && forall i, j, a, b :: 0 <= i < j < |jobs| && 0 <= a < |jobs[i].runs| && 0 <= b < |jobs[j].runs| ==>
         jobs[i].runs[a].id != jobs[j].runs[b].id
  }

  ghost predicate SyncProcessed(s: Records, s': Records, jobs: seq<Job>) {
    && (forall y: int :: y != UNBOUND ==>
          StatusOfRun(s'.releases, y) == if MappedInJobs(jobs, y).Some? then MappedInJobs(jobs, y) else StatusOfRun(s.releases, y))
    && s.releases.Keys <= s'.releases.Keys
    && (forall id :: id in s.releases && s.releases[id].runID == UNBOUND
                     && (forall i :: 0 <= i < |jobs| ==> jobs[i].pending != Some(s.releases[id])) ==>
          s'.releases[id] == s.releases[id])
  }

  lemma JobOneMore(s: Records, mid: Records, s': Records, front: seq<Job>, job: Job, pending': Option<Release>)
    requires SyncProcessed(s, mid, front) && StageProcessed(mid, s', job.pending, pending', job.runs)
    ensures SyncProcessed(s, s', front + [job])
  {
    var jobs := front + [job];
    assert jobs[..|front|] == front;
    forall id | id in s.releases && s.releases[id].runID == UNBOUND
                && (forall i :: 0 <= i < |jobs| ==> jobs[i].pending != Some(s.releases[id]))
      ensures s'.releases[id] == s.releases[id]
    {
      assert forall i :: 0 <= i < |front| ==> front[i] == jobs[i];
      assert mid.releases[id] == s.releases[id];
      assert jobs[|front|] == job;
    }
  }

  lemma {:induction false} SyncAllJobs(s: Records, projectID: string, jobs: seq<Job>, supply: Supply)
    requires Sound(s) && SupplyFits(s, projectID, supply) && JobsFit(s, jobs)
    ensures var s' := SyncJobs(s, projectID, jobs, supply);
      Sound(s') && SupplyFits(s', projectID, supply) && SyncProcessed(s, s', jobs)
  {
    if jobs != [] {
      var front, job := jobs[..|jobs| - 1], jobs[|jobs| - 1];
      SyncAllJobs(s, projectID, front, supply);
      var mid := SyncJobs(s, projectID, front, supply);
      LastJobFits(s, mid, jobs);
      StageRuns(Progress(mid, job.pending), projectID, job.slug, job.runs, supply);
      var at' := SyncRuns(Progress(mid, job.pending), projectID, job.slug, job.runs, supply);
      JobOneMore(s, mid, at'.records, front, job, at'.pending);
      assert front + [job] == jobs;
    }
  }

  lemma LastJobFits(s: Records, mid: Records, jobs: seq<Job>)
    requires jobs != [] && JobsFit(s, jobs) && SyncProcessed(s, mid, jobs[..|jobs| - 1])
    ensures Fits(mid, jobs[|jobs| - 1].pending)
  {
    var front, job := jobs[..|jobs| - 1], jobs[|jobs| - 1];
    if job.pending.Some? {
      var id := job.pending.value.id;
      forall i | 0 <= i < |front|
        ensures front[i].pending != Some(s.releases[id])
      {
        assert front[i] == jobs[i];
      }
    }
  }

  lemma {:induction false} NewRunsAgree(a: map<string, Release>, b: map<string, Release>, runs: seq<WorkflowRun>)
    requires forall i :: 0 <= i < |runs| ==> StatusOfRun(a, runs[i].id) == StatusOfRun(b, runs[i].id)
    ensures NewRuns(a, runs) == NewRuns(b, runs)
  {
    if runs != [] {
      NewRunsAgree(a, b, runs[..|runs| - 1]);
    }
  }

  lemma {:induction false} MappedInJobsIsListed(jobs: seq<Job>, y: int)
    ensures MappedInJobs(jobs, y).Some? ==>
      exists i, a :: 0 <= i < |jobs| && 0 <= a < |jobs[i].runs| && jobs[i].runs[a].id == y && StatusOf(jobs[i].runs[a]) == MappedInJobs(jobs, y)
    ensures MappedInJobs(jobs, y).None? ==>
      forall i, a :: 0 <= i < |jobs| && 0 <= a < |jobs[i].runs| && jobs[i].runs[a].id == y ==> StatusOf(jobs[i].runs[a]).None?
  {
    if jobs != [] {
      var front := jobs[..|jobs| - 1];
      MappedRunsAreListed(jobs[|front|].runs, y);
      MappedInJobsIsListed(front, y);
      assert forall i :: 0 <= i < |front| ==> front[i] == jobs[i];
    }
  }

  lemma {:induction false} SyncGrowth(s: Records, projectID: string, jobs: seq<Job>, supply: Supply)
    requires Sound(s) && SupplyFits(s, projectID, supply) && JobsFit(s, jobs) && DistinctJobs(jobs)
    ensures |SyncJobs(s, projectID, jobs, supply).releases| == |s.releases| + Growth(s.releases, jobs)
  {
    if jobs != [] {
      var front, job := jobs[..|jobs| - 1], jobs[|jobs| - 1];
      SyncGrowth(s, projectID, front, supply);
      SyncAllJobs(s, projectID, front, supply);
      var mid := SyncJobs(s, projectID, front, supply);
      LastJobFits(s, mid, jobs);
      StageGrowth(Progress(mid, job.pending), projectID, job.slug, job.runs, supply);
      forall a | 0 <= a < |job.runs|
        ensures StatusOfRun(mid.releases, job.runs[a].id) == StatusOfRun(s.releases, job.runs[a].id)
      {
        MappedInJobsIsListed(front, job.runs[a].id);
        assert forall i :: 0 <= i < |front| ==> front[i] == jobs[i];
        assert jobs[|front|] == job;
      }
      NewRunsAgree(mid.releases, s.releases, job.runs);
    }
  }

  // ---------------------------------------------------------------- results about one sync

  ghost predicate BoundToOne(releases: map<string, Release>, runID: int, status: ReleaseStatus) {
    exists id :: id in releases && releases[id].runID == runID && releases[id].status == status
                 && forall other :: other in releases && releases[other].runID == runID ==> other == id
  }

  /** One sync binds every run with a status to exactly one release, with that status, and creates no release too many. */
  lemma SyncBindsEveryRun(s: Records, projectID: string, jobs: seq<Job>, supply: Supply)
    requires Sound(s) && SupplyFits(s, projectID, supply) && JobsFit(s, jobs) && DistinctJobs(jobs)
    ensures var s' := SyncJobs(s, projectID, jobs, supply);
      && (forall i, a :: 0 <= i < |jobs| && 0 <= a < |jobs[i].runs| && StatusOf(jobs[i].runs[a]).Some? ==>
            BoundToOne(s'.releases, jobs[i].runs[a].id, StatusOf(jobs[i].runs[a]).value))
      && |s'.releases| == |s.releases| + Growth(s.releases, jobs)
  {
    SyncGrowth(s, projectID, jobs, supply);
    SyncAllJobs(s, projectID, jobs, supply);
    var s' := SyncJobs(s, projectID, jobs, supply);
    forall i, a | 0 <= i < |jobs| && 0 <= a < |jobs[i].runs| && StatusOf(jobs[i].runs[a]).Some?
      ensures BoundToOne(s'.releases, jobs[i].runs[a].id, StatusOf(jobs[i].runs[a]).value)
    {
      var run := jobs[i].runs[a];
      MappedIsTheRun(jobs, i, a);
      assert StatusOfRun(s'.releases, run.id) == StatusOf(run);
      var id := FindRun(s'.releases, run.id).value;
      assert s'.releases[id].runID == run.id;
    }
  }

  lemma MappedIsTheRun(jobs: seq<Job>, i: int, a: int)
    requires DistinctJobs(jobs) && 0 <= i < |jobs| && 0 <= a < |jobs[i].runs| && StatusOf(jobs[i].runs[a]).Some?
    ensures MappedInJobs(jobs, jobs[i].runs[a].id) == StatusOf(jobs[i].runs[a])
  {
    var y := jobs[i].runs[a].id;
    MappedInJobsIsListed(jobs, y);
    var j, b :| 0 <= j < |jobs| && 0 <= b < |jobs[j].runs| && jobs[j].runs[b].id == y && StatusOf(jobs[j].runs[b]) == MappedInJobs(jobs, y);
    assert i == j;
    assert DistinctRuns(jobs[i].runs);
    assert a == b;
  }

  ghost predicate Hands(jobs: seq<Job>, run: WorkflowRun) {
    exists i, a :: 0 <= i < |jobs| && 0 <= a < |jobs[i].runs| && jobs[i].runs[a] == run
  }

  /** Which status each run ends with depends only on the runs that the sync is handed, not on how stages or placeholders come up. */
  lemma StageOrderDoesNotMatter(s: Records, projectID: string, jobs: seq<Job>, jobs': seq<Job>, supply: Supply, supply': Supply, y: int)
    requires Sound(s) && SupplyFits(s, projectID, supply) && SupplyFits(s, projectID, supply')
    requires JobsFit(s, jobs) && DistinctJobs(jobs) && JobsFit(s, jobs') && DistinctJobs(jobs')
    requires (forall run :: Hands(jobs, run) <==> Hands(jobs', run)) && y != UNBOUND
    ensures StatusOfRun(SyncJobs(s, projectID, jobs, supply).releases, y) == StatusOfRun(SyncJobs(s, projectID, jobs', supply').releases, y)
  {
    SyncAllJobs(s, projectID, jobs, supply);
    SyncAllJobs(s, projectID, jobs', supply');
    SameRunsMapped(jobs, jobs', y);
    SameRunsMapped(jobs', jobs, y);
  }

  lemma SameRunsMapped(jobs: seq<Job>, jobs': seq<Job>, y: int)
    requires DistinctJobs(jobs') && forall run :: Hands(jobs, run) ==> Hands(jobs', run)
    ensures MappedInJobs(jobs, y).Some? ==> MappedInJobs(jobs', y) == MappedInJobs(jobs, y)
  {
    MappedInJobsIsListed(jobs, y);
    if MappedInJobs(jobs, y).Some? {
      var i, a :| 0 <= i < |jobs| && 0 <= a < |jobs[i].runs| && jobs[i].runs[a].id == y
                  && StatusOf(jobs[i].runs[a]) == MappedInJobs(jobs, y);
      assert Hands(jobs, jobs[i].runs[a]);
      var j, b :| 0 <= j < |jobs'| && 0 <= b < |jobs'[j].runs| && jobs'[j].runs[b] == jobs[i].runs[a];
      MappedIsTheRun(jobs', j, b);
    }
  }

  /** Runs that are already where they should be leave everything as it is, time stamps included. */
  lemma {:induction false} SettledRunsChangeNothing(at: Progress, projectID: string, slug: string, runs: seq<WorkflowRun>, supply: Supply)
    requires forall a :: 0 <= a < |runs| && StatusOf(runs[a]).Some? ==> StatusOfRun(at.records.releases, runs[a].id) == StatusOf(runs[a])
    ensures SyncRuns(at, projectID, slug, runs, supply) == at
  {
    if runs != [] {
      SettledRunsChangeNothing(at, projectID, slug, runs[..|runs| - 1], supply);
    }
  }

  lemma {:induction false} SettledJobsChangeNothing(s: Records, projectID: string, jobs: seq<Job>, supply: Supply)
    requires forall i, a :: 0 <= i < |jobs| && 0 <= a < |jobs[i].runs| && StatusOf(jobs[i].runs[a]).Some? ==>
      StatusOfRun(s.releases, jobs[i].runs[a].id) == StatusOf(jobs[i].runs[a])
    ensures SyncJobs(s, projectID, jobs, supply) == s
  {
    if jobs != [] {
      var front, job := jobs[..|jobs| - 1], jobs[|jobs| - 1];
      assert forall i :: 0 <= i < |front| ==> front[i] == jobs[i];
      SettledJobsChangeNothing(s, projectID, front, supply);
      SettledRunsChangeNothing(Progress(s, job.pending), projectID, job.slug, job.runs, supply);
    }
  }

  /** A second sync that is handed no run the first was not handed changes nothing, whatever it makes of the stages. */
  lemma SyncIsIdempotent(s: Records, projectID: string, jobs: seq<Job>, supply: Supply, again: seq<Job>, supply': Supply)
    requires Sound(s) && SupplyFits(s, projectID, supply) && JobsFit(s, jobs) && DistinctJobs(jobs)
    requires forall run :: Hands(again, run) ==> Hands(jobs, run)
    ensures var s' := SyncJobs(s, projectID, jobs, supply); SyncJobs(s', projectID, again, supply') == s'
  {
    SyncAllJobs(s, projectID, jobs, supply);
    var s' := SyncJobs(s, projectID, jobs, supply);
    forall k, b | 0 <= k < |again| && 0 <= b < |again[k].runs| && StatusOf(again[k].runs[b]).Some?
      ensures StatusOfRun(s'.releases, again[k].runs[b].id) == StatusOf(again[k].runs[b])
    {
      assert Hands(again, again[k].runs[b]);
      var i, a :| 0 <= i < |jobs| && 0 <= a < |jobs[i].runs| && jobs[i].runs[a] == again[k].runs[b];
      MappedIsTheRun(jobs, i, a);
      assert BoundRuns(jobs[i].runs);
    }
    SettledJobsChangeNothing(s', projectID, again, supply');
  }
}
