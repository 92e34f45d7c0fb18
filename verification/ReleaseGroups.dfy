/** What a sync makes of a listing: which stages it asks GitHub about, since when, and which placeholder it keeps a copy of. */
module ReleaseGroups {
  import opened Wrappers
  import opened Sequences
  import opened Releases
  import opened ReleaseRuns
  import Names

  /** A slice that ListByProject may return: every release of the project once, in any order. */
  ghost predicate IsReleaseListing(listing: seq<Release>, releases: map<string, Release>, projectID: string) {
    && NoDuplicates(listing)
    && forall r: Release :: r in listing <==> r.id in releases && releases[r.id] == r && r.projectID == projectID
  }

  /** The slug under which a sync files a release. */
  function SlugOf(r: Release, stages: map<string, Stage>): string {
    if r.stageID != "" && r.stageID in stages then stages[r.stageID].slug else "production"
  }

  /** A release that a sync may give a run to. */
  predicate IsCandidate(r: Release) {
    r.runID == UNBOUND && (r.status == Pending || r.status == Building)
  }

  datatype StageInfo = StageInfo(since: int, pending: Option<Release>)

  /** What one more release changes about its stage. */
  function Noted(before: StageInfo, r: Release): StageInfo {
    StageInfo(if r.createdAt > before.since then r.createdAt else before.since,
              if IsCandidate(r) && (before.pending.None? || r.createdAt > before.pending.value.createdAt) then Some(r) else before.pending)
  }

  /** The first loop of a sync, as a function of the listing. */
  function StagesOf(listing: seq<Release>, stages: map<string, Stage>): map<string, StageInfo> {
    if listing == [] then map[]
    else
      var front, r := StagesOf(listing[..|listing| - 1], stages), listing[|listing| - 1];
      var slug := SlugOf(r, stages);
      front[slug := Noted(if slug in front then front[slug] else StageInfo(r.createdAt, None), r)]
  }

  function JobFor(slug: string, byStage: map<string, StageInfo>, lookup: (string, int) -> seq<WorkflowRun>): Job
    requires slug in byStage
  {
    Job(slug, byStage[slug].pending, lookup(Names.StageWorkflowPath(slug), byStage[slug].since))
  }

  /** The second loop, when it meets the stages in this order. */
  function JobsFor(order: seq<string>, byStage: map<string, StageInfo>, lookup: (string, int) -> seq<WorkflowRun>): (jobs: seq<Job>)
    requires AllIn(order, byStage)
    ensures |jobs| == |order|
  {
    if order == [] then []
    else JobsFor(order[..|order| - 1], byStage, lookup) + [JobFor(order[|order| - 1], byStage, lookup)]
  }

  predicate AllIn(order: seq<string>, byStage: map<string, StageInfo>) {
    forall i :: 0 <= i < |order| ==> order[i] in byStage
  }

  /** Every stage once. */
  ghost predicate IsOrder(order: seq<string>, byStage: map<string, StageInfo>) {
    AllIn(order, byStage) && NoDuplicates(order) && forall slug :: slug in byStage ==> slug in order
  }

  /** GitHub never answers with a run that has no id. */
  ghost predicate BoundAnswers(lookup: (string, int) -> seq<WorkflowRun>) {
    forall path: string, since: int :: BoundRuns(lookup(path, since))
  }

  // ---------------------------------------------------------------- what the two loops of a sync do

  /** What the first loop knows about one stage: the newest creation time, and one of the newest candidates. */
  ghost predicate Describes(info: StageInfo, slug: string, listing: seq<Release>, stages: map<string, Stage>) {
    && (exists r :: r in listing && SlugOf(r, stages) == slug && r.createdAt == info.since)
    && (forall r :: r in listing && SlugOf(r, stages) == slug ==> r.createdAt <= info.since)
    && (info.pending.Some? ==> info.pending.value in listing && IsCandidate(info.pending.value) && SlugOf(info.pending.value, stages) == slug)
    && (forall r :: r in listing && IsCandidate(r) && SlugOf(r, stages) == slug ==>
          info.pending.Some? && r.createdAt <= info.pending.value.createdAt)
  }

  lemma DescribesOneMore(before: StageInfo, slug: string, front: seq<Release>, r: Release, stages: map<string, Stage>)
    requires Describes(before, slug, front, stages) && SlugOf(r, stages) == slug
    ensures Describes(Noted(before, r), slug, front + [r], stages)
  {
    var listing := front + [r];
    assert forall x :: x in listing <==> x in front || x == r;
    var x :| x in front && SlugOf(x, stages) == slug && x.createdAt == before.since;
    assert x in listing && r in listing;
  }

  lemma DescribesFirst(slug: string, front: seq<Release>, r: Release, stages: map<string, Stage>)
    requires SlugOf(r, stages) == slug && forall x :: x in front ==> SlugOf(x, stages) != slug
    ensures Describes(Noted(StageInfo(r.createdAt, None), r), slug, front + [r], stages)
  {
    assert forall x :: x in front + [r] <==> x in front || x == r;
    assert r in front + [r];
  }

  lemma DescribesOther(info: StageInfo, slug: string, front: seq<Release>, r: Release, stages: map<string, Stage>)
    requires Describes(info, slug, front, stages) && SlugOf(r, stages) != slug
    ensures Describes(info, slug, front + [r], stages)
  {
    assert forall x :: x in front + [r] <==> x in front || x == r;
    var x :| x in front && SlugOf(x, stages) == slug && x.createdAt == info.since;
    assert x in front + [r];
  }

  /** The grouping has exactly the slugs of the listing's releases, and describes each of them. */
  lemma {:induction false} GroupingDescribes(listing: seq<Release>, stages: map<string, Stage>, slug: string)
    ensures slug in StagesOf(listing, stages) <==> exists r :: r in listing && SlugOf(r, stages) == slug
    ensures slug in StagesOf(listing, stages) ==> Describes(StagesOf(listing, stages)[slug], slug, listing, stages)
  {
    if listing != [] {
      var front, r := listing[..|listing| - 1], listing[|listing| - 1];
      var before := StagesOf(front, stages);
      assert listing == front + [r];
      GroupingDescribes(front, stages, slug);
      if SlugOf(r, stages) != slug {
        if slug in before {
          DescribesOther(before[slug], slug, front, r, stages);
        }
      } else if slug in before {
        DescribesOneMore(before[slug], slug, front, r, stages);
      } else {
        DescribesFirst(slug, front, r, stages);
      }
    }
  }

  lemma {:induction false} JobsForAt(order: seq<string>, byStage: map<string, StageInfo>, lookup: (string, int) -> seq<WorkflowRun>, i: nat)
    requires AllIn(order, byStage) && i < |order|
    ensures JobsFor(order, byStage, lookup)[i] == JobFor(order[i], byStage, lookup)
  {
    if i < |order| - 1 {
      JobsForAt(order[..|order| - 1], byStage, lookup, i);
    }
  }

  lemma JobFits(slug: string, s: Records, listing: seq<Release>, projectID: string, lookup: (string, int) -> seq<WorkflowRun>)
    requires IsReleaseListing(listing, s.releases, projectID) && BoundAnswers(lookup) && slug in StagesOf(listing, s.stages)
    ensures var job := JobFor(slug, StagesOf(listing, s.stages), lookup);
      && Fits(s, job.pending) && BoundRuns(job.runs)
      && (job.pending.Some? ==> SlugOf(job.pending.value, s.stages) == slug)
  {
    GroupingDescribes(listing, s.stages, slug);
  }

  /** Placeholder copies are current, and two stages never share one, because a release belongs to one slug. */
  lemma JobsForFit(order: seq<string>, s: Records, listing: seq<Release>, projectID: string, lookup: (string, int) -> seq<WorkflowRun>)
    requires NoDuplicates(order) && AllIn(order, StagesOf(listing, s.stages))
    requires IsReleaseListing(listing, s.releases, projectID) && BoundAnswers(lookup)
    ensures JobsFit(s, JobsFor(order, StagesOf(listing, s.stages), lookup))
  {
    var byStage := StagesOf(listing, s.stages);
    var jobs := JobsFor(order, byStage, lookup);
    forall i | 0 <= i < |order|
      ensures Fits(s, jobs[i].pending) && BoundRuns(jobs[i].runs)
      ensures jobs[i].pending.Some? ==> SlugOf(jobs[i].pending.value, s.stages) == order[i]
    {
      JobsForAt(order, byStage, lookup, i);
      JobFits(order[i], s, listing, projectID, lookup);
    }
  }

  lemma SyncJobsOneMore(s: Records, projectID: string, done: seq<Job>, job: Job, supply: Supply)
    ensures SyncJobs(s, projectID, done + [job], supply)
         == SyncRuns(Progress(SyncJobs(s, projectID, done, supply), job.pending), projectID, job.slug, job.runs, supply).records
  {
    assert (done + [job])[..|done|] == done;
  }

  lemma NextJobFits(
    order: seq<string>, slug: string, s: Records, listing: seq<Release>, projectID: string,
    lookup: (string, int) -> seq<WorkflowRun>, supply: Supply)
    requires Sound(s) && SupplyFits(s, projectID, supply) && BoundAnswers(lookup) && IsReleaseListing(listing, s.releases, projectID)
    requires slug in StagesOf(listing, s.stages) && AllIn(order, StagesOf(listing, s.stages)) && NoDuplicates(order + [slug])
    ensures var byStage := StagesOf(listing, s.stages);
      var done, job := JobsFor(order, byStage, lookup), JobFor(slug, byStage, lookup);
      var mid := SyncJobs(s, projectID, done, supply);
      && JobsFor(order + [slug], byStage, lookup) == done + [job]
      && Sound(mid) && SupplyFits(mid, projectID, supply) && Fits(mid, job.pending) && BoundRuns(job.runs)
  {
    var byStage := StagesOf(listing, s.stages);
    var done, job := JobsFor(order, byStage, lookup), JobFor(slug, byStage, lookup);
    assert (order + [slug])[..|order|] == order;
    assert forall i, j :: 0 <= i < j < |order| ==> (order + [slug])[i] == order[i] && (order + [slug])[j] == order[j];
    JobsForFit(order, s, listing, projectID, lookup);
    JobsForFit(order + [slug], s, listing, projectID, lookup);
    SyncAllJobs(s, projectID, done, supply);
    var jobs := done + [job];
    assert jobs[..|jobs| - 1] == done && jobs[|jobs| - 1] == job;
    LastJobFits(s, SyncJobs(s, projectID, done, supply), jobs);
  }

  /** The same for any grouping, however old. */
  lemma {:induction false} JobsForAreBound(order: seq<string>, byStage: map<string, StageInfo>, lookup: (string, int) -> seq<WorkflowRun>)
    requires AllIn(order, byStage) && BoundAnswers(lookup)
    ensures forall i :: 0 <= i < |order| ==> BoundRuns(JobsFor(order, byStage, lookup)[i].runs)
  {
    forall i | 0 <= i < |order|
      ensures BoundRuns(JobsFor(order, byStage, lookup)[i].runs)
    {
      JobsForAt(order, byStage, lookup, i);
    }
  }

  lemma JobsForOneMore(order: seq<string>, slug: string, byStage: map<string, StageInfo>, lookup: (string, int) -> seq<WorkflowRun>)
    requires AllIn(order, byStage) && slug in byStage
    ensures AllIn(order + [slug], byStage)
    ensures JobsFor(order + [slug], byStage, lookup) == JobsFor(order, byStage, lookup) + [JobFor(slug, byStage, lookup)]
  {
    assert (order + [slug])[..|order|] == order;
  }
}
