/**
 Syncs as a caller sees them: the records are those of some run of the system, GitHub answers from one feed, and both
 maps that a sync walks, the releases of the project and the stages they belong to, come in an order nobody controls.
 */
module ReleaseOrder {
  import opened Wrappers
  import opened Sequences
  import opened Text
  import opened Projects
  import opened Releases
  import opened ReleaseRuns
  import opened ReleaseGroups
  import opened ReleaseEffects
  import opened ReleaseCopies
  import opened ReleaseHistory
  import opened ReleaseService
  import Names

  // ---------------------------------------------------------------- what GitHub answers

  /** Every run has an id of its own. */
  ghost predicate CleanFeed(feed: seq<FeedRun>) {
    && (forall i :: 0 <= i < |feed| ==> feed[i].run.id != UNBOUND)
    && forall i, j :: 0 <= i < j < |feed| ==> feed[i].run.id != feed[j].run.id
  }

  function RunsOf(found: seq<FeedRun>): seq<WorkflowRun> {
    seq(|found|, i requires 0 <= i < |found| => found[i].run)
  }

  /** What FindLatestDeployWorkflowRun finds in the feed. */
  function Shown(feed: seq<FeedRun>, path: string, since: int): seq<WorkflowRun> {
    RunsOf(Filter(feed, Relevant(path, Some(since))))
  }

  function Answers(feed: seq<FeedRun>): (string, int) -> seq<WorkflowRun> {
    (path: string, since: int) => Shown(feed, path, since)
  }

  /** The jobs that a sync makes of the project's releases, when it meets them and their stages in this order. */
  function SyncJobsOf(s: Records, listing: seq<Release>, order: seq<string>, feed: seq<FeedRun>): seq<Job>
    requires AllIn(order, StagesOf(listing, s.stages))
  {
    JobsFor(order, StagesOf(listing, s.stages), Answers(feed))
  }

  lemma {:induction false} FilterStaysClean(feed: seq<FeedRun>, keep: FeedRun -> bool)
    requires CleanFeed(feed)
    ensures CleanFeed(Filter(feed, keep))
  {
    if feed != [] {
      var front, last := feed[..|feed| - 1], feed[|feed| - 1];
      FilterStaysClean(front, keep);
      FilterKeeps(front, keep);
      var kept := Filter(front, keep);
      forall i | 0 <= i < |kept|
        ensures kept[i].run.id != last.run.id
      {
        assert kept[i] in front;
      }
    }
  }

  lemma ShownRun(feed: seq<FeedRun>, path: string, since: int, a: nat) returns (i: nat)
    requires a < |Shown(feed, path, since)|
    ensures i < |feed| && feed[i].run == Shown(feed, path, since)[a] && Relevant(path, Some(since))(feed[i])
  {
    FilterKeeps(feed, Relevant(path, Some(since)));
    var f := Filter(feed, Relevant(path, Some(since)))[a];
    assert f in Filter(feed, Relevant(path, Some(since)));
    i :| 0 <= i < |feed| && feed[i] == f;
  }

  lemma AnswersAreBound(feed: seq<FeedRun>)
    requires CleanFeed(feed)
    ensures BoundAnswers(Answers(feed))
  {
    forall path: string, since: int
      ensures BoundRuns(Answers(feed)(path, since))
    {
      FilterStaysClean(feed, Relevant(path, Some(since)));
    }
  }

  ghost predicate Apart(runs: seq<WorkflowRun>, runs': seq<WorkflowRun>) {
    forall a, b :: 0 <= a < |runs| && 0 <= b < |runs'| ==> runs[a].id != runs'[b].id
  }

  lemma PathsApart(slug: string, slug': string)
    requires IsCanonical(slug) && IsCanonical(slug') && slug != slug'
    ensures Names.StageWorkflowPath(slug) != Names.StageWorkflowPath(slug')
  {
    Names.SlugFixed(slug);
    Names.SlugFixed(slug');
    if Names.StageWorkflowPath(slug) == Names.StageWorkflowPath(slug') {
      Names.WorkflowPathsAreInjective(slug, slug');
    }
  }

  lemma PathsGetDisjointRuns(feed: seq<FeedRun>, path: string, path': string, since: int, since': int)
    requires CleanFeed(feed) && path != path' && path != "" && path' != ""
    ensures Apart(Shown(feed, path, since), Shown(feed, path', since'))
  {
    var runs, runs' := Shown(feed, path, since), Shown(feed, path', since');
    forall a, b | 0 <= a < |runs| && 0 <= b < |runs'|
      ensures runs[a].id != runs'[b].id
    {
      var i := ShownRun(feed, path, since, a);
      var j := ShownRun(feed, path', since', b);
      assert feed[i].path != feed[j].path;
    }
  }

  /** Two stages are never handed the same run, because a run has one path and a path belongs to one slug. */
  lemma StagesGetDisjointRuns(feed: seq<FeedRun>, slug: string, slug': string, since: int, since': int)
    requires CleanFeed(feed) && IsCanonical(slug) && IsCanonical(slug') && slug != slug'
    ensures Apart(Shown(feed, Names.StageWorkflowPath(slug), since), Shown(feed, Names.StageWorkflowPath(slug'), since'))
  {
    PathsApart(slug, slug');
    PathsGetDisjointRuns(feed, Names.StageWorkflowPath(slug), Names.StageWorkflowPath(slug'), since, since');
  }

  // ---------------------------------------------------------------- the jobs of a sync

  /** The stages that CreateStage makes are those that the runs of the system allow. */
  lemma CreatedStageMayBeAdded(
    h: History, projects: map<string, Project>, projectID: string, userID: string, name: string, newID: string, reachable: bool, status: StageStatus)
    requires AcceptsStage(projects, h.records.stages, projectID, userID, Names.Slug(Trim(name)), reachable)
    requires newID !in h.records.stages && newID != ""
    ensures Legal(h, StageAdded(Stage(newID, projectID, Names.Slug(Trim(name)), status)))
  {
    Names.SlugsAreTheFixedPoints(Trim(name));
  }

  lemma GroupedSlugsAreCanonical(listing: seq<Release>, stages: map<string, Stage>, slug: string)
    requires CanonicalSlugs(stages) && slug in StagesOf(listing, stages)
    ensures IsCanonical(slug)
  {
    GroupingDescribes(listing, stages, slug);
    var r :| r in listing && SlugOf(r, stages) == slug;
    ProductionIsCanonical();
  }

  /** No run is handed to two stages, nor twice to one. */
  lemma JobsForAreDistinct(s: Records, listing: seq<Release>, order: seq<string>, feed: seq<FeedRun>)
    requires NoDuplicates(order) && AllIn(order, StagesOf(listing, s.stages)) && CanonicalSlugs(s.stages) && CleanFeed(feed)
    ensures DistinctJobs(SyncJobsOf(s, listing, order, feed))
  {
    var byStage := StagesOf(listing, s.stages);
    var jobs := SyncJobsOf(s, listing, order, feed);
    forall i | 0 <= i < |jobs|
      ensures DistinctRuns(jobs[i].runs)
    {
      JobsForAt(order, byStage, Answers(feed), i);
      FilterStaysClean(feed, Relevant(Names.StageWorkflowPath(order[i]), Some(byStage[order[i]].since)));
    }
    forall i, j | 0 <= i < j < |jobs|
      ensures Apart(jobs[i].runs, jobs[j].runs)
    {
      JobsForAt(order, byStage, Answers(feed), i);
      JobsForAt(order, byStage, Answers(feed), j);
      GroupedSlugsAreCanonical(listing, s.stages, order[i]);
      GroupedSlugsAreCanonical(listing, s.stages, order[j]);
      StagesGetDisjointRuns(feed, order[i], order[j], byStage[order[i]].since, byStage[order[j]].since);
    }
  }

  /** A sync in a state that some run of the system has led to. */
  ghost predicate IsSync(
    steps: seq<Step>, projectID: string, listing: seq<Release>, order: seq<string>, feed: seq<FeedRun>, supply: Supply)
  {
    var s := After(steps).records;
    && LegalRun(steps) && CleanFeed(feed) && SupplyFits(s, projectID, supply) && DrawsFresh(After(steps), supply)
    && IsReleaseListing(listing, s.releases, projectID) && IsOrder(order, StagesOf(listing, s.stages))
  }

  /** No run is given the id of a placeholder. */
  ghost predicate DrawsFresh(h: History, supply: Supply) {
    forall x: int :: supply.releaseFor(x) !in h.placeholders
  }

  lemma SyncIsProper(steps: seq<Step>, projectID: string, listing: seq<Release>, order: seq<string>, feed: seq<FeedRun>, supply: Supply)
    requires IsSync(steps, projectID, listing, order, feed, supply)
    ensures var s := After(steps).records; var jobs := SyncJobsOf(s, listing, order, feed);
      Sound(s) && Placed(s) && JobsFit(s, jobs) && DistinctJobs(jobs) && JobsSpared(jobs, supply)
  {
    var s := After(steps).records;
    RecordsStayTidy(steps);
    AnswersAreBound(feed);
    JobsForFit(order, s, listing, projectID, Answers(feed));
    JobsForAreDistinct(s, listing, order, feed);
    JobsAreSpared(After(steps), projectID, listing, order, feed, supply);
  }

  ghost predicate JobsSpared(jobs: seq<Job>, supply: Supply) {
    forall i :: 0 <= i < |jobs| ==> Spared(supply, jobs[i].pending)
  }

  lemma JobsAreSpared(h: History, projectID: string, listing: seq<Release>, order: seq<string>, feed: seq<FeedRun>, supply: Supply)
    requires Tidy(h) && DrawsFresh(h, supply) && IsReleaseListing(listing, h.records.releases, projectID)
    requires AllIn(order, StagesOf(listing, h.records.stages))
    ensures JobsSpared(SyncJobsOf(h.records, listing, order, feed), supply)
  {
    var byStage := StagesOf(listing, h.records.stages);
    forall i | 0 <= i < |order|
      ensures Spared(supply, SyncJobsOf(h.records, listing, order, feed)[i].pending)
    {
      JobsForAt(order, byStage, Answers(feed), i);
      ListedCopyIsTidy(h, projectID, listing, order[i]);
    }
  }

  // ---------------------------------------------------------------- one stage, whatever has happened since the listing

  /** What GitHub shows to a stage that an open sync asks about. */
  function ShownTo(h: History, sync: nat, slug: string, feed: seq<FeedRun>): seq<WorkflowRun>
    requires IsWaiting(h, sync, slug)
  {
    Shown(feed, Names.StageWorkflowPath(slug), h.syncs[sync].groups[slug].since)
  }

  /** An open sync in a reachable state, one of its stages, and what it draws on. */
  ghost predicate IsStage(steps: seq<Step>, sync: nat, slug: string, feed: seq<FeedRun>, supply: Supply) {
    && LegalRun(steps) && CleanFeed(feed) && IsWaiting(After(steps), sync, slug)
    && SupplyFits(After(steps).records, After(steps).syncs[sync].projectID, supply) && DrawsFresh(After(steps), supply)
  }

  lemma StageIsAStep(steps: seq<Step>, sync: nat, slug: string, feed: seq<FeedRun>, supply: Supply)
    requires IsStage(steps, sync, slug, feed, supply)
    ensures Tidy(After(steps)) && Legal(After(steps), StageSynced(sync, slug, ShownTo(After(steps), sync, slug, feed), supply))
    ensures DistinctRuns(ShownTo(After(steps), sync, slug, feed))
  {
    RunIsTidy(steps);
    FilterStaysClean(feed, Relevant(Names.StageWorkflowPath(slug), Some(After(steps).syncs[sync].groups[slug].since)));
  }

  /**
   In any reachable state, whatever webhooks and other syncs have done since the listing, a stage of a sync binds a run
   that GitHub shows to it to exactly one release with the run's status, except in one case: the run was bound to the
   stage's placeholder since the listing, and a new run is shown after it and none before.
   */
  lemma {:induction false} StageBindsTheFeedIff(steps: seq<Step>, sync: nat, slug: string, feed: seq<FeedRun>, supply: Supply, a: nat)
    requires IsStage(steps, sync, slug, feed, supply)
    requires a < |ShownTo(After(steps), sync, slug, feed)| && StatusOf(ShownTo(After(steps), sync, slug, feed)[a]).Some?
    ensures var h := After(steps); var runs := ShownTo(h, sync, slug, feed);
      BoundToOne(Apply(h, StageSynced(sync, slug, runs, supply)).records.releases, runs[a].id, StatusOf(runs[a]).value)
      <==> !(Carried(h.records, CopyOf(h, sync, slug)) == runs[a].id && a < FirstNew(h.records.releases, runs) < |runs|)
  {
    var h := After(steps);
    var runs := ShownTo(h, sync, slug, feed);
    StageIsAStep(steps, sync, slug, feed, supply);
    StageIsProper(h, sync, slug, runs, supply);
    StageBindsIff(h.records, CopyOf(h, sync, slug), h.syncs[sync].projectID, slug, runs, supply, a);
  }

  /**
   And it creates one release for each new run, but for the first if it has a placeholder, and one more if a run that
   was overwritten comes up again.
   */
  lemma {:induction false} StageGrowsBy(steps: seq<Step>, sync: nat, slug: string, feed: seq<FeedRun>, supply: Supply)
    requires IsStage(steps, sync, slug, feed, supply)
    ensures var h := After(steps); var runs := ShownTo(h, sync, slug, feed); var pending := CopyOf(h, sync, slug);
      var n := NewRuns(h.records.releases, runs);
      |Apply(h, StageSynced(sync, slug, runs, supply)).records.releases|
        == |h.records.releases| + n - (if pending.Some? && n > 0 then 1 else 0)
         + if Overtaken(h.records, pending, runs) && !Lost(h.records, pending, runs, Carried(h.records, pending)) then 1 else 0
  {
    var h := After(steps);
    var runs := ShownTo(h, sync, slug, feed);
    StageIsAStep(steps, sync, slug, feed, supply);
    StageIsProper(h, sync, slug, runs, supply);
    StageGrowthExactly(h.records, CopyOf(h, sync, slug), h.syncs[sync].projectID, slug, runs, supply);
  }

  // ---------------------------------------------------------------- a sync that nothing interrupts

  /** The steps of a sync that processes these stages in this order. */
  function StageSteps(sync: nat, order: seq<string>, byStage: map<string, StageInfo>, feed: seq<FeedRun>, supply: Supply): seq<Step>
    requires AllIn(order, byStage)
  {
    if order == [] then []
    else
      var slug := order[|order| - 1];
      StageSteps(sync, order[..|order| - 1], byStage, feed, supply)
      + [StageSynced(sync, slug, Shown(feed, Names.StageWorkflowPath(slug), byStage[slug].since), supply)]
  }

  function StepsOfSync(h: History, projectID: string, listing: seq<Release>, order: seq<string>, feed: seq<FeedRun>, supply: Supply): seq<Step>
    requires AllIn(order, StagesOf(listing, h.records.stages))
  {
    [SyncReads(projectID, listing)] + StageSteps(|h.syncs|, order, StagesOf(listing, h.records.stages), feed, supply)
  }

  lemma Reassociate<T>(a: seq<T>, b: seq<T>, c: seq<T>)
    ensures a + (b + c) == (a + b) + c
  {
  }

  /** One more stage of an uninterrupted sync. */
  lemma {:induction false} NextStageOfSync(
    h: History, s: Records, projectID: string, listing: seq<Release>, done: seq<string>, slug: string, sync: nat, feed: seq<FeedRun>, supply: Supply)
    requires Sound(s) && SupplyFits(s, projectID, supply) && IsReleaseListing(listing, s.releases, projectID) && CleanFeed(feed)
    requires AllIn(done + [slug], StagesOf(listing, s.stages)) && NoDuplicates(done + [slug]) && DrawsFresh(h, supply)
    requires AllIn(done, StagesOf(listing, s.stages)) && h.records == SyncJobs(s, projectID, SyncJobsOf(s, listing, done, feed), supply)
    requires slug in StagesOf(listing, s.stages) && IsWaiting(h, sync, slug) && h.syncs[sync].projectID == projectID
    requires h.syncs[sync].groups[slug] == StagesOf(listing, s.stages)[slug]
    ensures var step := StageSynced(sync, slug, Shown(feed, Names.StageWorkflowPath(slug), StagesOf(listing, s.stages)[slug].since), supply);
      Legal(h, step) && Apply(h, step).records == SyncJobs(s, projectID, SyncJobsOf(s, listing, done + [slug], feed), supply)
  {
    var byStage := StagesOf(listing, s.stages);
    AnswersAreBound(feed);
    NextJobFits(done, slug, s, listing, projectID, Answers(feed), supply);
    SyncJobsOneMore(s, projectID, SyncJobsOf(s, listing, done, feed), JobFor(slug, byStage, Answers(feed)), supply);
  }

  /** The sync has processed `done`, and the records are those that the sync makes of these stages. */
  ghost predicate HasDone(
    h: History, h0: History, projectID: string, listing: seq<Release>, done: seq<string>, feed: seq<FeedRun>, supply: Supply)
    requires AllIn(done, StagesOf(listing, h0.records.stages))
  {
    && h.records == SyncJobs(h0.records, projectID, SyncJobsOf(h0.records, listing, done, feed), supply)
    && h.placeholders == h0.placeholders && |h.syncs| == |h0.syncs| + 1 && h.syncs[|h0.syncs|].projectID == projectID
    && forall slug :: slug in StagesOf(listing, h0.records.stages) && slug !in done ==>
         slug in h.syncs[|h0.syncs|].groups && h.syncs[|h0.syncs|].groups[slug] == StagesOf(listing, h0.records.stages)[slug]
  }

  lemma {:induction false} DoneOneMore(
    h: History, h0: History, projectID: string, listing: seq<Release>, done: seq<string>, slug: string, feed: seq<FeedRun>, supply: Supply)
    requires Sound(h0.records) && SupplyFits(h0.records, projectID, supply) && DrawsFresh(h0, supply)
    requires IsReleaseListing(listing, h0.records.releases, projectID) && CleanFeed(feed)
    requires AllIn(done + [slug], StagesOf(listing, h0.records.stages)) && NoDuplicates(done + [slug])
    requires AllIn(done, StagesOf(listing, h0.records.stages)) && slug in StagesOf(listing, h0.records.stages) && slug !in done
    requires HasDone(h, h0, projectID, listing, done, feed, supply)
    ensures var step := StageStep(h0, listing, slug, feed, supply);
      Legal(h, step) && HasDone(Apply(h, step), h0, projectID, listing, done + [slug], feed, supply)
  {
    NextStageOfSync(h, h0.records, projectID, listing, done, slug, |h0.syncs|, feed, supply);
  }

  function StageStep(h0: History, listing: seq<Release>, slug: string, feed: seq<FeedRun>, supply: Supply): Step
    requires slug in StagesOf(listing, h0.records.stages)
  {
    StageSynced(|h0.syncs|, slug, Shown(feed, Names.StageWorkflowPath(slug), StagesOf(listing, h0.records.stages)[slug].since), supply)
  }

  lemma {:induction false} StepsOneMore(
    h0: History, projectID: string, listing: seq<Release>, done: seq<string>, slug: string, feed: seq<FeedRun>, supply: Supply)
    requires AllIn(done, StagesOf(listing, h0.records.stages)) && slug in StagesOf(listing, h0.records.stages)
    ensures AllIn(done + [slug], StagesOf(listing, h0.records.stages))
    ensures StepsOfSync(h0, projectID, listing, done + [slug], feed, supply)
         == StepsOfSync(h0, projectID, listing, done, feed, supply) + [StageStep(h0, listing, slug, feed, supply)]
  {
    assert (done + [slug])[..|done|] == done;
    Reassociate([SyncReads(projectID, listing)], StageSteps(|h0.syncs|, done, StagesOf(listing, h0.records.stages), feed, supply),
                [StageStep(h0, listing, slug, feed, supply)]);
  }

  lemma {:induction false} RunOneMore(
    before: seq<Step>, h0: History, projectID: string, listing: seq<Release>, done: seq<string>, slug: string, feed: seq<FeedRun>, supply: Supply)
    requires Sound(h0.records) && SupplyFits(h0.records, projectID, supply) && DrawsFresh(h0, supply)
    requires IsReleaseListing(listing, h0.records.releases, projectID) && CleanFeed(feed)
    requires AllIn(done + [slug], StagesOf(listing, h0.records.stages)) && NoDuplicates(done + [slug])
    requires AllIn(done, StagesOf(listing, h0.records.stages)) && slug in StagesOf(listing, h0.records.stages) && slug !in done
    requires LegalRun(before) && HasDone(After(before), h0, projectID, listing, done, feed, supply)
    ensures var all := before + [StageStep(h0, listing, slug, feed, supply)];
      LegalRun(all) && HasDone(After(all), h0, projectID, listing, done + [slug], feed, supply)
  {
    DoneOneMore(After(before), h0, projectID, listing, done, slug, feed, supply);
    OneMoreStep(before, StageStep(h0, listing, slug, feed, supply));
  }

  /** The run can be continued by a sync that processes these stages, with what the sync makes of the records. */
  ghost predicate RunsThrough(
    steps: seq<Step>, projectID: string, listing: seq<Release>, done: seq<string>, feed: seq<FeedRun>, supply: Supply)
    requires AllIn(done, StagesOf(listing, After(steps).records.stages))
  {
    var all := steps + StepsOfSync(After(steps), projectID, listing, done, feed, supply);
    LegalRun(all) && HasDone(After(all), After(steps), projectID, listing, done, feed, supply)
  }

  /** All but the order of a sync in a reachable state. */
  ghost predicate MaySync(steps: seq<Step>, projectID: string, listing: seq<Release>, feed: seq<FeedRun>, supply: Supply) {
    && LegalRun(steps) && CleanFeed(feed) && SupplyFits(After(steps).records, projectID, supply) && DrawsFresh(After(steps), supply)
    && IsReleaseListing(listing, After(steps).records.releases, projectID)
  }

  lemma {:induction false} SyncBegins(steps: seq<Step>, projectID: string, listing: seq<Release>, feed: seq<FeedRun>, supply: Supply)
    requires MaySync(steps, projectID, listing, feed, supply)
    ensures RunsThrough(steps, projectID, listing, [], feed, supply)
  {
    OneMoreStep(steps, SyncReads(projectID, listing));
    assert StepsOfSync(After(steps), projectID, listing, [], feed, supply) == [SyncReads(projectID, listing)];
  }

  lemma {:induction false} SyncGoesOn(
    steps: seq<Step>, projectID: string, listing: seq<Release>, done: seq<string>, slug: string, feed: seq<FeedRun>, supply: Supply)
    requires MaySync(steps, projectID, listing, feed, supply)
    requires AllIn(done + [slug], StagesOf(listing, After(steps).records.stages)) && NoDuplicates(done + [slug])
    requires AllIn(done, StagesOf(listing, After(steps).records.stages)) && slug in StagesOf(listing, After(steps).records.stages) && slug !in done
    requires RunsThrough(steps, projectID, listing, done, feed, supply)
    ensures RunsThrough(steps, projectID, listing, done + [slug], feed, supply)
  {
    var h0 := After(steps);
    RunIsTidy(steps);
    RunOneMore(steps + StepsOfSync(h0, projectID, listing, done, feed, supply), h0, projectID, listing, done, slug, feed, supply);
    StepsOneMore(h0, projectID, listing, done, slug, feed, supply);
    Reassociate(steps, StepsOfSync(h0, projectID, listing, done, feed, supply), [StageStep(h0, listing, slug, feed, supply)]);
  }

  lemma AllButTheLast(order: seq<string>, byStage: map<string, StageInfo>)
    requires order != [] && AllIn(order, byStage) && NoDuplicates(order)
    ensures var front, slug := order[..|order| - 1], order[|order| - 1];
      AllIn(front, byStage) && NoDuplicates(front) && slug in byStage && slug !in front && front + [slug] == order
  {
  }

  /** A sync that nothing interrupts is a run of its steps. */
  lemma {:induction false} SyncRunsThrough(
    steps: seq<Step>, projectID: string, listing: seq<Release>, done: seq<string>, feed: seq<FeedRun>, supply: Supply)
    requires MaySync(steps, projectID, listing, feed, supply)
    requires AllIn(done, StagesOf(listing, After(steps).records.stages)) && NoDuplicates(done)
    ensures RunsThrough(steps, projectID, listing, done, feed, supply)
    decreases |done|
  {
    if done == [] {
      SyncBegins(steps, projectID, listing, feed, supply);
    } else {
      AllButTheLast(done, StagesOf(listing, After(steps).records.stages));
      SyncRunsThrough(steps, projectID, listing, done[..|done| - 1], feed, supply);
      SyncGoesOn(steps, projectID, listing, done[..|done| - 1], done[|done| - 1], feed, supply);
    }
  }

  lemma SyncIsARun(steps: seq<Step>, projectID: string, listing: seq<Release>, order: seq<string>, feed: seq<FeedRun>, supply: Supply)
    requires IsSync(steps, projectID, listing, order, feed, supply)
    ensures var all := steps + StepsOfSync(After(steps), projectID, listing, order, feed, supply);
      && LegalRun(all)
      && After(all).records == SyncJobs(After(steps).records, projectID, SyncJobsOf(After(steps).records, listing, order, feed), supply)
  {
    SyncRunsThrough(steps, projectID, listing, order, feed, supply);
  }

  /**
   In any reachable state a sync that nothing interrupts binds every run that GitHub shows for a stage to exactly one
   release with the run's status, and creates one release for each run that was not known, but for one in each stage
   with a placeholder.
   */
  lemma SyncBindsTheFeed(steps: seq<Step>, projectID: string, listing: seq<Release>, order: seq<string>, feed: seq<FeedRun>, supply: Supply)
    requires IsSync(steps, projectID, listing, order, feed, supply)
    ensures var s := After(steps).records; var s' := SyncJobs(s, projectID, SyncJobsOf(s, listing, order, feed), supply);
      && (forall slug, run :: ShownFor(s, listing, feed, slug, run) && StatusOf(run).Some? ==>
            BoundToOne(s'.releases, run.id, StatusOf(run).value))
      && |s'.releases| == |s.releases| + Growth(s.releases, SyncJobsOf(s, listing, order, feed))
  {
    var s := After(steps).records;
    var jobs := SyncJobsOf(s, listing, order, feed);
    SyncIsProper(steps, projectID, listing, order, feed, supply);
    SyncGrowth(s, projectID, jobs, supply);
    forall slug, run | ShownFor(s, listing, feed, slug, run) && StatusOf(run).Some?
      ensures BoundToOne(SyncJobs(s, projectID, jobs, supply).releases, run.id, StatusOf(run).value)
    {
      ShownIsHanded(listing, order, s.stages, feed, run, slug);
      HandedRunIsBound(s, projectID, jobs, supply, run);
    }
  }

  /** The sync asks GitHub about this stage and is shown this run. */
  predicate ShownFor(s: Records, listing: seq<Release>, feed: seq<FeedRun>, slug: string, run: WorkflowRun) {
    var byStage := StagesOf(listing, s.stages);
    slug in byStage && run in Shown(feed, Names.StageWorkflowPath(slug), byStage[slug].since)
  }

  lemma HandedRunIsBound(s: Records, projectID: string, jobs: seq<Job>, supply: Supply, run: WorkflowRun)
    requires Sound(s) && SupplyFits(s, projectID, supply) && JobsFit(s, jobs) && DistinctJobs(jobs)
    requires Hands(jobs, run) && StatusOf(run).Some?
    ensures BoundToOne(SyncJobs(s, projectID, jobs, supply).releases, run.id, StatusOf(run).value)
  {
    SyncBindsEveryRun(s, projectID, jobs, supply);
  }

  // ---------------------------------------------------------------- neither order matters

  /** Which slugs there are, and since when to ask, does not depend on the order of the listing. */
  lemma GroupingsAgree(listing: seq<Release>, listing': seq<Release>, stages: map<string, Stage>, slug: string)
    requires (forall r :: r in listing <==> r in listing') && slug in StagesOf(listing, stages)
    ensures slug in StagesOf(listing', stages) && StagesOf(listing', stages)[slug].since == StagesOf(listing, stages)[slug].since
  {
    GroupingDescribes(listing, stages, slug);
    GroupingDescribes(listing', stages, slug);
  }

  /** A run that is handed over is shown for the stage of its job. */
  lemma HandedRun(listing: seq<Release>, order: seq<string>, stages: map<string, Stage>, feed: seq<FeedRun>, run: WorkflowRun) returns (slug: string)
    requires AllIn(order, StagesOf(listing, stages)) && Hands(JobsFor(order, StagesOf(listing, stages), Answers(feed)), run)
    ensures slug in StagesOf(listing, stages)
    ensures run in Shown(feed, Names.StageWorkflowPath(slug), StagesOf(listing, stages)[slug].since)
  {
    var jobs := JobsFor(order, StagesOf(listing, stages), Answers(feed));
    var i, a :| 0 <= i < |jobs| && 0 <= a < |jobs[i].runs| && jobs[i].runs[a] == run;
    slug := order[i];
    JobsForAt(order, StagesOf(listing, stages), Answers(feed), i);
  }

  lemma ShownIsHanded(listing: seq<Release>, order: seq<string>, stages: map<string, Stage>, feed: seq<FeedRun>, run: WorkflowRun, slug: string)
    requires IsOrder(order, StagesOf(listing, stages)) && slug in StagesOf(listing, stages)
    requires run in Shown(feed, Names.StageWorkflowPath(slug), StagesOf(listing, stages)[slug].since)
    ensures Hands(JobsFor(order, StagesOf(listing, stages), Answers(feed)), run)
  {
    var jobs := JobsFor(order, StagesOf(listing, stages), Answers(feed));
    var i :| 0 <= i < |order| && order[i] == slug;
    JobsForAt(order, StagesOf(listing, stages), Answers(feed), i);
    var a :| 0 <= a < |jobs[i].runs| && jobs[i].runs[a] == run;
  }

  lemma HandsTheSame(
    listing: seq<Release>, order: seq<string>, listing': seq<Release>, order': seq<string>,
    stages: map<string, Stage>, feed: seq<FeedRun>, run: WorkflowRun)
    requires (forall r :: r in listing <==> r in listing')
    requires IsOrder(order, StagesOf(listing, stages)) && IsOrder(order', StagesOf(listing', stages))
    requires Hands(JobsFor(order, StagesOf(listing, stages), Answers(feed)), run)
    ensures Hands(JobsFor(order', StagesOf(listing', stages), Answers(feed)), run)
  {
    var slug := HandedRun(listing, order, stages, feed, run);
    GroupingsAgree(listing, listing', stages, slug);
    ShownIsHanded(listing', order', stages, feed, run, slug);
  }

  /**
   Two syncs of the same reachable records over the same feed leave every run with the same status, whatever order
   each of them walks the releases and the stages in, and whichever ids it draws.
   */
  lemma EverySyncAgrees(
    steps: seq<Step>, projectID: string, feed: seq<FeedRun>, listing: seq<Release>, order: seq<string>, supply: Supply,
    listing': seq<Release>, order': seq<string>, supply': Supply, y: int)
    requires IsSync(steps, projectID, listing, order, feed, supply) && IsSync(steps, projectID, listing', order', feed, supply')
    requires y != UNBOUND
    ensures var s := After(steps).records; var jobs, jobs' := SyncJobsOf(s, listing, order, feed), SyncJobsOf(s, listing', order', feed);
      StatusOfRun(SyncJobs(s, projectID, jobs, supply).releases, y) == StatusOfRun(SyncJobs(s, projectID, jobs', supply').releases, y)
  {
    var s := After(steps).records;
    var jobs, jobs' := SyncJobsOf(s, listing, order, feed), SyncJobsOf(s, listing', order', feed);
    SyncIsProper(steps, projectID, listing, order, feed, supply);
    SyncIsProper(steps, projectID, listing', order', feed, supply');
    forall run
      ensures Hands(jobs, run) <==> Hands(jobs', run)
    {
      if Hands(jobs, run) {
        HandsTheSame(listing, order, listing', order', s.stages, feed, run);
      }
      if Hands(jobs', run) {
        HandsTheSame(listing', order', listing, order, s.stages, feed, run);
      }
    }
    StageOrderDoesNotMatter(s, projectID, jobs, jobs', supply, supply', y);
  }

  // ---------------------------------------------------------------- the same feed twice

  /** A stage of the project has the slug; production needs none, because it is created on demand. */
  ghost predicate HasStage(s: Records, projectID: string, slug: string) {
    slug == "production" || FindStage(s.stages, projectID, slug).Some?
  }

  /** New releases of the project are filed under one of the slugs. */
  ghost predicate Filed(s: Records, s': Records, projectID: string, slugs: set<string>) {
    forall id :: id in s'.releases && id !in s.releases && s'.releases[id].projectID == projectID ==> SlugOf(s'.releases[id], s'.stages) in slugs
  }

  lemma HasStageLasts(s: Records, s': Records, projectID: string, slug: string)
    requires HasStage(s, projectID, slug) && Persists(s, s')
    ensures HasStage(s', projectID, slug)
  {
    if slug != "production" {
      var id := FindStage(s.stages, projectID, slug).value;
      assert s'.stages[id].slug == slug;
    }
  }

  /** Where a release is filed never changes. */
  lemma SlugLasts(s: Records, s': Records, id: string)
    requires Placed(s) && Persists(s, s') && id in s.releases
    ensures SlugOf(s'.releases[id], s'.stages) == SlugOf(s.releases[id], s.stages)
  {
    assert InItsProject(s.stages, s.releases[id]);
    assert Lasting(s.releases[id], s'.releases[id]);
  }

  lemma FiledOn(s: Records, mid: Records, s': Records, projectID: string, slugs: set<string>)
    requires Placed(mid) && Persists(mid, s') && Filed(s, mid, projectID, slugs) && Filed(mid, s', projectID, slugs)
    ensures Filed(s, s', projectID, slugs)
  {
    forall id | id in s'.releases && id !in s.releases && s'.releases[id].projectID == projectID
      ensures SlugOf(s'.releases[id], s'.stages) in slugs
    {
      if id in mid.releases {
        SlugLasts(mid, s', id);
        assert Lasting(mid.releases[id], s'.releases[id]);
      }
    }
  }

  lemma StoreIsFiled(s: Records, stages: map<string, Stage>, r: Release, projectID: string, slugs: set<string>)
    requires SlugOf(r, stages) in slugs
    ensures Filed(s, Stored(s.(stages := stages), r), projectID, slugs)
  {
    StoreKeepsStageNames(s.(stages := stages), r);
  }

  lemma KnownIsFiled(s: Records, r: Release, projectID: string, slugs: set<string>)
    requires r.id in s.releases
    ensures Filed(s, Stored(s, r), projectID, slugs)
  {
  }

  lemma RunIsFiled(at: Progress, projectID: string, slug: string, run: WorkflowRun, supply: Supply, slugs: set<string>)
    requires Placed(at.records) && Sound(at.records) && Fits(at.records, at.pending) && SupplyFits(at.records, projectID, supply)
    requires HasStage(at.records, projectID, slug) && slug in slugs
    ensures Filed(at.records, SyncRun(at, projectID, slug, run, supply).records, projectID, slugs)
  {
    var Progress(s, pending) := at;
    var status := StatusOf(run);
    if status.Some? {
      match FindRun(s.releases, run.id)
      case Some(id) =>
        KnownIsFiled(s, s.releases[id].(status := status.value,
                                        updatedAt := if run.updatedAt.Some? then run.updatedAt.value else supply.now), projectID, slugs);
      case None =>
        match pending
        case Some(candidate) => KnownIsFiled(s, Claimed(candidate, run, status.value, supply.now), projectID, slugs);
        case None =>
          var stage := ResolveStage(s.stages, projectID, slug, supply.newStage, supply.created);
          ResolvePlaced(s, projectID, slug, supply.newStage, supply.created);
          StoreIsFiled(s, stage.stages, Release(supply.releaseFor(run.id), projectID, stage.stageID, run.headSHA, run.commitMessage,
                                                status.value, run.id, "", supply.now, supply.now), projectID, slugs);
    }
  }

  lemma {:induction false} RunsAreFiled(at: Progress, projectID: string, slug: string, runs: seq<WorkflowRun>, supply: Supply, slugs: set<string>)
    requires Sound(at.records) && Fits(at.records, at.pending) && SupplyFits(at.records, projectID, supply) && BoundRuns(runs)
    requires Placed(at.records) && Spared(supply, at.pending) && HasStage(at.records, projectID, slug) && slug in slugs
    ensures Filed(at.records, SyncRuns(at, projectID, slug, runs, supply).records, projectID, slugs)
  {
    if runs != [] {
      var front, last := runs[..|runs| - 1], runs[|runs| - 1];
      var mid := SyncRuns(at, projectID, slug, front, supply);
      RunsAreFiled(at, projectID, slug, front, supply, slugs);
      StageRuns(at, projectID, slug, front, supply);
      CurrentIsCopied(at.records, at.pending);
      RunsPlaced(at, projectID, slug, front, supply);
      RunsPersist(at, projectID, slug, front, supply);
      HasStageLasts(at.records, mid.records, projectID, slug);
      RunIsFiled(mid, projectID, slug, last, supply, slugs);
      RunPersists(mid, projectID, slug, last, supply);
      FiledOn(at.records, mid.records, SyncRun(mid, projectID, slug, last, supply).records, projectID, slugs);
    }
  }

  lemma {:induction false} JobsPlaced(s: Records, projectID: string, jobs: seq<Job>, supply: Supply)
    requires Sound(s) && SupplyFits(s, projectID, supply) && JobsFit(s, jobs) && JobsSpared(jobs, supply) && Placed(s)
    ensures Placed(SyncJobs(s, projectID, jobs, supply))
  {
    if jobs != [] {
      var front, job := jobs[..|jobs| - 1], jobs[|jobs| - 1];
      assert forall i :: 0 <= i < |front| ==> front[i] == jobs[i];
      var mid := SyncJobs(s, projectID, front, supply);
      JobsPlaced(s, projectID, front, supply);
      SyncAllJobs(s, projectID, front, supply);
      LastJobFits(s, mid, jobs);
      CurrentIsCopied(mid, job.pending);
      RunsPlaced(Progress(mid, job.pending), projectID, job.slug, job.runs, supply);
    }
  }

  lemma {:induction false} JobsAreFiled(s: Records, projectID: string, jobs: seq<Job>, supply: Supply, slugs: set<string>)
    requires Sound(s) && SupplyFits(s, projectID, supply) && JobsFit(s, jobs) && JobsSpared(jobs, supply) && Placed(s)
    requires forall i :: 0 <= i < |jobs| ==> jobs[i].slug in slugs && HasStage(s, projectID, jobs[i].slug)
    ensures Filed(s, SyncJobs(s, projectID, jobs, supply), projectID, slugs)
  {
    if jobs != [] {
      var front, job := jobs[..|jobs| - 1], jobs[|jobs| - 1];
      assert forall i :: 0 <= i < |front| ==> front[i] == jobs[i];
      var mid := SyncJobs(s, projectID, front, supply);
      JobsAreFiled(s, projectID, front, supply, slugs);
      SyncAllJobs(s, projectID, front, supply);
      JobsPlaced(s, projectID, front, supply);
      JobsPersist(s, projectID, front, supply);
      HasStageLasts(s, mid, projectID, job.slug);
      LastJobFits(s, mid, jobs);
      RunsAreFiled(Progress(mid, job.pending), projectID, job.slug, job.runs, supply, slugs);
      RunsPersist(Progress(mid, job.pending), projectID, job.slug, job.runs, supply);
      FiledOn(s, mid, SyncJobs(s, projectID, jobs, supply), projectID, slugs);
    }
  }

  lemma GroupedSlugHasStage(s: Records, projectID: string, listing: seq<Release>, slug: string)
    requires Placed(s) && IsReleaseListing(listing, s.releases, projectID) && slug in StagesOf(listing, s.stages)
    ensures HasStage(s, projectID, slug)
  {
    GroupingDescribes(listing, s.stages, slug);
    var r :| r in listing && SlugOf(r, s.stages) == slug;
    assert InItsProject(s.stages, s.releases[r.id]);
  }

  /** A listing made later finds no slug that was not there before, and asks for no earlier time. */
  lemma LaterGrouping(s: Records, s': Records, projectID: string, listing: seq<Release>, listing': seq<Release>, slug: string)
    requires Placed(s) && Persists(s, s') && Filed(s, s', projectID, StagesOf(listing, s.stages).Keys)
    requires IsReleaseListing(listing, s.releases, projectID) && IsReleaseListing(listing', s'.releases, projectID)
    requires (forall id :: id in s.releases ==> s.releases[id].id == id) && slug in StagesOf(listing', s'.stages)
    ensures slug in StagesOf(listing, s.stages) && StagesOf(listing, s.stages)[slug].since <= StagesOf(listing', s'.stages)[slug].since
  {
    GroupingDescribes(listing', s'.stages, slug);
    GroupingDescribes(listing, s.stages, slug);
    var r' :| r' in listing' && SlugOf(r', s'.stages) == slug;
    if r'.id in s.releases {
      SlugLasts(s, s', r'.id);
      assert Lasting(s.releases[r'.id], r') && s.releases[r'.id] in listing;
    }
    var r :| r in listing && SlugOf(r, s.stages) == slug && r.createdAt == StagesOf(listing, s.stages)[slug].since;
    SlugLasts(s, s', r.id);
    assert Lasting(r, s'.releases[r.id]) && s'.releases[r.id] in listing';
  }

  lemma ShownEarlier(feed: seq<FeedRun>, path: string, since: int, since': int, run: WorkflowRun)
    requires since <= since' && run in Shown(feed, path, since')
    ensures run in Shown(feed, path, since)
  {
    var a :| 0 <= a < |Shown(feed, path, since')| && Shown(feed, path, since')[a] == run;
    var i := ShownRun(feed, path, since', a);
    FilterKeeps(feed, Relevant(path, Some(since)));
    var found := Filter(feed, Relevant(path, Some(since)));
    assert feed[i] in found;
    var b :| 0 <= b < |found| && found[b] == feed[i];
    assert Shown(feed, path, since)[b] == run;
  }

  /** The second sync over a feed is handed no run that the first was not handed. */
  lemma SecondSyncHandsNothingNew(
    s: Records, s': Records, projectID: string, feed: seq<FeedRun>, listing: seq<Release>, order: seq<string>,
    listing': seq<Release>, order': seq<string>, run: WorkflowRun)
    requires Placed(s) && Persists(s, s') && Filed(s, s', projectID, StagesOf(listing, s.stages).Keys)
    requires IsReleaseListing(listing, s.releases, projectID) && IsReleaseListing(listing', s'.releases, projectID)
    requires (forall id :: id in s.releases ==> s.releases[id].id == id)
    requires IsOrder(order, StagesOf(listing, s.stages)) && AllIn(order', StagesOf(listing', s'.stages))
    requires Hands(SyncJobsOf(s', listing', order', feed), run)
    ensures Hands(SyncJobsOf(s, listing, order, feed), run)
  {
    var slug := HandedRun(listing', order', s'.stages, feed, run);
    LaterGrouping(s, s', projectID, listing, listing', slug);
    ShownEarlier(feed, Names.StageWorkflowPath(slug), StagesOf(listing, s.stages)[slug].since, StagesOf(listing', s'.stages)[slug].since, run);
    ShownIsHanded(listing, order, s.stages, feed, run, slug);
  }

  /** What the first sync leaves: every record in place, and no new release outside the stages that it walked. */
  lemma SyncFiles(steps: seq<Step>, projectID: string, listing: seq<Release>, order: seq<string>, feed: seq<FeedRun>, supply: Supply)
    requires IsSync(steps, projectID, listing, order, feed, supply)
    ensures var s := After(steps).records; var s' := SyncJobs(s, projectID, SyncJobsOf(s, listing, order, feed), supply);
      Persists(s, s') && Filed(s, s', projectID, StagesOf(listing, s.stages).Keys)
  {
    var s := After(steps).records;
    var jobs := SyncJobsOf(s, listing, order, feed);
    SyncIsProper(steps, projectID, listing, order, feed, supply);
    JobsPersist(s, projectID, jobs, supply);
    forall i | 0 <= i < |jobs|
      ensures jobs[i].slug in StagesOf(listing, s.stages).Keys && HasStage(s, projectID, jobs[i].slug)
    {
      JobsForAt(order, StagesOf(listing, s.stages), Answers(feed), i);
      GroupedSlugHasStage(s, projectID, listing, order[i]);
    }
    JobsAreFiled(s, projectID, jobs, supply, StagesOf(listing, s.stages).Keys);
  }

  /** Listing the releases twice over one feed: the second sync groups them anew, in any order, and changes nothing at all. */
  lemma SyncTwiceIsSyncOnce(
    steps: seq<Step>, projectID: string, feed: seq<FeedRun>, listing: seq<Release>, order: seq<string>, supply: Supply,
    listing': seq<Release>, order': seq<string>, supply': Supply)
    requires IsSync(steps, projectID, listing, order, feed, supply)
    requires var s := After(steps).records; var s' := SyncJobs(s, projectID, SyncJobsOf(s, listing, order, feed), supply);
      IsReleaseListing(listing', s'.releases, projectID) && IsOrder(order', StagesOf(listing', s'.stages))
    ensures var s := After(steps).records; var s' := SyncJobs(s, projectID, SyncJobsOf(s, listing, order, feed), supply);
      SyncJobs(s', projectID, SyncJobsOf(s', listing', order', feed), supply') == s'
  {
    var s := After(steps).records;
    var jobs := SyncJobsOf(s, listing, order, feed);
    var s' := SyncJobs(s, projectID, jobs, supply);
    SyncIsProper(steps, projectID, listing, order, feed, supply);
    SyncFiles(steps, projectID, listing, order, feed, supply);
    forall run | Hands(SyncJobsOf(s', listing', order', feed), run)
      ensures Hands(jobs, run)
    {
      SecondSyncHandsNothingNew(s, s', projectID, feed, listing, order, listing', order', run);
    }
    SyncIsIdempotent(s, projectID, jobs, supply, SyncJobsOf(s', listing', order', feed), supply');
  }
}
