/**
 Runs that mix every way of writing release records. A sync is split where it waits for GitHub: it lists the releases in
 one step, and each stage that it asked about is a step of its own, with the placeholder as it was listed.
 */
module ReleaseHistory {
  import opened Wrappers
  import opened Releases
  import opened ReleaseRuns
  import opened ReleaseGroups
  import opened ReleaseEffects
  import opened ReleaseCopies

  /** A sync that has listed the releases of a project; `groups` are the stages it has not processed yet. */
  datatype OpenSync = OpenSync(projectID: string, groups: map<string, StageInfo>)

  datatype Step =
    | WebhookArrives(payload: Payload, delivery: Delivery)
    | SyncReads(projectID: string, listing: seq<Release>)                                  // then it asks GitHub
    | StageSynced(sync: nat, slug: string, runs: seq<WorkflowRun>, supply: Supply)
    | Bootstraps(projectID: string, stageID: string, newID: string, message: string, now: int)
    | RollsBack(projectID: string, targetID: string, newID: string, message: string, applied: bool, now: int)
    | StageAdded(stage: Stage)
    | StageMarked(stageID: string, status: StageStatus)

  /** The records, which of them bootstraps have created, and the syncs that have been started. */
  datatype History = History(records: Records, placeholders: set<string>, syncs: seq<OpenSync>)

  predicate IsWaiting(h: History, sync: nat, slug: string) {
    sync < |h.syncs| && slug in h.syncs[sync].groups
  }

  /** What the sync remembers of the stage's placeholder. */
  function CopyOf(h: History, sync: nat, slug: string): Option<Release>
    requires IsWaiting(h, sync, slug)
  {
    h.syncs[sync].groups[slug].pending
  }

  ghost function AfterStage(h: History, sync: nat, slug: string, runs: seq<WorkflowRun>, supply: Supply): History
    requires IsWaiting(h, sync, slug)
  {
    var OpenSync(projectID, groups) := h.syncs[sync];
    h.(records := StageAt(h.records, CopyOf(h, sync, slug), projectID, slug, runs, supply),
       syncs := h.syncs[sync := OpenSync(projectID, groups - {slug})])
  }

  ghost function Apply(h: History, step: Step): History {
    match step
    case WebhookArrives(payload, d) => h.(records := Webhook(h.records, payload, d))
    case SyncReads(projectID, listing) => h.(syncs := h.syncs + [OpenSync(projectID, StagesOf(listing, h.records.stages))])
    case StageSynced(sync, slug, runs, supply) => if IsWaiting(h, sync, slug) then AfterStage(h, sync, slug, runs, supply) else h
    case Bootstraps(projectID, stageID, newID, message, now) =>
      h.(records := Bootstrapped(h.records, projectID, stageID, newID, message, now), placeholders := h.placeholders + {newID})
    case RollsBack(projectID, targetID, newID, message, applied, now) =>
      h.(records := RolledBack(h.records, projectID, targetID, newID, message, applied, now))
    case StageAdded(stage) => h.(records := h.records.(stages := h.records.stages[stage.id := stage]))
    case StageMarked(stageID, status) =>
      if stageID !in h.records.stages then h
      else h.(records := h.records.(stages := h.records.stages[stageID := h.records.stages[stageID].(status := status)]))
  }

  /**
   New ids are new, payloads and answers carry runs, a sync lists what is stored, CreateStage has made and checked the
   slug, and a bootstrap has looked up or created its stage before it leaves a placeholder there.
   */
  ghost predicate Legal(h: History, step: Step) {
    match step
    case WebhookArrives(payload, d) => LegalDelivery(h.records, payload, d)
    case SyncReads(projectID, listing) => IsReleaseListing(listing, h.records.releases, projectID)
    case StageSynced(sync, slug, runs, supply) =>
      && IsWaiting(h, sync, slug) && BoundRuns(runs)
      && SupplyFits(h.records, h.syncs[sync].projectID, supply) && forall x: int :: supply.releaseFor(x) !in h.placeholders
    case Bootstraps(projectID, stageID, newID, _, _) =>
      && newID !in h.records.releases
      && stageID in h.records.stages && h.records.stages[stageID].projectID == projectID
    case RollsBack(_, _, newID, _, _, _) => newID !in h.records.releases
    case StageAdded(stage) =>
      && stage.id !in h.records.stages && stage.id != "" && IsCanonical(stage.slug)
      && FindStage(h.records.stages, stage.projectID, stage.slug).None?
    case StageMarked(stageID, _) => stageID in h.records.stages
  }

  const START := History(Records(map[], map[]), {}, [])

  ghost function After(steps: seq<Step>): History {
    if steps == [] then START else Apply(After(steps[..|steps| - 1]), steps[|steps| - 1])
  }

  ghost predicate LegalRun(steps: seq<Step>) {
    steps != [] ==>
      var front := steps[..|steps| - 1];
      LegalRun(front) && Legal(After(front), steps[|steps| - 1])
  }

  // ---------------------------------------------------------------- what every step keeps

  /** Copies are of placeholders, which are where they were. */
  ghost predicate CopiesTidy(h: History) {
    forall sync: nat, slug :: IsWaiting(h, sync, slug) ==> CopyTidy(h.records, h.placeholders, CopyOf(h, sync, slug))
  }

  ghost predicate CopyTidy(s: Records, placeholders: set<string>, pending: Option<Release>) {
    Copied(s, pending) && (pending.Some? ==> pending.value.id in placeholders)
  }

  /** No run is bound twice, whoever waits for a run was created by a bootstrap, and everything is in its place. */
  ghost predicate Tidy(h: History) {
    TidyRecords(h.records, h.placeholders) && Placed(h.records) && CopiesTidy(h)
  }

  /** The stage step in the terms of the stage: the copy is in its place, and no run is given the copy's id. */
  lemma StageIsProper(h: History, sync: nat, slug: string, runs: seq<WorkflowRun>, supply: Supply)
    requires Tidy(h) && Legal(h, StageSynced(sync, slug, runs, supply))
    ensures var pending := CopyOf(h, sync, slug);
      && Sound(h.records) && SupplyFits(h.records, h.syncs[sync].projectID, supply) && BoundRuns(runs)
      && Copied(h.records, pending) && Spared(supply, pending)
  {
    assert CopyTidy(h.records, h.placeholders, CopyOf(h, sync, slug));
  }

  lemma StepKeepsTidyRecords(h: History, step: Step)
    requires Tidy(h) && Legal(h, step)
    ensures TidyRecords(Apply(h, step).records, Apply(h, step).placeholders)
  {
    match step
    case WebhookArrives(payload, d) => WebhookKeepsTidy(h.records, payload, d, h.placeholders);
    case SyncReads(projectID, listing) =>
    case StageSynced(sync, slug, runs, supply) =>
      StageIsProper(h, sync, slug, runs, supply);
      StageKeepsTidy(h.records, CopyOf(h, sync, slug), h.syncs[sync].projectID, slug, runs, supply, h.placeholders);
    case Bootstraps(projectID, stageID, newID, message, now) =>
      UnboundWriteKeepsTidy(h.records, Release(newID, projectID, stageID, "", message, Pending, UNBOUND, "", now, now), h.placeholders);
    case RollsBack(projectID, targetID, newID, message, applied, now) =>
      RollbackKeepsTidy(h.records, projectID, targetID, newID, message, applied, now, h.placeholders);
    case StageAdded(stage) => StagesMayBeAdded(h.records, stage, h.placeholders);
    case StageMarked(stageID, status) => StagesMayBeMarked(h.records, stageID, status, h.placeholders);
  }

  lemma StepKeepsPlaced(h: History, step: Step)
    requires Tidy(h) && Legal(h, step)
    ensures Placed(Apply(h, step).records)
  {
    match step
    case WebhookArrives(payload, d) => WebhookPlaced(h.records, payload, d);
    case SyncReads(projectID, listing) =>
    case StageSynced(sync, slug, runs, supply) =>
      StageIsProper(h, sync, slug, runs, supply);
      RunsPlaced(Progress(h.records, CopyOf(h, sync, slug)), h.syncs[sync].projectID, slug, runs, supply);
    case Bootstraps(projectID, stageID, newID, message, now) =>
      WritePlaced(h.records, Release(newID, projectID, stageID, "", message, Pending, UNBOUND, "", now, now));
    case RollsBack(projectID, targetID, newID, message, applied, now) =>
      RollbackPlaced(h.records, projectID, targetID, newID, message, applied, now);
    case StageAdded(stage) => AddedStagePlaced(h.records, stage);
    case StageMarked(stageID, status) => MarkedStagePlaced(h.records, stageID, status);
  }

  lemma NewRecordPersists(s: Records, r: Release)
    requires r.id !in s.releases
    ensures Persists(s, s.(releases := s.releases[r.id := r]))
  {
  }

  lemma {:induction false} RollbackPersists(s: Records, projectID: string, targetID: string, newID: string, message: string, applied: bool, now: int)
    requires newID !in s.releases
    ensures Persists(s, RolledBack(s, projectID, targetID, newID, message, applied, now))
  {
    if RollbackAllowed(s, projectID, targetID) {
      var r := RollbackAdds(s, projectID, targetID, newID, message, applied, now);
      NewRecordPersists(s, r);
    } else {
      EnduresItself(s);
    }
  }

  lemma StagesPersist(s: Records, stages: map<string, Stage>)
    requires StagesEndure(s.stages, stages)
    ensures Persists(s, s.(stages := stages))
  {
  }

  /** Every step but the stages of a sync leaves every run with its release. */
  lemma OtherStepsPersist(h: History, step: Step)
    requires Tidy(h) && Legal(h, step) && !step.StageSynced?
    ensures Persists(h.records, Apply(h, step).records) && h.placeholders <= Apply(h, step).placeholders
  {
    match step
    case WebhookArrives(payload, d) => WebhookPersists(h.records, payload, d);
    case SyncReads(projectID, listing) => StagesPersist(h.records, h.records.stages);
    case Bootstraps(projectID, stageID, newID, message, now) =>
      NewRecordPersists(h.records, Release(newID, projectID, stageID, "", message, Pending, UNBOUND, "", now, now));
    case RollsBack(projectID, targetID, newID, message, applied, now) =>
      RollbackPersists(h.records, projectID, targetID, newID, message, applied, now);
    case StageAdded(stage) => StagesPersist(h.records, h.records.stages[stage.id := stage]);
    case StageMarked(stageID, status) => StagesPersist(h.records, Apply(h, step).records.stages);
  }

  /** Nothing is ever lost or moved. */
  lemma StepEndures(h: History, step: Step)
    requires Tidy(h) && Legal(h, step)
    ensures Endures(h.records, Apply(h, step).records) && h.placeholders <= Apply(h, step).placeholders
  {
    if step.StageSynced? {
      StageIsProper(h, step.sync, step.slug, step.runs, step.supply);
      AnyRunsInOrder(Progress(h.records, CopyOf(h, step.sync, step.slug)), h.syncs[step.sync].projectID, step.slug, step.runs, step.supply);
    } else {
      OtherStepsPersist(h, step);
      PersistsEndures(h.records, Apply(h, step).records);
    }
  }

  lemma CopyStaysTidy(s: Records, s': Records, placeholders: set<string>, placeholders': set<string>, pending: Option<Release>)
    requires CopyTidy(s, placeholders, pending) && Endures(s, s') && placeholders <= placeholders'
    ensures CopyTidy(s', placeholders', pending)
  {
    CopyLasts(s, s', pending);
  }

  lemma ListedCopyIsTidy(h: History, projectID: string, listing: seq<Release>, slug: string)
    requires TidyRecords(h.records, h.placeholders) && IsReleaseListing(listing, h.records.releases, projectID)
    requires slug in StagesOf(listing, h.records.stages)
    ensures CopyTidy(h.records, h.placeholders, StagesOf(listing, h.records.stages)[slug].pending)
  {
    GroupingDescribes(listing, h.records.stages, slug);
  }

  /** Whatever a sync remembers after a step it remembered before, or has just listed. */
  lemma RememberedBefore(h: History, step: Step, sync: nat, slug: string)
    requires Legal(h, step) && IsWaiting(Apply(h, step), sync, slug)
    ensures if IsWaiting(h, sync, slug) then CopyOf(Apply(h, step), sync, slug) == CopyOf(h, sync, slug)
            else && step.SyncReads? && slug in StagesOf(step.listing, h.records.stages)
                 && CopyOf(Apply(h, step), sync, slug) == StagesOf(step.listing, h.records.stages)[slug].pending
  {
  }

  lemma StepKeepsCopies(h: History, step: Step)
    requires Tidy(h) && Legal(h, step)
    ensures CopiesTidy(Apply(h, step))
  {
    var h' := Apply(h, step);
    StepEndures(h, step);
    forall sync: nat, slug | IsWaiting(h', sync, slug)
      ensures CopyTidy(h'.records, h'.placeholders, CopyOf(h', sync, slug))
    {
      RememberedBefore(h, step, sync, slug);
      if IsWaiting(h, sync, slug) {
        CopyStaysTidy(h.records, h'.records, h.placeholders, h'.placeholders, CopyOf(h, sync, slug));
      } else {
        ListedCopyIsTidy(h, step.projectID, step.listing, slug);
      }
    }
  }

  // ---------------------------------------------------------------- every run

  lemma {:induction false} RunIsTidy(steps: seq<Step>)
    requires LegalRun(steps)
    ensures Tidy(After(steps))
  {
    if steps != [] {
      var front, step := steps[..|steps| - 1], steps[|steps| - 1];
      RunIsTidy(front);
      StepKeepsTidyRecords(After(front), step);
      StepKeepsPlaced(After(front), step);
      StepKeepsCopies(After(front), step);
    }
  }

  /**
   Over every run, with syncs that overlap each other and any webhooks: no two releases share a run, every open release
   without a run is a bootstrap placeholder in a stage of its project, and all stages have canonical slugs.
   */
  lemma RecordsStayTidy(steps: seq<Step>)
    requires LegalRun(steps)
    ensures Tidy(After(steps))
    ensures var releases := After(steps).records.releases;
      && (forall a, b :: a in releases && b in releases && a != b && releases[a].runID == releases[b].runID ==> releases[a].runID == UNBOUND)
      && (forall id :: id in releases && IsOpen(releases[id]) ==>
            && id in After(steps).placeholders && releases[id].stageID in After(steps).records.stages
            && After(steps).records.stages[releases[id].stageID].projectID == releases[id].projectID)
      && CanonicalSlugs(After(steps).records.stages)
  {
    RunIsTidy(steps);
  }

  lemma {:induction false} PrefixIsLegal(steps: seq<Step>, i: nat)
    requires LegalRun(steps) && i <= |steps|
    ensures LegalRun(steps[..i])
    decreases |steps|
  {
    if i < |steps| {
      PrefixIsLegal(steps[..|steps| - 1], i);
      assert steps[..|steps| - 1][..i] == steps[..i];
    } else {
      assert steps[..i] == steps;
    }
  }

  /** Over every run: no record is lost or moved, and whoever waited and changed has a run. */
  lemma {:induction false} RecordsEndure(steps: seq<Step>, i: nat)
    requires LegalRun(steps) && i <= |steps|
    ensures Endures(After(steps[..i]).records, After(steps).records)
    decreases |steps|
  {
    if i < |steps| {
      var front := steps[..|steps| - 1];
      assert front[..i] == steps[..i];
      RecordsEndure(front, i);
      RunIsTidy(front);
      StepEndures(After(front), steps[|steps| - 1]);
      EnduresOn(After(steps[..i]).records, After(front).records, After(steps).records);
    } else {
      assert steps[..i] == steps;
      EnduresItself(After(steps).records);
    }
  }

  lemma EnduresItself(s: Records)
    ensures Endures(s, s) && Persists(s, s)
  {
  }

  // ---------------------------------------------------------------- when a binding is lost

  /** The step writes a copy over a release whose run has been bound since the copy was listed. */
  ghost predicate Overwrites(h: History, step: Step) {
    && step.StageSynced? && IsWaiting(h, step.sync, step.slug)
    && Overtaken(h.records, CopyOf(h, step.sync, step.slug), step.runs)
  }

  /** This release. */
  ghost predicate OverwritesRelease(h: History, step: Step, id: string) {
    Overwrites(h, step) && CopyOf(h, step.sync, step.slug).value.id == id
  }

  /** And nobody carries the run afterwards. */
  ghost predicate Loses(h: History, step: Step, runID: int) {
    && step.StageSynced? && IsWaiting(h, step.sync, step.slug)
    && Lost(h.records, CopyOf(h, step.sync, step.slug), step.runs, runID)
  }

  /** A step leaves every run with its release exactly if it is no stage of a sync with an overtaken copy and a new run. */
  lemma StepPersistsIff(h: History, step: Step)
    requires Tidy(h) && Legal(h, step)
    ensures Persists(h.records, Apply(h, step).records) <==> !Overwrites(h, step)
  {
    if step.StageSynced? {
      StageIsProper(h, step.sync, step.slug, step.runs, step.supply);
      StagePersistsIff(h.records, CopyOf(h, step.sync, step.slug), h.syncs[step.sync].projectID, step.slug, step.runs, step.supply);
    } else {
      OtherStepsPersist(h, step);
    }
  }

  ghost predicate Carries(h: History, id: string, runID: int) {
    id in h.records.releases && h.records.releases[id].runID == runID
  }

  /** The same for one release and its run. */
  lemma BindingStaysInStepIff(h: History, step: Step, id: string, runID: int)
    requires Tidy(h) && Legal(h, step) && Carries(h, id, runID) && runID != UNBOUND
    ensures Carries(Apply(h, step), id, runID) <==> !OverwritesRelease(h, step, id)
  {
    if step.StageSynced? {
      StageIsProper(h, step.sync, step.slug, step.runs, step.supply);
      BindingStaysIff(h.records, CopyOf(h, step.sync, step.slug), h.syncs[step.sync].projectID, step.slug, step.runs, step.supply, id);
    } else {
      OtherStepsPersist(h, step);
      assert Lasting(h.records.releases[id], Apply(h, step).records.releases[id]);
    }
  }

  /** No step from the `i`th on overwrites a bound release. */
  ghost predicate Undisturbed(steps: seq<Step>, i: nat) {
    |steps| > i ==>
      var front := steps[..|steps| - 1];
      Undisturbed(front, i) && !Overwrites(After(front), steps[|steps| - 1])
  }

  ghost predicate NeverOverwritten(steps: seq<Step>, i: nat, id: string) {
    |steps| > i ==>
      var front := steps[..|steps| - 1];
      NeverOverwritten(front, i, id) && !OverwritesRelease(After(front), steps[|steps| - 1], id)
  }

  ghost predicate AlwaysCarries(steps: seq<Step>, i: nat, id: string, runID: int) {
    Carries(After(steps), id, runID) && (|steps| > i ==> AlwaysCarries(steps[..|steps| - 1], i, id, runID))
  }

  /** Over every run in which no bound release is overwritten: records are never moved, and a run stays with its release. */
  lemma {:induction false} RecordsPersist(steps: seq<Step>, i: nat)
    requires LegalRun(steps) && i <= |steps| && Undisturbed(steps, i)
    ensures Persists(After(steps[..i]).records, After(steps).records)
    decreases |steps|
  {
    if i < |steps| {
      var front := steps[..|steps| - 1];
      assert front[..i] == steps[..i];
      RecordsPersist(front, i);
      RunIsTidy(front);
      StepPersistsIff(After(front), steps[|steps| - 1]);
      PersistsOn(After(steps[..i]).records, After(front).records, After(steps).records);
    } else {
      assert steps[..i] == steps;
      EnduresItself(After(steps).records);
    }
  }

  /**
   Over every run: a run stays with the release that it was bound to through all later steps exactly if none of them
   is a stage of a sync that listed the release before the run was bound to it and is handed a further new run.
   */
  lemma {:induction false} BindingStaysInARunIff(steps: seq<Step>, i: nat, id: string, runID: int)
    requires LegalRun(steps) && i <= |steps| && Carries(After(steps[..i]), id, runID) && runID != UNBOUND
    ensures AlwaysCarries(steps, i, id, runID) <==> NeverOverwritten(steps, i, id)
    decreases |steps|
  {
    if i < |steps| {
      var front := steps[..|steps| - 1];
      assert front[..i] == steps[..i];
      BindingStaysInARunIff(front, i, id, runID);
      RunIsTidy(front);
      if NeverOverwritten(front, i, id) {
        CarriesAtTheEnd(front, i, id, runID);
        BindingStaysInStepIff(After(front), steps[|steps| - 1], id, runID);
      }
    } else {
      assert steps[..i] == steps;
    }
  }

  lemma CarriesAtTheEnd(steps: seq<Step>, i: nat, id: string, runID: int)
    requires AlwaysCarries(steps, i, id, runID)
    ensures Carries(After(steps), id, runID)
  {
  }

  /** A step takes a run out of the records altogether exactly if it overwrites the run's release and is not handed the run again. */
  lemma RunIsLostIff(h: History, step: Step, runID: int)
    requires Tidy(h) && Legal(h, step) && StatusOfRun(h.records.releases, runID).Some? && runID != UNBOUND
    ensures StatusOfRun(Apply(h, step).records.releases, runID).None? <==> Loses(h, step, runID)
  {
    if step.StageSynced? {
      StageIsProper(h, step.sync, step.slug, step.runs, step.supply);
      StageStatuses(h.records, CopyOf(h, step.sync, step.slug), h.syncs[step.sync].projectID, step.slug, step.runs, step.supply, runID);
    } else {
      OtherStepsPersist(h, step);
      KeptRunIsFound(h.records, Apply(h, step).records, runID);
    }
  }

  lemma KeptRunIsFound(s: Records, s': Records, runID: int)
    requires Persists(s, s') && StatusOfRun(s.releases, runID).Some? && runID != UNBOUND
    ensures StatusOfRun(s'.releases, runID).Some?
  {
    var id := FindRun(s.releases, runID).value;
    assert Lasting(s.releases[id], s'.releases[id]);
  }

  // ---------------------------------------------------------------- how runs begin

  lemma {:induction false} OneMoreStep(steps: seq<Step>, step: Step)
    requires LegalRun(steps) && Legal(After(steps), step)
    ensures LegalRun(steps + [step]) && After(steps + [step]) == Apply(After(steps), step)
  {
    assert (steps + [step])[..|steps|] == steps;
  }

  /** A stage and a placeholder in it, as a project's first bootstrap leaves them. */
  lemma {:induction false} FirstBootstrap(stage: Stage, waiting: Release) returns (steps: seq<Step>)
    requires stage.id != "" && IsCanonical(stage.slug)
    requires waiting == Release(waiting.id, stage.projectID, stage.id, "", waiting.commitMessage, Pending, UNBOUND, "", 0, 0)
    ensures LegalRun(steps) && Tidy(After(steps))
    ensures After(steps) == History(Records(map[waiting.id := waiting], map[stage.id := stage]), {waiting.id}, [])
  {
    var add, boot := StageAdded(stage), Bootstraps(stage.projectID, stage.id, waiting.id, waiting.commitMessage, 0);
    assert FindStage(START.records.stages, stage.projectID, stage.slug).None?;
    OneMoreStep([], add);
    assert [] + [add] == [add];
    assert After([add]) == START.(records := Records(map[], map[stage.id := stage]));
    OneMoreStep([add], boot);
    steps := [add] + [boot];
    RunIsTidy(steps);
  }
}
