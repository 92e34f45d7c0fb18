/** Webhooks that are delivered twice. */
module ReleaseReplay {
  import opened Wrappers
  import opened Text
  import opened Projects
  import opened Releases
  import opened ReleaseRuns
  import opened ReleaseEffects
  import opened ReleaseHistory
  import Names

  ghost predicate SameButForTime(s: Records, s': Records) {
    && s'.stages == s.stages
    && s'.releases.Keys == s.releases.Keys
    && forall id :: id in s.releases ==> s'.releases[id] == s.releases[id].(updatedAt := s'.releases[id].updatedAt)
  }

  /** The webhook belongs to this project. */
  predicate Owns(p: Project, payload: Payload) {
    && Trim(payload.repositoryOwner) != "" && Trim(payload.repositoryName) != ""
    && Serves(p, Trim(payload.repositoryOwner), Trim(payload.repositoryName))
  }

  /** The project that the handler's search picks: one that owns the webhook, if there is any. */
  ghost predicate IsOwner(projects: map<string, Project>, payload: Payload, project: Option<string>) {
    match project
    case Some(id) => id in projects && Owns(projects[id], payload)
    case None => forall id :: id in projects ==> !Owns(projects[id], payload)
  }

  /** A delivery as the handler makes it: the project is looked for when no release carries the run. */
  ghost predicate IsDelivery(s: Records, projects: map<string, Project>, payload: Payload, d: Delivery) {
    LegalDelivery(s, payload, d) && (FindRun(s.releases, payload.runID).None? ==> IsOwner(projects, payload, d.project))
  }

  /** Both deliveries see the same projects; each may find another one of the repository. */
  ghost predicate Redelivery(s: Records, projects: map<string, Project>, payload: Payload, d: Delivery, again: Delivery) {
    IsDelivery(s, projects, payload, d) && IsDelivery(Webhook(s, payload, d), projects, payload, again)
  }

  /** Somebody waits in the project's stage with the slug. */
  ghost predicate Awaited(s: Records, projectID: string, slug: string) {
    && FindStage(s.stages, projectID, slug).Some?
    && exists id :: id in s.releases && Waits(s.releases[id], projectID, FindStage(s.stages, projectID, slug).value)
  }

  /**
   When a webhook may be repeated: its status is recognised, or its run is known, or no project owns it, or nobody
   waits for it, or somebody waits in every project that owns it. Otherwise the first delivery drops the binding,
   and a second one that finds a project in which nobody waits creates a release there.
   */
  ghost predicate Repeatable(s: Records, projects: map<string, Project>, payload: Payload, d: Delivery) {
    || WebhookStatus(payload.status, payload.conclusion).Some?
    || FindRun(s.releases, payload.runID).Some? || d.project.None? || d.pick.None?
    || forall id :: id in projects && Owns(projects[id], payload) ==> Awaited(s, id, WebhookSlug(payload))
  }

  /** The record carries the payload's run and already says everything the payload says; its stage follows it. */
  ghost predicate Settled(s: Records, id: string, payload: Payload) {
    && id in s.releases && s.releases[id].id == id && s.releases[id].runID == payload.runID
    && Some(s.releases[id].status) == WebhookStatus(payload.status, payload.conclusion)
    && s.releases[id].imageTag == OrElse(payload.imageTag, s.releases[id].imageTag)
    && s.stages == StagesAfter(s.stages, s.releases[id])
  }

  lemma FinishedSettles(s: Records, release: Release, payload: Payload, now: int)
    requires release.runID == payload.runID && WebhookStatus(payload.status, payload.conclusion).Some?
    ensures Settled(Finished(s, release, payload, now), release.id, payload)
  {
    var status := WebhookStatus(payload.status, payload.conclusion);
    var tag := OrElse(payload.imageTag, release.imageTag);
    var r := release.(status := status.value, imageTag := tag, updatedAt := now);
    assert Finished(s, release, payload, now) == Stored(s, r);
    StagesFollow(s, r);
  }

  lemma StagesFollow(s: Records, r: Release)
    ensures Stored(s, r).stages == StagesAfter(Stored(s, r).stages, r)
  {
  }

  lemma SettledIsRepeatable(s: Records, id: string, payload: Payload, again: Delivery)
    requires Sound(s) && Settled(s, id, payload) && payload.runID != UNBOUND
    ensures SameButForTime(s, Webhook(s, payload, again))
  {
    RunIsFound(s, id);
  }

  lemma RecognisedIsRepeatable(s: Records, projects: map<string, Project>, payload: Payload, d: Delivery, again: Delivery)
    requires Sound(s) && Redelivery(s, projects, payload, d, again) && WebhookStatus(payload.status, payload.conclusion).Some?
    ensures SameButForTime(Webhook(s, payload, d), Webhook(Webhook(s, payload, d), payload, again))
  {
    WebhookKeepsTidy(s, payload, d, s.releases.Keys);
    var s' := Webhook(s, payload, d);
    match FindRun(s.releases, payload.runID)
    case Some(id) =>
      FinishedSettles(s, s.releases[id], payload, d.now);
      SettledIsRepeatable(s', id, payload, again);
    case None =>
      if d.project.Some? {
        SettledAfterUnseenRun(s, d.project.value, payload, d);
        SettledIsRepeatable(s', if d.pick.Some? then d.pick.value.id else d.newRelease, payload, again);
      } else {
        UnownedChangesNothing(s, projects, payload, d, again);
      }
  }

  lemma UnownedChangesNothing(s: Records, projects: map<string, Project>, payload: Payload, d: Delivery, again: Delivery)
    requires Redelivery(s, projects, payload, d, again) && FindRun(s.releases, payload.runID).None? && d.project.None?
    ensures Webhook(s, payload, d) == s == Webhook(s, payload, again)
  {
  }

  lemma SettledAfterUnseenRun(s: Records, projectID: string, payload: Payload, d: Delivery)
    requires LegalDelivery(s, payload, d) && WebhookStatus(payload.status, payload.conclusion).Some?
    requires FindRun(s.releases, payload.runID).None? && d.project == Some(projectID)
    ensures Settled(Webhook(s, payload, d), if d.pick.Some? then d.pick.value.id else d.newRelease, payload)
  {
    var stage := ResolveStage(s.stages, projectID, WebhookSlug(payload), d.newStage, d.created);
    var s1 := s.(stages := stage.stages);
    match d.pick
    case Some(pending) => FinishedSettles(s1, Attached(pending, payload, d.now), payload, d.now);
    case None =>
      var r := FromPayload(d.newRelease, projectID, stage.stageID, payload, d.now);
      FinishedSettles(s1.(releases := s1.releases[r.id := r]), r, payload, d.now);
  }

  /** No release but this one is touched. */
  ghost predicate OnlyTouches(s: Records, s': Records, id: string) {
    forall other :: other in s.releases && other != id ==> other in s'.releases && s'.releases[other] == s.releases[other]
  }

  lemma FinishedOnlyTouches(s: Records, release: Release, payload: Payload, now: int)
    ensures OnlyTouches(s, Finished(s, release, payload, now), release.id)
  {
    var status := WebhookStatus(payload.status, payload.conclusion);
    if status.Some? {
      var tag := OrElse(payload.imageTag, release.imageTag);
      assert Finished(s, release, payload, now) == Stored(s, release.(status := status.value, imageTag := tag, updatedAt := now));
    }
  }

  lemma UnseenRunOnlyTouches(s: Records, projectID: string, payload: Payload, d: Delivery)
    requires FindRun(s.releases, payload.runID).None? && d.project == Some(projectID)
    ensures OnlyTouches(s, Webhook(s, payload, d), if d.pick.Some? then d.pick.value.id else d.newRelease)
  {
    var stage := ResolveStage(s.stages, projectID, WebhookSlug(payload), d.newStage, d.created);
    var s1 := s.(stages := stage.stages);
    match d.pick
    case Some(pending) => FinishedOnlyTouches(s1, Attached(pending, payload, d.now), payload, d.now);
    case None =>
      var r := FromPayload(d.newRelease, projectID, stage.stageID, payload, d.now);
      FinishedOnlyTouches(s1.(releases := s1.releases[r.id := r]), r, payload, d.now);
  }

  /**
   A recognised status of a run that has an owner ends on exactly one release, with the payload's image and with
   the stage following; no other release is touched.
   */
  lemma WebhookBindsTheRun(s: Records, payload: Payload, d: Delivery) returns (id: string)
    requires Sound(s) && LegalDelivery(s, payload, d) && WebhookStatus(payload.status, payload.conclusion).Some?
    requires FindRun(s.releases, payload.runID).Some? || d.project.Some?
    ensures var s' := Webhook(s, payload, d);
      && Settled(s', id, payload)
      && (forall other :: other in s'.releases && s'.releases[other].runID == payload.runID ==> other == id)
      && OnlyTouches(s, s', id)
  {
    WebhookKeepsTidy(s, payload, d, s.releases.Keys);
    match FindRun(s.releases, payload.runID)
    case Some(known) =>
      id := known;
      FinishedSettles(s, s.releases[id], payload, d.now);
      FinishedOnlyTouches(s, s.releases[id], payload, d.now);
    case None =>
      id := if d.pick.Some? then d.pick.value.id else d.newRelease;
      SettledAfterUnseenRun(s, d.project.value, payload, d);
      UnseenRunOnlyTouches(s, d.project.value, payload, d);
  }

  /** With an unrecognised status only a release that was created for the run is kept, and then the run is found. */
  lemma UnrecognisedIsRepeatable(s: Records, projects: map<string, Project>, payload: Payload, d: Delivery, again: Delivery)
    requires Sound(s) && Redelivery(s, projects, payload, d, again) && WebhookStatus(payload.status, payload.conclusion).None?
    requires FindRun(s.releases, payload.runID).Some? || d.project.None? || d.pick.None?
    ensures Webhook(Webhook(s, payload, d), payload, again) == Webhook(s, payload, d)
  {
    if FindRun(s.releases, payload.runID).None? {
      if d.project.Some? {
        assert Webhook(s, payload, d).releases[d.newRelease].runID == payload.runID;
      } else {
        UnownedChangesNothing(s, projects, payload, d, again);
      }
    }
  }

  /** Whoever is picked waits in the stage that exists for the slug. */
  lemma {:induction false} PickWaitsThere(s: Records, projectID: string, slug: string, newStage: string, created: bool, pick: Release)
    requires Placed(s) && newStage !in s.stages
    requires IsPick(s.releases, projectID, ResolveStage(s.stages, projectID, slug, newStage, created).stageID, Some(pick))
    ensures FindStage(s.stages, projectID, slug).Some? && Waits(pick, projectID, FindStage(s.stages, projectID, slug).value)
    ensures ResolveStage(s.stages, projectID, slug, newStage, created).stages == s.stages
  {
    assert InItsProject(s.stages, s.releases[pick.id]);
  }

  lemma {:induction false} ExistingStageIsUsed(s: Records, projectID: string, slug: string, newStage: string, created: bool)
    requires FindStage(s.stages, projectID, slug).Some?
    ensures ResolveStage(s.stages, projectID, slug, newStage, created) == Resolved(FindStage(s.stages, projectID, slug).value, s.stages)
  {
  }

  /** Where everything is in its place a placeholder is found exactly if somebody waits in the stage that exists for the slug. */
  lemma {:induction false} PickedIffAwaited(s: Records, projectID: string, slug: string, newStage: string, created: bool, pick: Option<Release>)
    requires Placed(s) && newStage !in s.stages
    requires IsPick(s.releases, projectID, ResolveStage(s.stages, projectID, slug, newStage, created).stageID, pick)
    ensures pick.Some? <==> Awaited(s, projectID, slug)
    ensures pick.Some? ==> ResolveStage(s.stages, projectID, slug, newStage, created).stages == s.stages
  {
    match pick
    case Some(r) => PickWaitsThere(s, projectID, slug, newStage, created, r);
    case None =>
      if FindStage(s.stages, projectID, slug).Some? {
        ExistingStageIsUsed(s, projectID, slug, newStage, created);
      }
  }

  /** An unrecognised status that finds a placeholder changes nothing at all. */
  lemma DroppedBinding(s: Records, projectID: string, payload: Payload, d: Delivery)
    requires Sound(s) && Placed(s) && LegalDelivery(s, payload, d) && WebhookStatus(payload.status, payload.conclusion).None?
    requires FindRun(s.releases, payload.runID).None? && d.project == Some(projectID) && d.pick.Some?
    ensures Webhook(s, payload, d) == s
  {
    PickedIffAwaited(s, projectID, WebhookSlug(payload), d.newStage, d.created, d.pick);
  }

  lemma CreatedRelease(s: Records, projectID: string, payload: Payload, d: Delivery)
    requires LegalDelivery(s, payload, d) && WebhookStatus(payload.status, payload.conclusion).None?
    requires FindRun(s.releases, payload.runID).None? && d.project == Some(projectID) && d.pick.None?
    ensures d.newRelease in Webhook(s, payload, d).releases && !SameButForTime(s, Webhook(s, payload, d))
  {
  }

  /** A delivery to a project in which somebody waits changes nothing. */
  lemma {:induction false} AwaitedDelivery(s: Records, projectID: string, payload: Payload, again: Delivery)
    requires Sound(s) && Placed(s) && LegalDelivery(s, payload, again) && WebhookStatus(payload.status, payload.conclusion).None?
    requires FindRun(s.releases, payload.runID).None? && again.project == Some(projectID) && Awaited(s, projectID, WebhookSlug(payload))
    ensures Webhook(s, payload, again) == s
  {
    PickedIffAwaited(s, projectID, WebhookSlug(payload), again.newStage, again.created, again.pick);
    DroppedBinding(s, projectID, payload, again);
  }

  /** One to a project in which nobody waits creates a release. */
  lemma {:induction false} UnawaitedDelivery(s: Records, projectID: string, payload: Payload, again: Delivery)
    requires Sound(s) && Placed(s) && LegalDelivery(s, payload, again) && WebhookStatus(payload.status, payload.conclusion).None?
    requires FindRun(s.releases, payload.runID).None? && again.project == Some(projectID) && !Awaited(s, projectID, WebhookSlug(payload))
    ensures !SameButForTime(s, Webhook(s, payload, again))
  {
    PickedIffAwaited(s, projectID, WebhookSlug(payload), again.newStage, again.created, again.pick);
    CreatedRelease(s, projectID, payload, again);
  }

  lemma {:induction false} SameIsSame(s: Records, s': Records)
    requires s' == s
    ensures SameButForTime(s, s')
  {
  }

  /** The second delivery after a dropped binding: harmless exactly if somebody waits in the project that it finds. */
  lemma {:induction false} SecondDelivery(s: Records, projectID: string, payload: Payload, again: Delivery)
    requires Sound(s) && Placed(s) && LegalDelivery(s, payload, again) && WebhookStatus(payload.status, payload.conclusion).None?
    requires FindRun(s.releases, payload.runID).None? && again.project == Some(projectID)
    ensures SameButForTime(s, Webhook(s, payload, again)) <==> Awaited(s, projectID, WebhookSlug(payload))
  {
    if Awaited(s, projectID, WebhookSlug(payload)) {
      AwaitedDelivery(s, projectID, payload, again);
      SameIsSame(s, Webhook(s, payload, again));
    } else {
      UnawaitedDelivery(s, projectID, payload, again);
    }
  }

  lemma DroppedThenDelivered(s: Records, projects: map<string, Project>, payload: Payload, d: Delivery, again: Delivery)
    requires Sound(s) && Placed(s) && Redelivery(s, projects, payload, d, again)
    requires WebhookStatus(payload.status, payload.conclusion).None?
    requires FindRun(s.releases, payload.runID).None? && d.project.Some? && d.pick.Some?
    ensures again.project.Some? && again.project.value in projects && Owns(projects[again.project.value], payload)
    ensures LegalDelivery(s, payload, again) && Webhook(s, payload, d) == s
  {
    DroppedBinding(s, d.project.value, payload, d);
  }

  /** One redelivery. */
  lemma {:induction false} ThisReplayIsHarmlessIff(s: Records, projects: map<string, Project>, payload: Payload, d: Delivery, again: Delivery)
    requires Sound(s) && Placed(s) && Redelivery(s, projects, payload, d, again)
    ensures SameButForTime(Webhook(s, payload, d), Webhook(Webhook(s, payload, d), payload, again)) <==>
      || WebhookStatus(payload.status, payload.conclusion).Some?
      || FindRun(s.releases, payload.runID).Some? || d.project.None? || d.pick.None?
      || (again.project.Some? && Awaited(s, again.project.value, WebhookSlug(payload)))
  {
    if WebhookStatus(payload.status, payload.conclusion).Some? {
      RecognisedIsRepeatable(s, projects, payload, d, again);
    } else if FindRun(s.releases, payload.runID).None? && d.project.Some? && d.pick.Some? {
      DroppedThenDelivered(s, projects, payload, d, again);
      SecondDelivery(s, again.project.value, payload, again);
    } else {
      UnrecognisedIsRepeatable(s, projects, payload, d, again);
      SameIsSame(Webhook(s, payload, d), Webhook(Webhook(s, payload, d), payload, again));
    }
  }

  lemma {:induction false} LongerThanAll(used: set<string>) returns (n: nat)
    ensures forall id :: id in used ==> |id| < n
  {
    n := 0;
    if used != {} {
      var id :| id in used;
      var m := LongerThanAll(used - {id});
      n := if m > |id| then m else |id| + 1;
      assert used == used - {id} + {id};
    }
  }

  /** A random id that is new can always be drawn. */
  lemma NewIDsExist(s: Records) returns (newRelease: string, newStage: string)
    requires Placed(s)
    ensures NewIDs(s, newRelease, newStage)
  {
    var n := LongerThanAll(s.releases.Keys + s.stages.Keys);
    newRelease := seq(n + 1, i => 'x');
    newStage := newRelease;
    forall id | id in s.releases
      ensures s.releases[id].stageID != newStage
    {
      assert InItsProject(s.stages, s.releases[id]);
    }
  }

  /** A redelivery that reaches a project in which nobody waits. */
  lemma UnawaitedRedelivery(s: Records, projects: map<string, Project>, payload: Payload, d: Delivery, projectID: string) returns (again: Delivery)
    requires Sound(s) && Placed(s) && IsDelivery(s, projects, payload, d) && WebhookStatus(payload.status, payload.conclusion).None?
    requires FindRun(s.releases, payload.runID).None? && d.project.Some? && d.pick.Some?
    requires projectID in projects && Owns(projects[projectID], payload) && !Awaited(s, projectID, WebhookSlug(payload))
    ensures Redelivery(s, projects, payload, d, again) && again.project == Some(projectID)
  {
    DroppedBinding(s, d.project.value, payload, d);
    var newRelease, newStage := NewIDsExist(s);
    again := Delivery(Some(projectID), None, newRelease, newStage, true, d.now);
    NobodyIsPicked(s, projectID, WebhookSlug(payload), newRelease, newStage, true);
  }

  lemma NobodyIsPicked(s: Records, projectID: string, slug: string, newRelease: string, newStage: string, created: bool)
    requires Placed(s) && NewIDs(s, newRelease, newStage) && !Awaited(s, projectID, slug)
    ensures IsPick(s.releases, projectID, ResolveStage(s.stages, projectID, slug, newStage, created).stageID, None)
  {
    var stageID := ResolveStage(s.stages, projectID, slug, newStage, created).stageID;
    forall id | id in s.releases
      ensures !Waits(s.releases[id], projectID, stageID)
    {
      assert InItsProject(s.stages, s.releases[id]);
    }
  }

  /**
   Delivering a webhook twice leaves releases and stages as one delivery does, up to the time of the update,
   whichever project of the repository the second delivery finds, exactly if the webhook is repeatable.
   */
  lemma ReplayIsHarmlessIff(s: Records, projects: map<string, Project>, payload: Payload, d: Delivery)
    requires Sound(s) && Placed(s) && IsDelivery(s, projects, payload, d)
    ensures (forall again :: Redelivery(s, projects, payload, d, again) ==>
               SameButForTime(Webhook(s, payload, d), Webhook(Webhook(s, payload, d), payload, again)))
       <==> Repeatable(s, projects, payload, d)
  {
    if Repeatable(s, projects, payload, d) {
      forall again | Redelivery(s, projects, payload, d, again)
        ensures SameButForTime(Webhook(s, payload, d), Webhook(Webhook(s, payload, d), payload, again))
      {
        ThisReplayIsHarmlessIff(s, projects, payload, d, again);
        if FindRun(s.releases, payload.runID).None? && d.project.Some? && d.pick.Some? && WebhookStatus(payload.status, payload.conclusion).None? {
          DroppedThenDelivered(s, projects, payload, d, again);
        }
      }
    } else {
      var id :| id in projects && Owns(projects[id], payload) && !Awaited(s, id, WebhookSlug(payload));
      var again := UnawaitedRedelivery(s, projects, payload, d, id);
      ThisReplayIsHarmlessIff(s, projects, payload, d, again);
    }
  }

  ghost predicate BreaksReplay(s: Records, projects: map<string, Project>, payload: Payload, d: Delivery, again: Delivery) {
    && Redelivery(s, projects, payload, d, again) && !Repeatable(s, projects, payload, d)
    && !SameButForTime(Webhook(s, payload, d), Webhook(Webhook(s, payload, d), payload, again))
  }

  lemma {:induction false} UnawaitedOwner(s: Records, projects: map<string, Project>, second: string, payload: Payload, d: Delivery)
    requires FindRun(s.releases, payload.runID).None? && WebhookStatus(payload.status, payload.conclusion).None?
    requires d.project.Some? && d.pick.Some?
    requires second in projects && Owns(projects[second], payload) && !Awaited(s, second, WebhookSlug(payload))
    ensures !Repeatable(s, projects, payload, d)
  {
  }

  lemma {:induction false} UnawaitedOwnerBreaksReplay(s: Records, projects: map<string, Project>, second: string, payload: Payload, d: Delivery)
    returns (again: Delivery)
    requires Sound(s) && Placed(s) && IsDelivery(s, projects, payload, d) && WebhookStatus(payload.status, payload.conclusion).None?
    requires FindRun(s.releases, payload.runID).None? && d.project.Some? && d.pick.Some?
    requires second in projects && Owns(projects[second], payload) && !Awaited(s, second, WebhookSlug(payload))
    ensures BreaksReplay(s, projects, payload, d, again)
  {
    again := UnawaitedRedelivery(s, projects, payload, d, second);
    UnawaitedOwner(s, projects, second, payload, d);
    DroppedThenDelivered(s, projects, payload, d, again);
    SecondDelivery(s, second, payload, again);
  }

  lemma {:induction false} OnlyStage(s: Records, stage: Stage, projectID: string, slug: string)
    requires s.stages == map[stage.id := stage]
    ensures FindStage(s.stages, projectID, slug) == if stage.projectID == projectID && stage.slug == slug then Some(stage.id) else None
  {
    assert s.stages[stage.id] == stage;
  }

  lemma {:induction false} OnlyReleaseIsPicked(s: Records, waiting: Release)
    requires s.releases == map[waiting.id := waiting] && IsOpen(waiting)
    ensures IsPick(s.releases, waiting.projectID, waiting.stageID, Some(waiting))
  {
  }

  /** After the first bootstrap of a project a delivery may find its placeholder. */
  lemma {:induction false} OnlyOneWaits(s: Records, waiting: Release, stage: Stage, payload: Payload) returns (d: Delivery)
    requires s == Records(map[waiting.id := waiting], map[stage.id := stage]) && Placed(s)
    requires waiting.projectID == stage.projectID && waiting.stageID == stage.id && IsOpen(waiting)
    requires payload.runID != UNBOUND && WebhookSlug(payload) == stage.slug
    ensures LegalDelivery(s, payload, d) && d.project == Some(stage.projectID) && d.pick == Some(waiting)
    ensures FindRun(s.releases, payload.runID).None?
  {
    var newRelease, newStage := NewIDsExist(s);
    d := Delivery(Some(stage.projectID), Some(waiting), newRelease, newStage, true, 1);
    OnlyStage(s, stage, stage.projectID, stage.slug);
    OnlyReleaseIsPicked(s, waiting);
    ExistingStageIsUsed(s, stage.projectID, stage.slug, newStage, true);
  }

  lemma {:induction false} IsDeliveryTo(s: Records, projects: map<string, Project>, projectID: string, payload: Payload, d: Delivery)
    requires projectID in projects && Owns(projects[projectID], payload)
    requires LegalDelivery(s, payload, d) && d.project == Some(projectID)
    ensures IsDelivery(s, projects, payload, d)
  {
    assert IsOwner(projects, payload, d.project);
  }

  lemma {:induction false} SharedRepository(
    s: Records, projects: map<string, Project>, waiting: Release, stage: Stage, second: string, payload: Payload)
    returns (d: Delivery, again: Delivery)
    requires Sound(s) && Placed(s) && s == Records(map[waiting.id := waiting], map[stage.id := stage])
    requires waiting.projectID == stage.projectID && waiting.stageID == stage.id && IsOpen(waiting) && stage.projectID != second
    requires stage.projectID in projects && Owns(projects[stage.projectID], payload) && second in projects && Owns(projects[second], payload)
    requires payload.runID != UNBOUND && WebhookSlug(payload) == stage.slug && WebhookStatus(payload.status, payload.conclusion).None?
    ensures BreaksReplay(s, projects, payload, d, again)
  {
    d := OnlyOneWaits(s, waiting, stage, payload);
    OnlyStage(s, stage, second, stage.slug);
    IsDeliveryTo(s, projects, stage.projectID, payload, d);
    again := UnawaitedOwnerBreaksReplay(s, projects, second, payload, d);
  }

  /** GitHub announces a queued run for the production workflow. */
  predicate Announces(payload: Payload) {
    payload.runID != UNBOUND && payload.status == "queued" && payload.stageSlug == "" && payload.path == ""
  }

  lemma NamelessRunIsProduction(payload: Payload)
    requires payload.stageSlug == "" && payload.path == ""
    ensures WebhookSlug(payload) == "production"
  {
    Names.EmptySlug("");
    assert Names.StageSlugFromWorkflowPath("") == "";
  }

  lemma QueuedIsUnrecognised(conclusion: string)
    ensures WebhookStatus("queued", conclusion).None?
  {
    assert "queued"[0] == 'q' && "completed"[0] == 'c' && "in_progress"[0] == 'i';
  }

  lemma {:induction false} AnnouncedRun(payload: Payload)
    requires Announces(payload)
    ensures payload.runID != UNBOUND && WebhookSlug(payload) == "production" && IsCanonical("production")
    ensures WebhookStatus(payload.status, payload.conclusion).None?
  {
    ProductionIsCanonical();
    NamelessRunIsProduction(payload);
    QueuedIsUnrecognised(payload.conclusion);
  }

  /**
   A run of the system and a webhook that is not repeatable in it: two live projects share a repository, only the
   first was bootstrapped, and GitHub announces a queued run. The delivery that finds the first project changes
   nothing, the one that finds the second creates a release.
   */
  lemma {:induction false} SharedRepositoryBreaksReplay(
    projects: map<string, Project>, first: string, second: string, stageID: string, placeholder: string, payload: Payload)
    returns (steps: seq<Step>, d: Delivery, again: Delivery)
    requires first in projects && second in projects && first != second && Owns(projects[first], payload) && Owns(projects[second], payload)
    requires stageID != "" && Announces(payload)
    ensures LegalRun(steps) && BreaksReplay(After(steps).records, projects, payload, d, again)
  {
    AnnouncedRun(payload);
    var stage := Stage(stageID, first, WebhookSlug(payload), StageActive);
    var waiting := Release(placeholder, first, stageID, "", "", Pending, UNBOUND, "", 0, 0);
    steps := FirstBootstrap(stage, waiting);
    d, again := SharedRepository(After(steps).records, projects, waiting, stage, second, payload);
  }
}
