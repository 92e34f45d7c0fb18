/** The guard does act: an unpaid project is suspended after the grace period and deleted after the retention period. */
module GuardProgress {
  import opened Wrappers
  import opened Projects
  import opened Guard
  import opened GuardRuns
  import opened GuardHistory

  /** Every tick for the user in steps `from` up to `to` works: it finds no money, and no provisioner call fails. */
  ghost predicate Relentless(ws: seq<World>, steps: seq<Step>, userID: string, from: nat, to: nat)
    requires |ws| == |steps| + 1
  {
    forall j :: from <= j < to && j < |steps| && TickOf(steps[j], userID) ==>
      SawNoMoney(ws[j], userID) && Workable(ws[j].guard.projects, userID, steps[j].at, steps[j].broken)
  }

  /** The owner neither resumes nor deletes the project in steps `from` up to `to`, and no handler writes back an old copy of it. */
  ghost predicate LeftAlone(ws: seq<World>, steps: seq<Step>, id: string, from: nat, to: nat)
    requires |ws| == |steps| + 1
  {
    forall j :: from <= j < to && j < |steps| ==> !Touches(ws[j], steps[j], id)
  }

  ghost predicate Touches(w: World, step: Step, id: string) {
    (step.OwnerResumes? && step.id == id) || (step.OwnerDeletes? && step.id == id) || PutBackBy(w, step, id)
  }

  lemma GraceStays(w: World, step: Step, terms: Terms, userID: string)
    requires Legal(w, step) && userID in w.guard.grace
    requires TickOf(step, userID) ==> SawNoMoney(w, userID)
    ensures var grace := Apply(w, step, terms).guard.grace; userID in grace && grace[userID] == w.guard.grace[userID]
  {
  }

  lemma {:induction false} GraceGoesOn(ws: seq<World>, steps: seq<Step>, terms: Terms, userID: string, i: nat, j: nat)
    requires Steps(ws, steps, terms) && i <= j < |ws|
    requires userID in ws[i].guard.grace && Relentless(ws, steps, userID, i, j)
    ensures userID in ws[j].guard.grace && ws[j].guard.grace[userID] == ws[i].guard.grace[userID]
  {
    if i < j {
      GraceGoesOn(ws, steps, terms, userID, i, j - 1);
      assert Follows(ws, steps, terms, j - 1);
      GraceStays(ws[j - 1], steps[j - 1], terms, userID);
    }
  }

  /** After a tick that saw no money the user is on grace, at the latest from the time of that tick. */
  lemma TickPutsOnGrace(ws: seq<World>, steps: seq<Step>, terms: Terms, userID: string, i: nat)
    requires Run(ws, steps, terms) && i < |steps| && TickOf(steps[i], userID) && SawNoMoney(ws[i], userID)
    ensures userID in ws[i + 1].guard.grace && ws[i + 1].guard.grace[userID] <= At(steps[i])
  {
    assert Follows(ws, steps, terms, i);
    if userID in ws[i].guard.grace {
      var p, g := GraceOrigin(ws, steps, terms, i, userID);
    }
  }

  ghost predicate Doomed(w: World, id: string, owner: string, due: int) {
    && id in w.guard.projects && w.guard.projects[id].owner == owner
    && (|| w.guard.projects[id].status == Deleted
        || (w.guard.projects[id].status == Suspended && w.guard.projects[id].deletionDueAt == Some(due)))
  }

  lemma DoomedStays(w: World, step: Step, terms: Terms, id: string, owner: string, due: int)
    requires Legal(w, step) && Keyed(w.guard.projects) && Doomed(w, id, owner, due)
    requires TickOf(step, owner) ==> SawNoMoney(w, owner) && Workable(w.guard.projects, owner, step.at, step.broken)
    requires !Touches(w, step, id)
    ensures Doomed(Apply(w, step, terms), id, owner, due)
  {
    if step.GuardTick? {
      DoomedTick(w, step.userID, step.at, step.listing, step.broken, terms, id, owner, due);
    }
  }

  lemma DoomedTick(
    w: World, userID: string, at: int, listing: seq<Project>, broken: set<string>, terms: Terms, id: string, owner: string, due: int)
    requires IsListing(listing, w.guard.projects) && Keyed(w.guard.projects) && Doomed(w, id, owner, due)
    requires userID == owner ==> SawNoMoney(w, owner) && Workable(w.guard.projects, owner, at, broken)
    ensures Doomed(Apply(w, GuardTick(userID, at, listing, broken), terms), id, owner, due)
  {
    if userID == owner {
      SmoothTick(w.guard, w.books, terms, owner, at, listing, broken);
    } else {
      TickIsBounded(w.guard, w.books, terms, userID, at, listing, broken, id);
    }
  }

  lemma {:induction false} DoomedGoesOn(
    ws: seq<World>, steps: seq<Step>, terms: Terms, id: string, owner: string, due: int, i: nat, j: nat)
    requires Run(ws, steps, terms) && i <= j < |ws|
    requires Doomed(ws[i], id, owner, due) && Relentless(ws, steps, owner, i, j) && LeftAlone(ws, steps, id, i, j)
    ensures Doomed(ws[j], id, owner, due)
  {
    if i < j {
      DoomedGoesOn(ws, steps, terms, id, owner, due, i, j - 1);
      RunKeepsProjects(ws, steps, terms, 0, j - 1);
      assert Follows(ws, steps, terms, j - 1);
      DoomedStays(ws[j - 1], steps[j - 1], terms, id, owner, due);
    }
  }

  lemma OverdueTick(ws: seq<World>, steps: seq<Step>, terms: Terms, k: nat, owner: string, id: string)
    requires Steps(ws, steps, terms) && k < |steps| && Keyed(ws[k].guard.projects) && Relentless(ws, steps, owner, k, k + 1)
    requires TickOf(steps[k], owner) && id in ws[k].guard.projects && ws[k].guard.projects[id].owner == owner
    requires owner in ws[k].guard.grace && ws[k].guard.grace[owner] + terms.grace <= At(steps[k])
    ensures id in ws[k + 1].guard.projects
    ensures ws[k + 1].guard.projects[id] == OverdueProject(terms, owner, At(steps[k]), ws[k].guard.projects[id])
  {
    assert Follows(ws, steps, terms, k);
    assert Look(ws[k].guard, ws[k].books, terms, owner, steps[k].at) == OutOfGrace;
    SmoothTick(ws[k].guard, ws[k].books, terms, owner, steps[k].at, steps[k].listing, steps[k].broken);
  }

  /**
   Bounded progress. Ticks at `a`, `b` and `c` find no money, a grace period lies between the first two and a
   retention period between the last two, and nothing eases in between: what is active at `b` is suspended by
   that very tick, not deleted by it even when the retention period is zero, and is gone after `c`.
   */
  lemma UnpaidProjectsGo(ws: seq<World>, steps: seq<Step>, terms: Terms, owner: string, id: string, a: nat, b: nat, c: nat)
    requires Run(ws, steps, terms) && a < b < c < |steps|
    requires TickOf(steps[a], owner) && TickOf(steps[b], owner) && TickOf(steps[c], owner)
    requires At(steps[a]) + terms.grace <= At(steps[b]) && At(steps[b]) + terms.retention <= At(steps[c])
    requires Relentless(ws, steps, owner, a, c + 1)
    requires id in ws[b].guard.projects && ws[b].guard.projects[id].owner == owner && StatusIs(ws[b], id, Active)
    requires LeftAlone(ws, steps, id, b + 1, c)
    ensures StatusIs(ws[b + 1], id, Suspended)
    ensures StatusIs(ws[c + 1], id, Deleted)
  {
    TickPutsOnGrace(ws, steps, terms, owner, a);
    GraceGoesOn(ws, steps, terms, owner, a + 1, b);
    GraceGoesOn(ws, steps, terms, owner, a + 1, c);
    RunKeepsProjects(ws, steps, terms, 0, b);
    OverdueTick(ws, steps, terms, b, owner, id);
    DoomedGoesOn(ws, steps, terms, id, owner, At(steps[b]) + terms.retention, b + 1, c);
    RunKeepsProjects(ws, steps, terms, 0, c);
    OverdueTick(ws, steps, terms, c, owner, id);
  }

  /** No tick deletes what it finds active, whatever fails and whatever the periods are. */
  lemma NeverSuspendedAndDeletedAtOnce(
    g: GuardState, books: Books, terms: Terms, userID: string, at: int, listing: seq<Project>, broken: set<string>, id: string)
    requires Keyed(g.projects) && IsListing(listing, g.projects)
    requires id in g.projects && g.projects[id].status == Active
    ensures id in Enforce(g, books, terms, userID, at, listing, broken).state.projects
    ensures var p := Enforce(g, books, terms, userID, at, listing, broken).state.projects[id];
      p == g.projects[id] || p == AutoSuspended(g.projects[id], at, terms)
  {
    TickIsBounded(g, books, terms, userID, at, listing, broken, id);
  }

  /** To the store a resume followed by a manual suspension is as if nothing had happened: the schedule stays. */
  lemma ResumeThenSuspend(projects: map<string, Project>, id: string)
    requires id in projects && projects[id].status == Suspended
    ensures SuspendedByOwner(ResumedByOwner(projects, id, true), id) == projects
  {
    var resumed := ResumedByOwner(projects, id, true);
    assert resumed[id].(status := Suspended) == projects[id];
  }

  /**
   A stale schedule. A manual resume keeps the old due date, so a project that its owner resumes and later
   suspends by hand goes with the first overdue tick, no matter how short the new suspension was. It is
   spared by that tick exactly if the old due date still lies ahead.
   */
  lemma ResumeKeepsTheDueDate(g: GuardState, books: Books, terms: Terms, userID: string, at: int, listing: seq<Project>, id: string)
    requires Keyed(g.projects) && id in g.projects && g.projects[id].owner == userID
    requires g.projects[id].status == Suspended && g.projects[id].deletionDueAt.Some?
    requires var later := SuspendedByOwner(ResumedByOwner(g.projects, id, true), id);
      && IsListing(listing, later)
      && Look(g.(projects := later), books, terms, userID, at) == OutOfGrace
    ensures var later := SuspendedByOwner(ResumedByOwner(g.projects, id, true), id);
      var after := Enforce(g.(projects := later), books, terms, userID, at, listing, {}).state.projects;
      && id in after
      && after[id].status == (if at < g.projects[id].deletionDueAt.value then Suspended else Deleted)
  {
    ResumeThenSuspend(g.projects, id);
    SmoothTick(g, books, terms, userID, at, listing, {});
  }
}
