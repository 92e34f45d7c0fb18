/** Where an automatic deletion comes from. */
module GuardHistory {
  import opened Wrappers
  import opened Projects
  import opened Guard
  import opened GuardRuns
  import GuardBudget

  predicate TickOf(step: Step, userID: string) {
    step.GuardTick? && step.userID == userID
  }

  /** The tick looks at the user and finds no exemption and nothing available. */
  ghost predicate SawNoMoney(w: World, userID: string) {
    userID in w.books.accounts && !Funded(w.guard, w.books, userID)
  }

  /** A step that puts the user on grace: a tick or a refused deploy, with nothing available. */
  ghost predicate StartsGrace(w: World, step: Step, userID: string) {
    && userID !in w.guard.grace
    && match step
       case GuardTick(u, _, _, _) => u == userID && SawNoMoney(w, userID)
       case CommitDeploy(d, _) =>
         && d < |w.deploys| && !w.deploys[d].done
         && var snapshot := w.deploys[d].request.snapshot;
         && snapshot.userID == userID && !snapshot.exempt
         && snapshot.Funds() - PendingOf(w.guard.pending, userID) <= 0.0
       case _ => false
  }

  /** When a step happens. */
  function At(step: Step): int
    requires step.GuardTick? || step.CommitDeploy?
  {
    step.at
  }

  /** The time that a step puts on a grace period: a refused deploy has read the clock before it took the lock. */
  function Stamp(w: World, step: Step): int
    requires step.GuardTick? || (step.CommitDeploy? && step.deploy < |w.deploys|)
  {
    if step.GuardTick? then step.at else w.deploys[step.deploy].request.at
  }

  /** Every tick that looked at the user from step `from` up to (not including) step `to` saw no money. */
  ghost predicate NoReprieve(ws: seq<World>, steps: seq<Step>, userID: string, from: nat, to: nat)
    requires |ws| == |steps| + 1
  {
    forall j :: from <= j < to && j < |steps| && TickOf(steps[j], userID) && userID in ws[j].books.accounts ==>
      SawNoMoney(ws[j], userID)
  }

  lemma GraceStep(w: World, step: Step, terms: Terms, userID: string)
    requires Legal(w, step)
    requires userID in Apply(w, step, terms).guard.grace
    ensures if userID in w.guard.grace
            then && Apply(w, step, terms).guard.grace[userID] == w.guard.grace[userID]
                 && (TickOf(step, userID) && userID in w.books.accounts ==> SawNoMoney(w, userID))
            else StartsGrace(w, step, userID) && Apply(w, step, terms).guard.grace[userID] == Stamp(w, step)
  {
  }

  /** Where an open deploy comes from: the step that read the funds and the clock. */
  lemma {:induction false} DeployOrigin(ws: seq<World>, steps: seq<Step>, terms: Terms, i: nat, d: nat) returns (p: nat)
    requires Run(ws, steps, terms) && i < |ws| && d < |ws[i].deploys|
    ensures p < i && steps[p].PrepareDeploy? && steps[p].at == ws[i].deploys[d].request.at <= ws[i].now
    ensures var snapshot := ws[i].deploys[d].request.snapshot;
      snapshot.userID in ws[p].books.accounts && snapshot == TakeSnapshot(ws[p].guard.projects, ws[p].books, snapshot.userID)
  {
    var k := i - 1;
    assert Follows(ws, steps, terms, k);
    StepKeepsTime(ws[k], steps[k], terms);
    if d < |ws[k].deploys| {
      assert ws[k].deploys[d].request == ws[i].deploys[d].request;
      p := DeployOrigin(ws, steps, terms, k, d);
    } else {
      p := k;
    }
  }

  /**
   Where a running grace period began: it bears the stamp of step `g`, and no tick has forgiven the user since
   that step. The stamp is the time of the step for a tick; for a refused deploy it is the time at which step
   `p` read the user's funds, and no tick has forgiven the user since then exactly if none did before step `g`.
   */
  lemma {:induction false} GraceOrigin(ws: seq<World>, steps: seq<Step>, terms: Terms, i: nat, userID: string) returns (p: nat, g: nat)
    requires Run(ws, steps, terms) && i < |ws| && userID in ws[i].guard.grace
    ensures p <= g < i && StartsGrace(ws[g], steps[g], userID)
    ensures ws[i].guard.grace[userID] == Stamp(ws[g], steps[g]) <= At(steps[g]) <= ws[i].now
    ensures if steps[g].GuardTick? then p == g else steps[p].PrepareDeploy? && steps[p].at == Stamp(ws[g], steps[g])
    ensures NoReprieve(ws, steps, userID, g, i) && (NoReprieve(ws, steps, userID, p, i) <==> NoReprieve(ws, steps, userID, p, g))
  {
    assert i > 0;
    assert Follows(ws, steps, terms, i - 1);
    GraceStep(ws[i - 1], steps[i - 1], terms, userID);
    RunKeepsProjects(ws, steps, terms, i - 1, i);
    if userID in ws[i - 1].guard.grace {
      p, g := GraceOrigin(ws, steps, terms, i - 1, userID);
    } else {
      g := i - 1;
      if steps[g].GuardTick? {
        p := g;
      } else {
        p := DeployOrigin(ws, steps, terms, g, steps[g].deploy);
      }
    }
  }

  /**
   It does happen that a tick in between saw money: a deploy reads an empty account and the clock, the account is
   topped up, a tick finds the money, and only then the deploy takes the lock and is refused for what it has read.
   The grace period is stamped with a time before the tick.
   */
  lemma StampBeforeMoney(w: World, p: Project, rich: Books, listing: seq<Project>, terms: Terms, read: int, tick: int, lock: int)
    returns (ws: seq<World>, steps: seq<Step>)
    requires Keyed(w.guard.projects) && IsListing(listing, w.guard.projects) && Nonnegative(w.books.costs) && Nonnegative(rich.costs)
    requires SawNoMoney(w, p.owner) && p.owner !in w.guard.grace && p.owner !in w.guard.pending
    requires p.owner in rich.accounts && Funded(w.guard, rich, p.owner)
    requires w.now <= read < tick <= lock
    ensures Steps(ws, steps, terms) && ws[0] == w
    ensures steps == [PrepareDeploy(p, "", false, read), MoneyMoves(rich), GuardTick(p.owner, tick, listing, {}), CommitDeploy(|w.deploys|, lock)]
    ensures ws[2].books == rich && Funded(ws[2].guard, rich, p.owner)
    ensures p.owner in ws[4].guard.grace && ws[4].guard.grace[p.owner] == read < tick
  {
    var prepare, tops, looks, commits :=
      PrepareDeploy(p, "", false, read), MoneyMoves(rich), GuardTick(p.owner, tick, listing, {}), CommitDeploy(|w.deploys|, lock);
    var w2 := EmptyAccountIsRead(w, p, rich, read, terms);
    RefusedAfterTick(w2, p.owner, tick, listing, |w.deploys|, lock, terms);
    ws, steps := FourSteps(w, prepare, tops, looks, commits, terms);
  }

  lemma EmptyAccountIsRead(w: World, p: Project, rich: Books, read: int, terms: Terms) returns (w2: World)
    requires Nonnegative(w.books.costs) && SawNoMoney(w, p.owner) && p.owner !in w.guard.pending
    ensures w2 == Apply(Apply(w, PrepareDeploy(p, "", false, read), terms), MoneyMoves(rich), terms)
    ensures w2.guard == w.guard && w2.books == rich && w2.now == read && |w2.deploys| == |w.deploys| + 1
    ensures var OpenDeploy(request, done) := w2.deploys[|w.deploys|];
      && !done && request.at == read && request.reserve > 0.0
      && request.snapshot.userID == p.owner && !request.snapshot.exempt && request.snapshot.Funds() <= 0.0
  {
    GuardBudget.PrepareReadsALargeReserve(w, p, "", false, read);
    var request := RequestDeploy(w.guard.projects, w.books, p, "", false, read);
    w2 := w.(deploys := w.deploys + [OpenDeploy(request, false)], now := read, books := rich);
  }

  lemma FourSteps(w: World, a: Step, b: Step, c: Step, d: Step, terms: Terms) returns (ws: seq<World>, steps: seq<Step>)
    requires Legal(w, a) && Legal(Apply(w, a, terms), b) && Legal(Apply(Apply(w, a, terms), b, terms), c)
    requires Legal(Apply(Apply(Apply(w, a, terms), b, terms), c, terms), d)
    ensures Steps(ws, steps, terms) && steps == [a, b, c, d]
    ensures ws[0] == w && ws[2] == Apply(Apply(w, a, terms), b, terms) && ws[4] == Apply(Apply(ws[2], c, terms), d, terms)
  {
    var w1 := Apply(w, a, terms);
    var w2 := Apply(w1, b, terms);
    var w3 := Apply(w2, c, terms);
    ws, steps := [w, w1, w2, w3, Apply(w3, d, terms)], [a, b, c, d];
    assert Follows(ws, steps, terms, 0) && Follows(ws, steps, terms, 1) && Follows(ws, steps, terms, 2) && Follows(ws, steps, terms, 3);
  }

  lemma RefusedAfterTick(w: World, userID: string, at: int, listing: seq<Project>, d: nat, lock: int, terms: Terms)
    requires userID in w.books.accounts && Funded(w.guard, w.books, userID) && at <= lock
    requires d < |w.deploys| && !w.deploys[d].done && w.deploys[d].request.reserve > 0.0
    requires var snapshot := w.deploys[d].request.snapshot;
      snapshot.userID == userID && !snapshot.exempt && snapshot.Funds() <= 0.0 && userID !in w.guard.pending
    ensures var w' := Apply(w, GuardTick(userID, at, listing, {}), terms);
      var grace := Apply(w', CommitDeploy(d, lock), terms).guard.grace;
      && w'.now <= lock && userID in grace && grace[userID] == w.deploys[d].request.at
  {
    FundedTick(w, userID, at, listing, terms);
    LateRefusal(Apply(w, GuardTick(userID, at, listing, {}), terms), d, lock, terms);
  }

  lemma FundedTick(w: World, userID: string, at: int, listing: seq<Project>, terms: Terms)
    requires userID in w.books.accounts && Funded(w.guard, w.books, userID)
    ensures var w' := Apply(w, GuardTick(userID, at, listing, {}), terms);
      w'.guard.grace == w.guard.grace - {userID} && w'.guard.pending == w.guard.pending && w'.deploys == w.deploys && w'.now == at
  {
  }

  lemma LateRefusal(w: World, d: nat, at: int, terms: Terms)
    requires d < |w.deploys| && !w.deploys[d].done && w.deploys[d].request.reserve > 0.0
    requires var snapshot := w.deploys[d].request.snapshot;
      && !snapshot.exempt && snapshot.Funds() <= 0.0
      && snapshot.userID !in w.guard.pending && snapshot.userID !in w.guard.grace
    ensures var request := w.deploys[d].request;
      Apply(w, CommitDeploy(d, at), terms).guard.grace == w.guard.grace[request.snapshot.userID := request.at]
  {
  }

  // ---------------------------------------------------------------- deletion schedules

  ghost predicate SuspendedBy(w: World, step: Step, w': World, terms: Terms, id: string) {
    && id in w.guard.projects && id in w'.guard.projects
    && TickOf(step, w.guard.projects[id].owner)
    && w.guard.projects[id].status == Active
    && w'.guard.projects[id] == AutoSuspended(w.guard.projects[id], At(step), terms)
  }

  ghost predicate ResumedBy(w: World, step: Step, id: string) {
    step == OwnerResumes(id, true) && id in w.guard.projects && w.guard.projects[id].status == Suspended
  }

  /** A handler writes back the copy of the project that it read some time before. */
  predicate PutBackBy(w: World, step: Step, id: string) {
    step.HandlerWrites? && step.copy < |w.copies| && w.copies[step.copy].id == id
  }

  ghost predicate StatusIs(w: World, id: string, status: ProjectStatus) {
    id in w.guard.projects && w.guard.projects[id].status == status
  }

  ghost predicate JustScheduled(w: World, step: Step, w': World, terms: Terms, id: string) {
    && SuspendedBy(w, step, w', terms, id)
    && var owner := w.guard.projects[id].owner;
    && SawNoMoney(w, owner) && owner in w.guard.grace && w.guard.grace[owner] + terms.grace <= At(step)
  }

  /** The schedule was there before the step; a look at the owner that eased anything would have cleared it. */
  ghost predicate StillScheduled(w: World, step: Step, w': World, id: string) {
    && id in w.guard.projects && id in w'.guard.projects
    && w'.guard.projects[id].owner == w.guard.projects[id].owner
    && w'.guard.projects[id].deletionDueAt == w.guard.projects[id].deletionDueAt
    && (StatusIs(w, id, Suspended) && TickOf(step, w.guard.projects[id].owner) && step.userID in w.books.accounts ==>
          SawNoMoney(w, step.userID))
    && (!StatusIs(w, id, Active) && !ResumedBy(w, step, id) ==>
          && !StatusIs(w', id, Active)
          && (StatusIs(w', id, Suspended) ==> StatusIs(w, id, Suspended)))
    && (ResumedBy(w, step, id) ==> StatusIs(w', id, Active))
  }

  /** The schedule is that of the copy. */
  ghost predicate ScheduleWritten(w: World, step: Step, w': World, id: string) {
    && PutBackBy(w, step, id) && id in w'.guard.projects
    && w'.guard.projects[id].deletionDueAt == w.copies[step.copy].deletionDueAt
  }

  lemma ScheduleStep(w: World, step: Step, terms: Terms, id: string)
    requires Legal(w, step) && Keyed(w.guard.projects)
    requires var w' := Apply(w, step, terms); id in w'.guard.projects && w'.guard.projects[id].deletionDueAt.Some?
    ensures var w' := Apply(w, step, terms);
      if PutBackBy(w, step, id) then ScheduleWritten(w, step, w', id)
      else JustScheduled(w, step, w', terms, id) || StillScheduled(w, step, w', id)
  {
    match step
    case GuardTick(userID, at, listing, broken) => TickScheduleStep(w, userID, at, listing, broken, terms, id);
    case HandlerWrites(copy, settings) => WriteScheduleStep(w, copy, settings, terms, id);
    case _ => QuietScheduleStep(w, step, terms, id);
  }

  lemma WriteScheduleStep(w: World, copy: nat, settings: Project, terms: Terms, id: string)
    requires var w' := Apply(w, HandlerWrites(copy, settings), terms); id in w'.guard.projects
    ensures var step := HandlerWrites(copy, settings);
      var w' := Apply(w, step, terms);
      if PutBackBy(w, step, id) then ScheduleWritten(w, step, w', id) else StillScheduled(w, step, w', id)
  {
  }

  lemma QuietScheduleStep(w: World, step: Step, terms: Terms, id: string)
    requires Legal(w, step) && !step.GuardTick? && !step.HandlerWrites?
    requires var w' := Apply(w, step, terms); id in w'.guard.projects && w'.guard.projects[id].deletionDueAt.Some?
    ensures StillScheduled(w, step, Apply(w, step, terms), id)
  {
  }

  lemma TickScheduleStep(w: World, userID: string, at: int, listing: seq<Project>, broken: set<string>, terms: Terms, id: string)
    requires IsListing(listing, w.guard.projects) && Keyed(w.guard.projects)
    requires var w' := Apply(w, GuardTick(userID, at, listing, broken), terms);
      id in w'.guard.projects && w'.guard.projects[id].deletionDueAt.Some?
    ensures var step := GuardTick(userID, at, listing, broken);
      var w' := Apply(w, step, terms);
      JustScheduled(w, step, w', terms, id) || StillScheduled(w, step, w', id)
  {
    EnforceKeepsKeys(w.guard, w.books, terms, userID, at, listing, broken);
    TickIsBounded(w.guard, w.books, terms, userID, at, listing, broken, id);
    var step := GuardTick(userID, at, listing, broken);
    EffectOnSchedule(w, step, Apply(w, step, terms), terms, id);
  }

  lemma EffectOnSchedule(w: World, step: Step, w': World, terms: Terms, id: string)
    requires step.GuardTick? && id in w.guard.projects && id in w'.guard.projects
    requires var p, p' := w.guard.projects[id], w'.guard.projects[id];
      && TickEffect(w.guard, w.books, terms, step.userID, step.at, p, p') && p'.deletionDueAt.Some?
      && (step.userID in w.books.accounts && Funded(w.guard, w.books, step.userID) && p.owner == step.userID ==> p' == Cleared(p))
    ensures JustScheduled(w, step, w', terms, id) || StillScheduled(w, step, w', id)
  {
  }

  /** Where a handler's copy comes from. */
  lemma {:induction false} CopyOrigin(ws: seq<World>, steps: seq<Step>, terms: Terms, i: nat, c: nat) returns (r: nat)
    requires Run(ws, steps, terms) && i < |ws| && c < |ws[i].copies|
    ensures r < i && steps[r] == HandlerReads(ws[i].copies[c].id)
    ensures ws[i].copies[c].id in ws[r].guard.projects && ws[r].guard.projects[ws[i].copies[c].id] == ws[i].copies[c]
  {
    var k := i - 1;
    assert Follows(ws, steps, terms, k);
    RunKeepsProjects(ws, steps, terms, 0, k);
    if c < |ws[k].copies| {
      assert ws[k].copies[c] == ws[i].copies[c];
      r := CopyOrigin(ws, steps, terms, k, c);
    } else {
      r := k;
    }
  }

  /** No resume of the project in steps `from` up to (not including) `to`. */
  ghost predicate NotResumed(ws: seq<World>, steps: seq<Step>, id: string, from: nat, to: nat)
    requires |ws| == |steps| + 1
  {
    forall j :: from <= j < to && j < |steps| ==> !ResumedBy(ws[j], steps[j], id)
  }

  /** No handler writes the project back in steps `from` up to (not including) `to`. */
  ghost predicate NotPutBack(ws: seq<World>, steps: seq<Step>, id: string, from: nat, to: nat)
    requires |ws| == |steps| + 1
  {
    forall j :: from <= j < to && j < |steps| ==> !PutBackBy(ws[j], steps[j], id)
  }

  ghost predicate Undisturbed(ws: seq<World>, steps: seq<Step>, id: string, from: nat, to: nat)
    requires |ws| == |steps| + 1
  {
    NotResumed(ws, steps, id, from, to) && NotPutBack(ws, steps, id, from, to)
  }

  ghost predicate SuspendedThroughout(ws: seq<World>, id: string, from: nat, to: nat) {
    forall j :: from <= j <= to && j < |ws| ==> StatusIs(ws[j], id, Suspended)
  }

  /**
   The history behind a schedule that is set in world `i`: step `s` auto-suspended the project after step
   `g` had put its owner on grace, each period at its full length from the time that was stamped on it.
   */
  ghost predicate Earned(ws: seq<World>, steps: seq<Step>, terms: Terms, i: nat, id: string, s: nat, g: nat)
    requires |ws| == |steps| + 1 && i < |ws|
    requires id in ws[i].guard.projects
  {
    var owner := ws[i].guard.projects[id].owner;
    && g < s < i
    && StartsGrace(ws[g], steps[g], owner)
    && SuspendedBy(ws[s], steps[s], ws[s + 1], terms, id)
    && ws[s].guard.projects[id].owner == owner
    && Stamp(ws[g], steps[g]) + terms.grace <= At(steps[s]) && Stamp(ws[g], steps[g]) <= At(steps[g]) <= At(steps[s])
    && ws[i].guard.projects[id].deletionDueAt == Some(At(steps[s]) + terms.retention)
    && NoReprieve(ws, steps, owner, g, s + 1)
  }

  /** From the suspension on: what holds as long as nobody resumes the project or writes it back. */
  ghost predicate Held(ws: seq<World>, steps: seq<Step>, i: nat, id: string, s: nat, g: nat)
    requires |ws| == |steps| + 1 && i < |ws|
    requires id in ws[i].guard.projects
  {
    && !StatusIs(ws[i], id, Active)
    && (StatusIs(ws[i], id, Suspended) ==>
          SuspendedThroughout(ws, id, s + 1, i) && NoReprieve(ws, steps, ws[i].guard.projects[id].owner, g, i))
  }

  /** What a suspension needs to know of the grace period that has run out. */
  lemma {:induction false} GraceBegan(ws: seq<World>, steps: seq<Step>, terms: Terms, k: nat, userID: string) returns (g: nat)
    requires Run(ws, steps, terms) && k < |steps| && userID in ws[k].guard.grace && SawNoMoney(ws[k], userID)
    ensures g < k && StartsGrace(ws[g], steps[g], userID)
    ensures ws[k].guard.grace[userID] == Stamp(ws[g], steps[g]) <= At(steps[g]) <= ws[k].now
    ensures NoReprieve(ws, steps, userID, g, k + 1)
  {
    var p;
    p, g := GraceOrigin(ws, steps, terms, k, userID);
  }

  lemma {:induction false} SuspendedNow(ws: seq<World>, steps: seq<Step>, terms: Terms, k: nat, id: string)
    requires Steps(ws, steps, terms) && k < |steps| && SuspendedBy(ws[k], steps[k], ws[k + 1], terms, id)
    ensures StatusIs(ws[k + 1], id, Suspended) && ws[k + 1].guard.projects[id].deletionDueAt == Some(At(steps[k]) + terms.retention)
    ensures ws[k].now <= At(steps[k]) && ws[k + 1].guard.projects[id].owner == ws[k].guard.projects[id].owner
  {
    assert Follows(ws, steps, terms, k);
  }

  lemma {:induction false} ScheduleBegins(ws: seq<World>, steps: seq<Step>, terms: Terms, k: nat, id: string) returns (g: nat)
    requires Run(ws, steps, terms) && k < |steps| && JustScheduled(ws[k], steps[k], ws[k + 1], terms, id)
    ensures Earned(ws, steps, terms, k + 1, id, k, g) && Held(ws, steps, k + 1, id, k, g)
  {
    g := GraceBegan(ws, steps, terms, k, ws[k].guard.projects[id].owner);
    SuspendedNow(ws, steps, terms, k, id);
  }

  lemma ScheduleGoesOn(ws: seq<World>, steps: seq<Step>, terms: Terms, k: nat, id: string, s: nat, g: nat)
    requires |ws| == |steps| + 1 && k < |steps| && StillScheduled(ws[k], steps[k], ws[k + 1], id)
    requires Earned(ws, steps, terms, k, id, s, g)
    requires Undisturbed(ws, steps, id, s + 1, k) ==> Held(ws, steps, k, id, s, g)
    ensures Earned(ws, steps, terms, k + 1, id, s, g)
    ensures Undisturbed(ws, steps, id, s + 1, k + 1) ==> Held(ws, steps, k + 1, id, s, g)
  {
    if Undisturbed(ws, steps, id, s + 1, k + 1) {
      assert Undisturbed(ws, steps, id, s + 1, k);
      assert !ResumedBy(ws[k], steps[k], id);
    }
  }

  /** A schedule that a handler writes back was earned when the handler read it. */
  lemma ScheduleComesBack(ws: seq<World>, steps: seq<Step>, terms: Terms, r: nat, k: nat, id: string, s: nat, g: nat)
    requires Run(ws, steps, terms) && r < k < |steps| && PutBackBy(ws[k], steps[k], id)
    requires id in ws[r].guard.projects && Earned(ws, steps, terms, r, id, s, g)
    requires id in ws[k + 1].guard.projects && ws[k + 1].guard.projects[id].deletionDueAt == ws[r].guard.projects[id].deletionDueAt
    ensures Earned(ws, steps, terms, k + 1, id, s, g)
    ensures !Undisturbed(ws, steps, id, s + 1, k + 1)
  {
    RunKeepsProjects(ws, steps, terms, r, k + 1);
    assert !NotPutBack(ws, steps, id, s + 1, k + 1);
  }

  /** Every scheduled deletion has been earned, and unless somebody resumed the project or wrote it back nothing has eased since. */
  lemma {:induction false} ScheduleOrigin(ws: seq<World>, steps: seq<Step>, terms: Terms, i: nat, id: string) returns (s: nat, g: nat)
    requires Run(ws, steps, terms) && i < |ws|
    requires id in ws[i].guard.projects && ws[i].guard.projects[id].deletionDueAt.Some?
    ensures Earned(ws, steps, terms, i, id, s, g)
    ensures Undisturbed(ws, steps, id, s + 1, i) ==> Held(ws, steps, i, id, s, g)
    decreases i
  {
    var k := i - 1;
    RunKeepsProjects(ws, steps, terms, 0, k);
    assert Follows(ws, steps, terms, k);
    ScheduleStep(ws[k], steps[k], terms, id);
    if PutBackBy(ws[k], steps[k], id) {
      var r := CopyOrigin(ws, steps, terms, k, steps[k].copy);
      s, g := ScheduleOrigin(ws, steps, terms, r, id);
      ScheduleComesBack(ws, steps, terms, r, k, id, s, g);
    } else if JustScheduled(ws[k], steps[k], ws[i], terms, id) {
      s := k;
      g := ScheduleBegins(ws, steps, terms, k, id);
    } else {
      s, g := ScheduleOrigin(ws, steps, terms, k, id);
      ScheduleGoesOn(ws, steps, terms, k, id, s, g);
    }
  }

  /** The tick at step `k` takes the project away. */
  ghost predicate AutoDeletes(ws: seq<World>, steps: seq<Step>, k: nat, id: string)
    requires |ws| == |steps| + 1 && k < |steps|
  {
    && steps[k].GuardTick?
    && id in ws[k].guard.projects && id in ws[k + 1].guard.projects
    && ws[k].guard.projects[id].status != Deleting && ws[k].guard.projects[id].status != Deleted
    && (ws[k + 1].guard.projects[id].status == Deleting || ws[k + 1].guard.projects[id].status == Deleted)
  }

  /**
   Safety over every run. Whoever loses a project to the guard was put on grace at step `g`, was suspended by the
   guard at step `s` a grace period after the stamp of `g`, and lost the project a retention period after that.
   If no handler wrote the project back, it sat suspended the whole retention period exactly if nobody resumed it;
   and then every look the guard took at the owner from step `g` to the deletion saw no money and no exemption.
   */
  lemma AutoDeletionIsEarned(ws: seq<World>, steps: seq<Step>, terms: Terms, k: nat, id: string) returns (s: nat, g: nat)
    requires Run(ws, steps, terms) && k < |steps| && AutoDeletes(ws, steps, k, id)
    ensures Earned(ws, steps, terms, k, id, s, g)
    ensures steps[k].userID == ws[k].guard.projects[id].owner
    ensures At(steps[s]) + terms.retention <= At(steps[k])
    ensures Stamp(ws[g], steps[g]) + terms.grace + terms.retention <= At(steps[k])
    ensures NotPutBack(ws, steps, id, s + 1, k) ==>
      (SuspendedThroughout(ws, id, s + 1, k) <==> NotResumed(ws, steps, id, s + 1, k))
    ensures Undisturbed(ws, steps, id, s + 1, k) ==> NoReprieve(ws, steps, steps[k].userID, g, k + 1)
  {
    RunKeepsProjects(ws, steps, terms, 0, k);
    DeletionStep(ws, steps, terms, k, id);
    s, g := ScheduleOrigin(ws, steps, terms, k, id);
    if NotPutBack(ws, steps, id, s + 1, k) {
      SuspendedIffNotResumed(ws, steps, terms, k, id, s, g);
    }
    if Undisturbed(ws, steps, id, s + 1, k) {
      LastLook(ws, steps, steps[k].userID, g, k);
    }
  }

  lemma SuspendedIffNotResumed(ws: seq<World>, steps: seq<Step>, terms: Terms, k: nat, id: string, s: nat, g: nat)
    requires Steps(ws, steps, terms) && k < |steps| && StatusIs(ws[k], id, Suspended)
    requires NotResumed(ws, steps, id, s + 1, k) ==> Held(ws, steps, k, id, s, g)
    ensures SuspendedThroughout(ws, id, s + 1, k) <==> NotResumed(ws, steps, id, s + 1, k)
  {
    if j :| s < j < k && ResumedBy(ws[j], steps[j], id) {
      ResumeShows(ws, steps, terms, j, id);
    }
  }

  lemma LastLook(ws: seq<World>, steps: seq<Step>, userID: string, g: nat, k: nat)
    requires |ws| == |steps| + 1 && k < |steps| && NoReprieve(ws, steps, userID, g, k) && SawNoMoney(ws[k], userID)
    ensures NoReprieve(ws, steps, userID, g, k + 1)
  {
  }

  lemma DeletionStep(ws: seq<World>, steps: seq<Step>, terms: Terms, k: nat, id: string)
    requires Steps(ws, steps, terms) && k < |steps| && Keyed(ws[k].guard.projects) && AutoDeletes(ws, steps, k, id)
    ensures steps[k].userID == ws[k].guard.projects[id].owner && SawNoMoney(ws[k], steps[k].userID)
    ensures IsDue(At(steps[k]))(ws[k].guard.projects[id])
  {
    assert Follows(ws, steps, terms, k);
    TickIsBounded(ws[k].guard, ws[k].books, terms, steps[k].userID, steps[k].at, steps[k].listing, steps[k].broken, id);
  }

  lemma ResumeShows(ws: seq<World>, steps: seq<Step>, terms: Terms, j: nat, id: string)
    requires Steps(ws, steps, terms) && j < |steps| && ResumedBy(ws[j], steps[j], id)
    ensures StatusIs(ws[j + 1], id, Active)
  {
    assert Follows(ws, steps, terms, j);
  }

  /**
   What a handler in flight does to the guard's work: whatever a tick made of the project between the reading and
   the writing, suspension, deletion or a cleared schedule, status and dates are again what they were before.
   */
  lemma WriteBackUndoesTheTick(
    w: World, id: string, settings: Project, userID: string, at: int, listing: seq<Project>, broken: set<string>, terms: Terms)
    requires Keyed(w.guard.projects) && IsListing(listing, w.guard.projects) && id in w.guard.projects
    ensures var read := Apply(w, HandlerReads(id), terms);
      var ticked := Apply(read, GuardTick(userID, at, listing, broken), terms);
      var after := Apply(ticked, HandlerWrites(|w.copies|, settings), terms).guard.projects;
      && id in after && after[id].status == w.guard.projects[id].status
      && after[id].suspendedAt == w.guard.projects[id].suspendedAt && after[id].deletionDueAt == w.guard.projects[id].deletionDueAt
  {
    EnforceKeepsKeys(w.guard, w.books, terms, userID, at, listing, broken);
    assert (w.copies + [w.guard.projects[id]])[|w.copies|] == w.guard.projects[id];
  }
}
