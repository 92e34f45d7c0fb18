/**
 Runs of the control plane around the billing guard. Deploys are split at the lock: balances are read in
 one step, the reservation is made in another, and anything may happen in between.
 */
module GuardRuns {
  import opened Wrappers
  import opened Sequences
  import opened Projects
  import opened Guard

  /** A request that has read balances and has not reached the lock yet, unless it is `done`. */
  datatype OpenDeploy = OpenDeploy(request: DeployRequest, done: bool)

  /** A release closure: `released` is its captured flag. */
  datatype Reservation = Reservation(userID: string, amount: real, released: bool)

  datatype World = World(
    guard: GuardState,
    books: Books,
    deploys: seq<OpenDeploy>,
    reservations: seq<Reservation>,
    copies: seq<Project>,  // records that handlers have read and may write back
    now: int)

  datatype Step =
    | MoneyMoves(books: Books)                                        // top-ups, charges, refunds, metering
    | PrepareDeploy(project: Project, requestedType: string, requestedDedicated: bool, at: int)
    | CommitDeploy(deploy: nat, at: int)
    | ReleaseDeploy(reservation: nat)                                 // possibly repeated
    | GuardTick(userID: string, at: int, listing: seq<Project>, broken: set<string>)
    | ProjectProvisioned(project: Project)
    | HandlerReads(id: string)                                        // then it talks to GitHub or the cluster
    | HandlerWrites(copy: nat, settings: Project)
    | OwnerSuspends(id: string)
    | OwnerResumes(id: string, provisioned: bool)
    | OwnerDeletes(id: string, provisioned: bool)

  predicate Nonnegative(costs: map<string, real>) {
    forall id :: id in costs ==> costs[id] >= 0.0
  }

  /** What the surroundings guarantee about a step: the clock does not go back, costs are not negative, ids are fresh. */
  ghost predicate Legal(w: World, step: Step) {
    match step
    case MoneyMoves(books) => Nonnegative(books.costs)
    case PrepareDeploy(_, _, _, at) => w.now <= at
    case CommitDeploy(_, at) => w.now <= at
    case GuardTick(_, at, listing, _) => w.now <= at && IsListing(listing, w.guard.projects)
    case ProjectProvisioned(p) => p.id !in w.guard.projects && p.suspendedAt == None && p.deletionDueAt == None
    case _ => true
  }

  function WithSettings(p: Project, settings: Project): Project {
    p.(repositoryOwner := settings.repositoryOwner, repositoryName := settings.repositoryName,
       serviceType := settings.serviceType, replicaCount := settings.replicaCount,
       resourceProfile := settings.resourceProfile, dedicatedLoadBalancer := settings.dedicatedLoadBalancer)
  }

  /**
   How handlers change settings: the whole record that was read is written back, its status and dates included,
   however old it is by then. UpdateProjectDeploymentSettings writes right after it reads; BootstrapGitHubFlow,
   BuildGitHubBootstrapQuestions and the runtime-status handlers call out in between.
   */
  function WrittenBack(projects: map<string, Project>, copy: Project, settings: Project): map<string, Project> {
    if copy.id in projects then projects[copy.id := Merged(WithSettings(copy, settings), projects[copy.id])] else projects
  }

  ghost function Apply(w: World, step: Step, terms: Terms): World {
    var g := w.guard;
    match step
    case MoneyMoves(books) => w.(books := books)
    case PrepareDeploy(project, requestedType, requestedDedicated, at) =>
      if project.owner in w.books.accounts
      then w.(deploys := w.deploys
                         + [OpenDeploy(RequestDeploy(g.projects, w.books, project, requestedType, requestedDedicated, at), false)],
              now := at)
      else w.(now := at)
    case CommitDeploy(d, at) =>
      if d < |w.deploys| && !w.deploys[d].done then
        var DeployRequest(snapshot, reserve, stamp) := w.deploys[d].request;
        w.(guard := g.(pending := PendingAfter(g.pending, snapshot, reserve),
                       grace := GraceAfter(g.pending, g.grace, snapshot, reserve, stamp)),
           deploys := w.deploys[d := w.deploys[d].(done := true)],
           reservations := if Judge(g.pending, snapshot, reserve) == Reserved
                           then w.reservations + [Reservation(snapshot.userID, reserve, false)] else w.reservations,
           now := at)
      else w.(now := at)
    case ReleaseDeploy(r) =>
      if r < |w.reservations| && !w.reservations[r].released then
        var hold := w.reservations[r];
        w.(guard := g.(pending := Released(g.pending, hold.userID, hold.amount)),
           reservations := w.reservations[r := hold.(released := true)])
      else w
    case GuardTick(userID, at, listing, broken) =>
      w.(guard := Enforce(g, w.books, terms, userID, at, listing, broken).state, now := at)
    case ProjectProvisioned(p) => w.(guard := g.(projects := g.projects[p.id := p]))
    case HandlerReads(id) => if id in g.projects then w.(copies := w.copies + [g.projects[id]]) else w
    case HandlerWrites(k, settings) =>
      if k < |w.copies| then w.(guard := g.(projects := WrittenBack(g.projects, w.copies[k], settings))) else w
    case OwnerSuspends(id) => w.(guard := g.(projects := SuspendedByOwner(g.projects, id)))
    case OwnerResumes(id, provisioned) => w.(guard := g.(projects := ResumedByOwner(g.projects, id, provisioned)))
    case OwnerDeletes(id, provisioned) => w.(guard := g.(projects := DeletedByOwner(g.projects, id, provisioned)))
  }

  /** The service just started: nothing pending, no grace period, no deletion scheduled. */
  ghost predicate Initial(w: World) {
    && Keyed(w.guard.projects)
    && (forall id :: id in w.guard.projects ==> w.guard.projects[id].deletionDueAt == None)
    && w.guard.pending == map[] && w.guard.grace == map[]
    && w.deploys == [] && w.reservations == [] && w.copies == []
    && Nonnegative(w.books.costs)
  }

  ghost predicate Follows(ws: seq<World>, steps: seq<Step>, terms: Terms, i: int)
    requires |ws| == |steps| + 1 && 0 <= i < |steps|
  {
    Legal(ws[i], steps[i]) && ws[i + 1] == Apply(ws[i], steps[i], terms)
  }

  ghost predicate Steps(ws: seq<World>, steps: seq<Step>, terms: Terms) {
    |ws| == |steps| + 1 && forall i :: 0 <= i < |steps| ==> Follows(ws, steps, terms, i)
  }

  ghost predicate Run(ws: seq<World>, steps: seq<Step>, terms: Terms) {
    Steps(ws, steps, terms) && Initial(ws[0])
  }

  // ---------------------------------------------------------------- what one tick may do to one project

  /** A tick touches only its owner's projects, and only in the ways the guard is for. */
  ghost predicate TickEffect(g: GuardState, books: Books, terms: Terms, userID: string, at: int, p: Project, p': Project) {
    || p' == p
    || (&& p.owner == userID && userID in books.accounts
        && if Funded(g, books, userID) then p' == Cleared(p)
           else && userID in g.grace && g.grace[userID] + terms.grace <= at
                && (|| (p.status == Active && p' == AutoSuspended(p, at, terms))
                    || (IsDue(at)(p) && (p' == p.(status := Deleting) || p' == p.(status := Deleted)))))
  }

  /** However far an overdue pass gets. */
  lemma OutcomeIsBounded(
    projects: map<string, Project>, suspended: seq<Project>, deleted: seq<Project>, stuck: seq<Project>, at: int, terms: Terms, id: string)
    requires id in projects
    ensures var after := Outcome(projects, suspended, deleted, stuck, at, terms);
      && id in after
      && (|| after[id] == projects[id]
          || (projects[id] in suspended && after[id] == AutoSuspended(projects[id], at, terms))
          || (projects[id] in deleted + stuck && (after[id].status == Deleting || after[id].status == Deleted)
              && after[id] == projects[id].(status := after[id].status)))
  {
  }

  lemma CarryIsBounded(
    projects: map<string, Project>, suspends: seq<Project>, deletes: seq<Project>, at: int, terms: Terms, broken: set<string>, id: string)
    requires id in projects
    ensures var after := Carry(projects, suspends, deletes, at, terms, broken).projects;
      && id in after
      && (|| after[id] == projects[id]
          || (projects[id] in suspends && after[id] == AutoSuspended(projects[id], at, terms))
          || (projects[id] in deletes && (after[id] == projects[id].(status := Deleting) || after[id] == projects[id].(status := Deleted))))
  {
    var i, j := Halt(suspends, broken), Halt(deletes, broken);
    if i < |suspends| {
      OutcomeIsBounded(projects, suspends[..i + 1], [], [], at, terms, id);
    } else if j < |deletes| {
      OutcomeIsBounded(projects, suspends, deletes[..j], [deletes[j]], at, terms, id);
    } else {
      OutcomeIsBounded(projects, suspends, deletes, [], at, terms, id);
    }
  }

  lemma OverdueIsBounded(
    projects: map<string, Project>, listing: seq<Project>, userID: string, at: int, terms: Terms, broken: set<string>, id: string)
    requires Keyed(projects) && IsListing(listing, projects) && id in projects
    ensures var mine := Mine(listing, userID);
      var after := Carry(projects, Filter(mine, IsActive), Filter(mine, IsDue(at)), at, terms, broken).projects;
      && id in after
      && (|| after[id] == projects[id]
          || (projects[id].owner == userID && projects[id].status == Active && after[id] == AutoSuspended(projects[id], at, terms))
          || (projects[id].owner == userID && IsDue(at)(projects[id])
              && (after[id] == projects[id].(status := Deleting) || after[id] == projects[id].(status := Deleted))))
  {
    var mine := Mine(listing, userID);
    MineIsExact(projects, listing, userID);
    FilterKeeps(mine, IsActive);
    FilterKeeps(mine, IsDue(at));
    CarryIsBounded(projects, Filter(mine, IsActive), Filter(mine, IsDue(at)), at, terms, broken, id);
  }

  lemma TickIsBounded(
    g: GuardState, books: Books, terms: Terms, userID: string, at: int, listing: seq<Project>, broken: set<string>, id: string)
    requires Keyed(g.projects) && IsListing(listing, g.projects) && id in g.projects
    ensures var after := Enforce(g, books, terms, userID, at, listing, broken).state.projects;
      && id in after
      && TickEffect(g, books, terms, userID, at, g.projects[id], after[id])
    ensures userID in books.accounts && Funded(g, books, userID) && g.projects[id].owner == userID ==>
      Enforce(g, books, terms, userID, at, listing, broken).state.projects[id] == Cleared(g.projects[id])
  {
    match Look(g, books, terms, userID, at)
    case Solvent => MineIsExact(g.projects, listing, userID);
    case OutOfGrace => OverdueIsBounded(g.projects, listing, userID, at, terms, broken, id);
    case _ =>
  }

  /** What an overdue pass makes of one of the user's projects. */
  function OverdueProject(terms: Terms, userID: string, at: int, p: Project): Project {
    if p.owner != userID || p.status == Deleted then p
    else if p.status == Active then AutoSuspended(p, at, terms)
    else if IsDue(at)(p) then p.(status := Deleted)
    else p
  }

  /** What a pass makes of one project when no provisioner call fails. */
  function TickProject(finding: Finding, terms: Terms, userID: string, at: int, p: Project): Project {
    match finding
    case Solvent => if p.owner == userID && p.status != Deleted then Cleared(p) else p
    case OutOfGrace => OverdueProject(terms, userID, at, p)
    case _ => p
  }

  /** No provisioner call that an overdue pass makes for the user would fail. */
  ghost predicate Workable(projects: map<string, Project>, userID: string, at: int, broken: set<string>) {
    forall id :: id in projects && projects[id].owner == userID && (projects[id].status == Active || IsDue(at)(projects[id])) ==>
      id !in broken
  }

  /** Nothing stands in the way of the user's pass: the user exists, and what the pass acts on is workable. */
  ghost predicate OwnerIsClear(g: GuardState, books: Books, terms: Terms, userID: string, at: int, broken: set<string>) {
    userID in books.accounts && (Look(g, books, terms, userID, at) == OutOfGrace ==> Workable(g.projects, userID, at, broken))
  }

  lemma NothingHalts(batch: seq<Project>, broken: set<string>)
    requires forall p :: p in batch ==> p.id !in broken
    ensures Halt(batch, broken) == |batch|
  {
    forall i | 0 <= i < |batch|
      ensures batch[i].id !in broken
    {
      assert batch[i] in batch;
    }
  }

  lemma OutcomeIsOverdue(
    projects: map<string, Project>, suspends: seq<Project>, deletes: seq<Project>, terms: Terms, userID: string, at: int)
    requires forall id :: id in projects ==>
      && (projects[id] in suspends <==> projects[id].owner == userID && projects[id].status == Active)
      && (projects[id] in deletes <==> projects[id].owner == userID && IsDue(at)(projects[id]))
    ensures Outcome(projects, suspends, deletes, [], at, terms)
         == map id | id in projects :: OverdueProject(terms, userID, at, projects[id])
  {
  }

  lemma BatchesAreExact(projects: map<string, Project>, listing: seq<Project>, userID: string, at: int)
    requires Keyed(projects) && IsListing(listing, projects)
    ensures var mine := Mine(listing, userID);
      var suspends, deletes := Filter(mine, IsActive), Filter(mine, IsDue(at));
      && (forall id :: id in projects ==>
            && (projects[id] in suspends <==> projects[id].owner == userID && projects[id].status == Active)
            && (projects[id] in deletes <==> projects[id].owner == userID && IsDue(at)(projects[id])))
      && (forall p :: p in suspends || p in deletes ==> p.id in projects && projects[p.id] == p && p.owner == userID)
  {
    var mine := Mine(listing, userID);
    MineIsExact(projects, listing, userID);
    FilterKeeps(mine, IsActive);
    FilterKeeps(mine, IsDue(at));
  }

  lemma SmoothCarry(
    projects: map<string, Project>, terms: Terms, userID: string, at: int, listing: seq<Project>, broken: set<string>)
    requires Keyed(projects) && IsListing(listing, projects) && Workable(projects, userID, at, broken)
    ensures var mine := Mine(listing, userID);
      Carry(projects, Filter(mine, IsActive), Filter(mine, IsDue(at)), at, terms, broken)
        == Pass(map id | id in projects :: OverdueProject(terms, userID, at, projects[id]), true)
  {
    var mine := Mine(listing, userID);
    var suspends, deletes := Filter(mine, IsActive), Filter(mine, IsDue(at));
    BatchesAreExact(projects, listing, userID, at);
    NothingHalts(suspends, broken);
    NothingHalts(deletes, broken);
    OutcomeIsOverdue(projects, suspends, deletes, terms, userID, at);
  }

  function TickProjects(finding: Finding, terms: Terms, userID: string, at: int, projects: map<string, Project>): map<string, Project> {
    map id | id in projects :: TickProject(finding, terms, userID, at, projects[id])
  }

  lemma SmoothClear(projects: map<string, Project>, terms: Terms, userID: string, at: int, listing: seq<Project>)
    requires Keyed(projects) && IsListing(listing, projects)
    ensures ClearSchedules(projects, Mine(listing, userID)) == TickProjects(Solvent, terms, userID, at, projects)
  {
    MineIsExact(projects, listing, userID);
  }

  lemma IdleTick(finding: Finding, terms: Terms, userID: string, at: int, projects: map<string, Project>)
    requires finding != Solvent && finding != OutOfGrace
    ensures TickProjects(finding, terms, userID, at, projects) == projects
  {
  }

  /** Without failures the listing order leaves no trace: every project gets its effect, and the pass succeeds. */
  lemma SmoothTick(
    g: GuardState, books: Books, terms: Terms, userID: string, at: int, listing: seq<Project>, broken: set<string>)
    requires Keyed(g.projects) && IsListing(listing, g.projects)
    requires Look(g, books, terms, userID, at) == OutOfGrace ==> Workable(g.projects, userID, at, broken)
    ensures Enforce(g, books, terms, userID, at, listing, broken).ok == (userID in books.accounts)
    ensures Enforce(g, books, terms, userID, at, listing, broken).state.projects
         == TickProjects(Look(g, books, terms, userID, at), terms, userID, at, g.projects)
  {
    var finding := Look(g, books, terms, userID, at);
    match finding
    case Solvent => SmoothClear(g.projects, terms, userID, at, listing);
    case OutOfGrace => SmoothCarry(g.projects, terms, userID, at, listing, broken);
    case _ => IdleTick(finding, terms, userID, at, g.projects);
  }

  lemma CarryFails(projects: map<string, Project>, terms: Terms, userID: string, at: int, listing: seq<Project>, broken: set<string>)
    requires Keyed(projects) && IsListing(listing, projects) && !Workable(projects, userID, at, broken)
    ensures var mine := Mine(listing, userID);
      !Carry(projects, Filter(mine, IsActive), Filter(mine, IsDue(at)), at, terms, broken).ok
  {
    var mine := Mine(listing, userID);
    BatchesAreExact(projects, listing, userID, at);
    var id :| id in projects && projects[id].owner == userID && (projects[id].status == Active || IsDue(at)(projects[id])) && id in broken;
    if projects[id].status == Active {
      SomethingHalts(Filter(mine, IsActive), projects[id], broken);
    } else {
      SomethingHalts(Filter(mine, IsDue(at)), projects[id], broken);
    }
  }

  lemma SomethingHalts(batch: seq<Project>, p: Project, broken: set<string>)
    requires p in batch && p.id in broken
    ensures Halt(batch, broken) < |batch|
  {
    var i :| 0 <= i < |batch| && batch[i] == p;
  }

  /** One pass succeeds exactly if nothing stands in its way. */
  lemma PassSucceedsIff(
    g: GuardState, books: Books, terms: Terms, userID: string, at: int, listing: seq<Project>, broken: set<string>)
    requires Keyed(g.projects) && IsListing(listing, g.projects)
    ensures Enforce(g, books, terms, userID, at, listing, broken).ok <==> OwnerIsClear(g, books, terms, userID, at, broken)
  {
    if Look(g, books, terms, userID, at) == OutOfGrace && !Workable(g.projects, userID, at, broken) {
      CarryFails(g.projects, terms, userID, at, listing, broken);
    } else {
      SmoothTick(g, books, terms, userID, at, listing, broken);
    }
  }

  lemma EnforceKeepsKeys(
    g: GuardState, books: Books, terms: Terms, userID: string, at: int, listing: seq<Project>, broken: set<string>)
    ensures Enforce(g, books, terms, userID, at, listing, broken).state.projects.Keys == g.projects.Keys
  {
  }

  /** Copies are of records that exist, and know the owner. */
  ghost predicate CopiesFit(w: World) {
    forall k :: 0 <= k < |w.copies| ==>
      w.copies[k].id in w.guard.projects && w.guard.projects[w.copies[k].id].owner == w.copies[k].owner
  }

  ghost predicate ProjectsPersist(w: World, w': World) {
    && w.guard.projects.Keys <= w'.guard.projects.Keys
    && forall id :: id in w.guard.projects ==> w'.guard.projects[id].owner == w.guard.projects[id].owner
  }

  lemma TickKeepsProjects(w: World, userID: string, at: int, listing: seq<Project>, broken: set<string>, terms: Terms)
    requires Keyed(w.guard.projects) && IsListing(listing, w.guard.projects)
    ensures var w' := Apply(w, GuardTick(userID, at, listing, broken), terms); Keyed(w'.guard.projects) && ProjectsPersist(w, w')
  {
    EnforceKeepsKeys(w.guard, w.books, terms, userID, at, listing, broken);
    forall id | id in w.guard.projects
      ensures var p, p' := w.guard.projects[id], Apply(w, GuardTick(userID, at, listing, broken), terms).guard.projects[id];
        p'.id == p.id && p'.owner == p.owner
    {
      TickIsBounded(w.guard, w.books, terms, userID, at, listing, broken, id);
    }
  }

  lemma WriteKeepsProjects(w: World, copy: nat, settings: Project, terms: Terms)
    requires Keyed(w.guard.projects) && CopiesFit(w)
    ensures var w' := Apply(w, HandlerWrites(copy, settings), terms); Keyed(w'.guard.projects) && ProjectsPersist(w, w')
  {
  }

  /** Manual actions change no more than the status. */
  lemma OwnerKeepsProjects(w: World, step: Step, terms: Terms)
    requires Keyed(w.guard.projects) && (step.OwnerSuspends? || step.OwnerResumes? || step.OwnerDeletes?)
    ensures var w' := Apply(w, step, terms); Keyed(w'.guard.projects) && ProjectsPersist(w, w')
  {
  }

  lemma ProvisionKeepsProjects(w: World, p: Project, terms: Terms)
    requires Keyed(w.guard.projects) && p.id !in w.guard.projects
    ensures var w' := Apply(w, ProjectProvisioned(p), terms); Keyed(w'.guard.projects) && ProjectsPersist(w, w')
  {
  }

  /** Deploys, releases, money and reading handlers leave the projects alone. */
  lemma OtherStepsKeepProjects(w: World, step: Step, terms: Terms)
    requires !step.GuardTick? && !step.HandlerWrites? && !step.ProjectProvisioned?
    requires !step.OwnerSuspends? && !step.OwnerResumes? && !step.OwnerDeletes?
    ensures Apply(w, step, terms).guard.projects == w.guard.projects
  {
  }

  lemma StepKeepsProjects(w: World, step: Step, terms: Terms)
    requires Legal(w, step) && Keyed(w.guard.projects) && CopiesFit(w)
    ensures var w' := Apply(w, step, terms); Keyed(w'.guard.projects) && ProjectsPersist(w, w')
  {
    match step
    case GuardTick(userID, at, listing, broken) => TickKeepsProjects(w, userID, at, listing, broken, terms);
    case HandlerWrites(copy, settings) => WriteKeepsProjects(w, copy, settings, terms);
    case ProjectProvisioned(p) => ProvisionKeepsProjects(w, p, terms);
    case OwnerSuspends(id) => OwnerKeepsProjects(w, step, terms);
    case OwnerResumes(id, provisioned) => OwnerKeepsProjects(w, step, terms);
    case OwnerDeletes(id, provisioned) => OwnerKeepsProjects(w, step, terms);
    case _ => OtherStepsKeepProjects(w, step, terms);
  }

  lemma StepKeepsCopies(w: World, step: Step, terms: Terms)
    requires CopiesFit(w) && Keyed(w.guard.projects) && ProjectsPersist(w, Apply(w, step, terms))
    ensures CopiesFit(Apply(w, step, terms))
  {
    var w' := Apply(w, step, terms);
    if step.HandlerReads? && step.id in w.guard.projects {
      assert w'.copies == w.copies + [w.guard.projects[step.id]];
    } else {
      assert w'.copies == w.copies;
    }
  }

  lemma StepKeepsTime(w: World, step: Step, terms: Terms)
    requires Legal(w, step)
    ensures w.now <= Apply(w, step, terms).now
  {
  }

  lemma {:induction false} RunKeepsProjects(ws: seq<World>, steps: seq<Step>, terms: Terms, i: nat, j: nat)
    requires Steps(ws, steps, terms) && Keyed(ws[0].guard.projects) && CopiesFit(ws[0])
    requires i <= j < |ws|
    ensures Keyed(ws[j].guard.projects) && CopiesFit(ws[j])
    ensures ws[i].now <= ws[j].now
    ensures ProjectsPersist(ws[i], ws[j])
  {
    if j > 0 {
      RunKeepsProjects(ws, steps, terms, if i < j then i else j - 1, j - 1);
      assert Follows(ws, steps, terms, j - 1);
      StepKeepsProjects(ws[j - 1], steps[j - 1], terms);
      StepKeepsCopies(ws[j - 1], steps[j - 1], terms);
      StepKeepsTime(ws[j - 1], steps[j - 1], terms);
    }
  }
}
