/** What the guard does in terms of balances, refunds and costs, with every other notion spelled out. */
module GuardMoney {
  import opened Sequences
  import opened Text
  import opened Projects
  import opened Guard
  import opened GuardRuns
  import Reserve
  import Wrappers

  // ---------------------------------------------------------------- the month's spend

  /** The month's spend is zero without live projects, and every live project adds its own cost once. */
  lemma SpentIsTheSum(projects: map<string, Project>, costs: map<string, real>, userID: string, id: string)
    ensures (forall p :: p in projects ==> projects[p].owner != userID || projects[p].status == Deleted) ==> Spent(projects, costs, userID) == 0.0
    ensures id in projects && projects[id].owner == userID && projects[id].status != Deleted ==>
      Spent(projects, costs, userID) == Spent(projects - {id}, costs, userID) + if id in costs then costs[id] else 0.0
    ensures id in projects && (projects[id].owner != userID || projects[id].status == Deleted) ==>
      Spent(projects, costs, userID) == Spent(projects - {id}, costs, userID)
  {
    var ids := BillableIds(projects, userID);
    assert BillableIds(projects - {id}, userID) == ids - {id};
    if id in ids {
      SetCostRemove(ids, costs, id);
    } else {
      assert ids - {id} == ids;
    }
    if forall p :: p in projects ==> projects[p].owner != userID || projects[p].status == Deleted {
      assert ids == {};
    }
  }

  // ---------------------------------------------------------------- deploys

  /** What the deploy brought to the lock was read by one earlier step, for the owner of the project it was asked for. */
  ghost predicate ReadBy(w: World, step: Step, request: DeployRequest) {
    && step.PrepareDeploy? && step.project.owner in w.books.accounts
    && request == RequestDeploy(w.guard.projects, w.books, step.project, step.requestedType, step.requestedDedicated, step.at)
  }

  lemma {:induction false} RequestWasRead(ws: seq<World>, steps: seq<Step>, terms: Terms, i: nat, d: nat) returns (p: nat)
    requires Run(ws, steps, terms) && i < |ws| && d < |ws[i].deploys|
    ensures p < i && ReadBy(ws[p], steps[p], ws[i].deploys[d].request)
  {
    var k := i - 1;
    assert Follows(ws, steps, terms, k);
    if d < |ws[k].deploys| {
      assert ws[k].deploys[d].request == ws[i].deploys[d].request;
      p := RequestWasRead(ws, steps, terms, k, d);
    } else {
      p := k;
    }
  }

  /**
   One commit with `left` at hand. The reserve is granted if it fits and the user pays at all; a refusal with nothing left
   starts the grace period unless it runs.
   */
  ghost predicate Settles(w: World, w': World, userID: string, exempt: bool, left: real, reserve: real, stamp: int) {
    && (if !exempt && left >= reserve
        then && w'.guard.pending == w.guard.pending[userID := reserve + if userID in w.guard.pending then w.guard.pending[userID] else 0.0]
             && w'.reservations == w.reservations + [Reservation(userID, reserve, false)]
        else w'.guard.pending == w.guard.pending && w'.reservations == w.reservations)
    && (if !exempt && left < reserve && left <= 0.0 && userID !in w.guard.grace
        then w'.guard.grace == w.guard.grace[userID := stamp]
        else w'.guard.grace == w.guard.grace)
    && w'.guard.projects == w.guard.projects
  }

  lemma CommitOfASnapshot(w: World, d: nat, at: int, terms: Terms)
    requires d < |w.deploys| && !w.deploys[d].done
    ensures var DeployRequest(snapshot, reserve, stamp) := w.deploys[d].request;
      var left := snapshot.balance - snapshot.spent + snapshot.refund
                  - if snapshot.userID in w.guard.pending then w.guard.pending[snapshot.userID] else 0.0;
      Settles(w, Apply(w, CommitDeploy(d, at), terms), snapshot.userID, snapshot.exempt, left, reserve, stamp)
  {
  }

  lemma SnapshotWasRead(read: World, step: Step, request: DeployRequest)
    requires ReadBy(read, step, request)
    ensures var u := step.project.owner;
      var account := read.books.accounts[u];
      && request.at == step.at
      && request.snapshot == BillingSnapshot(u, account.balance, Spent(read.guard.projects, read.books.costs, u), account.refund, account.exempt)
  {
  }

  /**
   Over every run, what a deploy is judged by at the lock: balance and refunds as they were read, less the costs of the
   user's live projects as they were read, less everything that is reserved for the user now.
   */
  lemma DeployIsGrantedIff(ws: seq<World>, steps: seq<Step>, terms: Terms, i: nat, d: nat) returns (p: nat)
    requires Run(ws, steps, terms) && i < |steps| && steps[i].CommitDeploy? && steps[i].deploy == d
    requires d < |ws[i].deploys| && !ws[i].deploys[d].done
    ensures p < i && ReadBy(ws[p], steps[p], ws[i].deploys[d].request)
    ensures var u, pending := steps[p].project.owner, ws[i].guard.pending;
      var account := ws[p].books.accounts[u];
      var left := account.balance + account.refund - Spent(ws[p].guard.projects, ws[p].books.costs, u) - if u in pending then pending[u] else 0.0;
      Settles(ws[i], ws[i + 1], u, account.exempt, left, ws[i].deploys[d].request.reserve, steps[p].at)
  {
    p := RequestWasRead(ws, steps, terms, i, d);
    assert Follows(ws, steps, terms, i);
    SnapshotWasRead(ws[p], steps[p], ws[i].deploys[d].request);
    CommitOfASnapshot(ws[i], d, steps[i].at, terms);
  }

  // ---------------------------------------------------------------- the size of the reserve

  predicate Says(value: string, kind: string) {
    Lower(Trim(value)) == kind
  }

  /** The request decides the service type if it names one of the two, and the project does otherwise. */
  predicate AsksForBalancer(project: Project, requestedType: string) {
    Says(requestedType, "loadbalancer") || (!Says(requestedType, "clusterip") && Says(project.serviceType, "loadbalancer"))
  }

  lemma ServiceTypes(value: string)
    ensures Reserve.NormalizedServiceType(value) == "loadbalancer" <==> Says(value, "loadbalancer")
    ensures Reserve.NormalizedServiceType(value) == "" <==> !Says(value, "loadbalancer") && !Says(value, "clusterip")
  {
    assert "loadbalancer"[0] == 'l' && "clusterip"[0] == 'c';
  }

  /**
   What a deploy has to set aside: by service type, profile and replicas of the project, with an addition for the month's
   spend as it was read, which is at most 3.
   */
  lemma ReserveWasRead(read: World, asks: Step, request: DeployRequest, base: real, profile: real, replicas: int, more: real)
    requires ReadBy(read, asks, request)
    requires base == if !AsksForBalancer(asks.project, asks.requestedType) then 0.45
                     else if asks.project.dedicatedLoadBalancer || asks.requestedDedicated then 1.6 else 0.85
    requires profile == if Says(asks.project.resourceProfile, "starter") then 0.9
                        else if Says(asks.project.resourceProfile, "performance") then 1.45 else 1.15
    requires replicas == if asks.project.replicaCount <= 0 then 1 else if asks.project.replicaCount > 10 then 10 else asks.project.replicaCount
    requires more == Spent(read.guard.projects, read.books.costs, asks.project.owner) * 0.08
    ensures request.reserve == base * profile * (0.85 + 0.15 * replicas as real) + if more <= 3.0 then more else 3.0
  {
    ReserveOfADeploy(asks.project, asks.requestedType, asks.requestedDedicated, request.snapshot.spent, base, profile, replicas);
  }

  lemma ReserveOfADeploy(project: Project, requestedType: string, requestedDedicated: bool, spent: real, base: real, profile: real, replicas: int)
    requires base == if !AsksForBalancer(project, requestedType) then 0.45
                     else if project.dedicatedLoadBalancer || requestedDedicated then 1.6 else 0.85
    requires profile == if Says(project.resourceProfile, "starter") then 0.9 else if Says(project.resourceProfile, "performance") then 1.45 else 1.15
    requires replicas == if project.replicaCount <= 0 then 1 else if project.replicaCount > 10 then 10 else project.replicaCount
    ensures RequiredReserve(project, requestedType, requestedDedicated, spent)
         == base * profile * (0.85 + 0.15 * replicas as real) + if spent * 0.08 <= 3.0 then spent * 0.08 else 3.0
  {
    BaseOfADeploy(project, requestedType, requestedDedicated);
    ProfileOfADeploy(project.resourceProfile);
    Estimated(base, profile, replicas as real, spent);
  }

  lemma Estimated(base: real, profile: real, replicas: real, spent: real)
    requires replicas >= 1.0
    ensures Reserve.Scaled(base, profile, Reserve.Max(1.0, replicas)) + Reserve.Min(3.0, spent * 0.08)
         == base * profile * (0.85 + 0.15 * replicas) + if spent * 0.08 <= 3.0 then spent * 0.08 else 3.0
  {
  }

  lemma BaseOfADeploy(project: Project, requestedType: string, requestedDedicated: bool)
    ensures var requested := Reserve.NormalizedServiceType(requestedType);
      Reserve.BaseReserve(if requested == "" then Reserve.NormalizedServiceType(project.serviceType) else requested,
                          project.dedicatedLoadBalancer || requestedDedicated)
        == if !AsksForBalancer(project, requestedType) then 0.45
           else if project.dedicatedLoadBalancer || requestedDedicated then 1.6 else 0.85
  {
    ServiceTypes(requestedType);
    ServiceTypes(project.serviceType);
  }

  lemma ProfileOfADeploy(profile: string)
    ensures Reserve.ProfileMultiplier(Reserve.NormalizedResourceProfile(profile))
         == if Says(profile, "starter") then 0.9 else if Says(profile, "performance") then 1.45 else 1.15
  {
    assert "starter"[0] == 's' && "performance"[0] == 'p' && "balanced"[0] == 'b';
  }

  // ---------------------------------------------------------------- passes of the guard

  /** Exempt, or balance and refunds are more than the costs of the live projects and everything reserved. */
  ghost predicate HasMoney(g: GuardState, books: Books, userID: string)
    requires userID in books.accounts
  {
    || books.accounts[userID].exempt
    || books.accounts[userID].balance + books.accounts[userID].refund
         > Spent(g.projects, books.costs, userID) + if userID in g.pending then g.pending[userID] else 0.0
  }

  /**
   A pass leaves a user with money alone: the grace period ends, no status changes, and suspended projects lose their
   deletion date. Any other user is on grace afterwards, from now if not before.
   */
  lemma PassLeavesAloneIff(
    g: GuardState, books: Books, terms: Terms, userID: string, at: int, listing: seq<Project>, broken: set<string>)
    requires Keyed(g.projects) && IsListing(listing, g.projects) && userID in books.accounts
    ensures var g' := Enforce(g, books, terms, userID, at, listing, broken).state;
      && (userID !in g'.grace <==> HasMoney(g, books, userID))
      && (!HasMoney(g, books, userID) ==> g'.grace[userID] == if userID in g.grace then g.grace[userID] else at)
      && (HasMoney(g, books, userID) ==>
            forall id :: id in g.projects ==>
              && id in g'.projects && g'.projects[id].status == g.projects[id].status
              && g'.projects[id] == if g.projects[id].owner == userID && g.projects[id].status == Suspended
                                    then g.projects[id].(suspendedAt := Wrappers.None, deletionDueAt := Wrappers.None) else g.projects[id])
  {
    if HasMoney(g, books, userID) {
      MineIsExact(g.projects, listing, userID);
    }
  }

  lemma OverdueInPlainTerms(terms: Terms, userID: string, at: int, p: Project)
    requires p.owner == userID
    ensures var p' := OverdueProject(terms, userID, at, p);
      var due := p.status == Suspended && p.deletionDueAt.Some? && p.deletionDueAt.value <= at;
      && p'.id == p.id && p'.owner == p.owner && p'.serviceType == p.serviceType && p'.replicaCount == p.replicaCount
      && (p.status == Active ==>
            p'.status == Suspended && p'.suspendedAt == Wrappers.Some(at) && p'.deletionDueAt == Wrappers.Some(at + terms.retention))
      && (due ==> p'.status == Deleted && p'.suspendedAt == p.suspendedAt && p'.deletionDueAt == p.deletionDueAt)
      && (p.status != Active && !due ==> p' == p)
  {
  }

  /** What an overdue pass without failing calls does to the user's projects, field by field. */
  lemma OverduePassInPlainTerms(
    g: GuardState, books: Books, terms: Terms, userID: string, at: int, listing: seq<Project>, broken: set<string>, id: string)
    requires Keyed(g.projects) && IsListing(listing, g.projects) && userID in books.accounts && !HasMoney(g, books, userID)
    requires userID in g.grace && g.grace[userID] + terms.grace <= at
    requires forall p :: p in g.projects ==> p !in broken
    requires id in g.projects && g.projects[id].owner == userID
    ensures var p, after := g.projects[id], Enforce(g, books, terms, userID, at, listing, broken).state.projects;
      && id in after
      && var p' := after[id];
      && var due := p.status == Suspended && p.deletionDueAt.Some? && p.deletionDueAt.value <= at;
      && p'.id == p.id && p'.owner == p.owner && p'.serviceType == p.serviceType && p'.replicaCount == p.replicaCount
      && (p.status == Active ==>
            p'.status == Suspended && p'.suspendedAt == Wrappers.Some(at) && p'.deletionDueAt == Wrappers.Some(at + terms.retention))
      && (due ==> p'.status == Deleted && p'.suspendedAt == p.suspendedAt && p'.deletionDueAt == p.deletionDueAt)
      && (p.status != Active && !due ==> p' == p)
  {
    OverdueUserIsFound(g, books, terms, userID, at);
    SmoothTick(g, books, terms, userID, at, listing, broken);
    OverdueInPlainTerms(terms, userID, at, g.projects[id]);
  }

  lemma OverdueUserIsFound(g: GuardState, books: Books, terms: Terms, userID: string, at: int)
    requires userID in books.accounts && !HasMoney(g, books, userID) && userID in g.grace && g.grace[userID] + terms.grace <= at
    ensures Look(g, books, terms, userID, at) == OutOfGrace
  {
  }

  predicate Overdue(p: Project, userID: string, at: int) {
    p.owner == userID && p.status == Suspended && p.deletionDueAt.Some? && p.deletionDueAt.value <= at
  }

  predicate Runs(p: Project, userID: string) {
    p.owner == userID && p.status == Active
  }

  /**
   What an overdue pass leaves behind when a call fails. A project that could not be suspended is recorded as suspended and
   nothing is deleted; one that could not be deleted stays half-deleted when everything that ran is suspended.
   */
  lemma FailingPassInPlainTerms(
    g: GuardState, books: Books, terms: Terms, userID: string, at: int, listing: seq<Project>, broken: set<string>) returns (stuck: string)
    requires Keyed(g.projects) && IsListing(listing, g.projects) && userID in books.accounts && !HasMoney(g, books, userID)
    requires userID in g.grace && g.grace[userID] + terms.grace <= at
    requires !Enforce(g, books, terms, userID, at, listing, broken).ok
    ensures var after := Enforce(g, books, terms, userID, at, listing, broken).state.projects;
      stuck in g.projects && stuck in broken && after.Keys == g.projects.Keys && StuckAt(g.projects, after, userID, at, broken, stuck)
  {
    OverdueUserIsFound(g, books, terms, userID, at);
    BatchesAreExact(g.projects, listing, userID, at);
    var suspends, deletes := Filter(Mine(listing, userID), IsActive), Filter(Mine(listing, userID), IsDue(at));
    if Halt(suspends, broken) < |suspends| {
      stuck := SuspensionFails(g.projects, suspends, deletes, userID, at, terms, broken);
    } else {
      stuck := DeletionFails(g.projects, suspends, deletes, userID, at, terms, broken);
    }
  }

  ghost predicate StuckAt(
    projects: map<string, Project>, after: map<string, Project>, userID: string, at: int, broken: set<string>, stuck: string)
    requires stuck in projects && after.Keys == projects.Keys
  {
    if Runs(projects[stuck], userID) then
      after[stuck].status == Suspended && forall id :: id in projects && Overdue(projects[id], userID, at) ==> after[id] == projects[id]
    else
      && Overdue(projects[stuck], userID, at) && after[stuck].status == Deleting
      && (forall id :: id in projects && Runs(projects[id], userID) ==> id !in broken && after[id].status == Suspended)
      && (forall id :: id in projects && Overdue(projects[id], userID, at) && id != stuck ==>
            after[id] == projects[id] || (id !in broken && after[id].status == Deleted))
  }

  ghost predicate AreBatches(projects: map<string, Project>, suspends: seq<Project>, deletes: seq<Project>, userID: string, at: int) {
    && Keyed(projects)
    && (forall id :: id in projects ==>
          && (projects[id] in suspends <==> projects[id].owner == userID && projects[id].status == Active)
          && (projects[id] in deletes <==> projects[id].owner == userID && IsDue(at)(projects[id])))
    && (forall p :: p in suspends || p in deletes ==> p.id in projects && projects[p.id] == p)
  }

  lemma SuspensionFails(
    projects: map<string, Project>, suspends: seq<Project>, deletes: seq<Project>, userID: string, at: int, terms: Terms, broken: set<string>)
    returns (stuck: string)
    requires AreBatches(projects, suspends, deletes, userID, at) && Halt(suspends, broken) < |suspends|
    ensures var after := Carry(projects, suspends, deletes, at, terms, broken).projects;
      stuck in projects && stuck in broken && after.Keys == projects.Keys && StuckAt(projects, after, userID, at, broken, stuck)
  {
    var k := Halt(suspends, broken);
    assert suspends[k] in suspends && suspends[k] in suspends[..k + 1];
    stuck := suspends[k].id;
  }

  lemma DeletionFails(
    projects: map<string, Project>, suspends: seq<Project>, deletes: seq<Project>, userID: string, at: int, terms: Terms, broken: set<string>)
    returns (stuck: string)
    requires AreBatches(projects, suspends, deletes, userID, at) && Halt(suspends, broken) == |suspends| && Halt(deletes, broken) < |deletes|
    ensures var after := Carry(projects, suspends, deletes, at, terms, broken).projects;
      stuck in projects && stuck in broken && after.Keys == projects.Keys && StuckAt(projects, after, userID, at, broken, stuck)
  {
    var k := Halt(deletes, broken);
    assert deletes[k] in deletes;
    stuck := deletes[k].id;
    BeforeTheHalt(suspends, broken, |suspends|);
    BeforeTheHalt(deletes, broken, k);
    assert suspends[..|suspends|] == suspends;
    DeletionStops(projects, suspends, deletes, k, at, terms);
  }

  lemma BeforeTheHalt(batch: seq<Project>, broken: set<string>, k: nat)
    requires k <= Halt(batch, broken)
    ensures forall p :: p in batch[..k] ==> p.id !in broken
  {
  }

  /** The store when the deletion of `deletes[k]` got stuck. */
  lemma DeletionStops(projects: map<string, Project>, suspends: seq<Project>, deletes: seq<Project>, k: nat, at: int, terms: Terms)
    requires Keyed(projects) && k < |deletes|
    requires forall p :: p in suspends || p in deletes ==> p.id in projects && projects[p.id] == p
    requires forall p :: p in deletes ==> p.status == Suspended
    requires forall p :: p in suspends ==> p.status == Active
    ensures var after := Outcome(projects, suspends, deletes[..k], [deletes[k]], at, terms);
      && (forall id :: id in projects && projects[id] in suspends ==> after[id].status == Suspended)
      && (forall id :: id in projects && projects[id] in deletes && id != deletes[k].id ==>
            after[id] == projects[id] || (projects[id] in deletes[..k] && after[id].status == Deleted))
  {
  }

  // ---------------------------------------------------------------- what owners and handlers do

  /** Owners change the status only: a suspension writes it before the environment is asked, a resume after, a deletion before and after. */
  lemma OwnersInPlainTerms(projects: map<string, Project>, id: string, provisioned: bool)
    ensures id in projects ==>
      && SuspendedByOwner(projects, id) == (if projects[id].status == Active then projects[id := projects[id].(status := Suspended)] else projects)
      && ResumedByOwner(projects, id, true) 
           == (if projects[id].status == Suspended then projects[id := projects[id].(status := Active)] else projects)
      && DeletedByOwner(projects, id, true) == projects[id := projects[id].(status := Deleted)]
      && DeletedByOwner(projects, id, false) == projects[id := projects[id].(status := Deleting)]
    ensures id in projects && !provisioned ==> ResumedByOwner(projects, id, provisioned) == projects
    ensures id !in projects ==>
      SuspendedByOwner(projects, id) == ResumedByOwner(projects, id, provisioned) == DeletedByOwner(projects, id, provisioned) == projects
  {
  }

  /** A handler's write leaves the status and the dates that it has read, and every setting that it does not leave blank. */
  lemma WriteInPlainTerms(projects: map<string, Project>, copy: Project, settings: Project)
    requires copy.id in projects
    ensures var was, r := projects[copy.id], WrittenBack(projects, copy, settings)[copy.id];
      && WrittenBack(projects, copy, settings) == projects[copy.id := r]
      && r.id == copy.id && r.owner == copy.owner && r.status == copy.status
      && r.suspendedAt == copy.suspendedAt && r.deletionDueAt == copy.deletionDueAt
      && r.dedicatedLoadBalancer == settings.dedicatedLoadBalancer
      && r.repositoryOwner == (if settings.repositoryOwner != "" then settings.repositoryOwner else was.repositoryOwner)
      && r.repositoryName == (if settings.repositoryName != "" then settings.repositoryName else was.repositoryName)
      && r.serviceType == (if settings.serviceType != "" then settings.serviceType else was.serviceType)
      && r.replicaCount == (if settings.replicaCount != 0 then settings.replicaCount else was.replicaCount)
      && r.resourceProfile == (if settings.resourceProfile != "" then settings.resourceProfile else was.resourceProfile)
  {
  }

  // ---------------------------------------------------------------- a release, with the cut-off written out

  /** A released reserve comes off the entry; an entry of at most a billionth is dropped. */
  lemma ReleaseInPlainTerms(w: World, r: nat, terms: Terms)
    requires r < |w.reservations| && !w.reservations[r].released
    ensures var u := w.reservations[r].userID;
      var left := (if u in w.guard.pending then w.guard.pending[u] else 0.0) - w.reservations[r].amount;
      var w' := Apply(w, ReleaseDeploy(r), terms);
      w'.guard.pending == if left <= 0.000000001 then w.guard.pending - {u} else w.guard.pending[u := left]
  {
  }
}
