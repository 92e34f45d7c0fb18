/** The guard's part of the project service, as it runs: maps under a mutex, loops over listings, store updates. */
module GuardService {
  import opened Wrappers
  import opened Sequences
  import opened Projects
  import opened Guard
  import opened GuardOrder

  /** What the guard decides for one user before it acts. */
  datatype Decision = Decision(
    clearGrace: bool, clearDeletionSchedule: bool, startGrace: bool,
    suspendProjects: seq<Project>, deleteProjects: seq<Project>)

  datatype BillingState = BillingState(
    snapshot: BillingSnapshot, projects: seq<Project>, available: real, graceEndsAt: Option<int>)

  function GraceUnder(decision: Decision, grace: map<string, int>, userID: string, now: int): map<string, int> {
    var kept := if decision.clearGrace then grace - {userID} else grace;
    if decision.startGrace && userID !in kept then kept[userID := now] else kept
  }

  /** The decision that a finding leads to. */
  function DecisionFor(finding: Finding, mine: seq<Project>, now: int): Decision {
    match finding
    case Solvent => Decision(true, true, false, [], [])
    case Unwarned => Decision(false, false, true, [], [])
    case OutOfGrace => Decision(false, false, false, Filter(mine, IsActive), Filter(mine, IsDue(now)))
    case _ => Decision(false, false, false, [], [])
  }

  /** What ApplyBillingDecision needs to know of a decision. */
  ghost predicate SoundDecision(decision: Decision, mine: seq<Project>) {
    && (forall p :: p in decision.suspendProjects || p in decision.deleteProjects ==> p in mine)
    && (forall p :: p in decision.suspendProjects ==> p.status == Active)
    && (forall p :: p in decision.deleteProjects ==> p.status == Suspended)
    && NoDuplicates(decision.suspendProjects) && NoDuplicates(decision.deleteProjects)
    && (decision.clearDeletionSchedule ==> decision.suspendProjects == decision.deleteProjects == [])
  }

  lemma DecisionIsSound(g: GuardState, books: Books, terms: Terms, userID: string, now: int, listing: seq<Project>)
    requires Keyed(g.projects) && IsListing(listing, g.projects)
    ensures SoundDecision(DecisionFor(Look(g, books, terms, userID, now), Mine(listing, userID), now), Mine(listing, userID))
  {
    MineIsExact(g.projects, listing, userID);
    FilterKeeps(Mine(listing, userID), IsActive);
    FilterKeeps(Mine(listing, userID), IsDue(now));
  }

  /** What ApplyBillingDecision says it did. */
  ghost predicate Applied(
    decision: Decision, mine: seq<Project>, g: GuardState, g': GuardState, userID: string, now: int, terms: Terms, broken: set<string>, ok: bool)
  {
    && g'.pending == g.pending && g'.grace == GraceUnder(decision, g.grace, userID, now)
    && if decision.clearDeletionSchedule then g'.projects == ClearSchedules(g.projects, mine) && ok
       else if decision.startGrace then g'.projects == g.projects && ok
       else Pass(g'.projects, ok) == Carry(g.projects, decision.suspendProjects, decision.deleteProjects, now, terms, broken)
  }

  lemma DecisionIsEnforced(
    g: GuardState, g': GuardState, books: Books, terms: Terms, userID: string, now: int, listing: seq<Project>, broken: set<string>, ok: bool)
    requires userID in books.accounts
    requires var mine := Mine(listing, userID);
      Applied(DecisionFor(Look(g, books, terms, userID, now), mine, now), mine, g, g', userID, now, terms, broken, ok)
    ensures Enforced(g', ok) == Enforce(g, books, terms, userID, now, listing, broken)
  {
    if Look(g, books, terms, userID, now) == InGrace {
      NothingCarried(g.projects, now, terms, broken);
    }
  }

  lemma NothingCarried(projects: map<string, Project>, now: int, terms: Terms, broken: set<string>)
    ensures Carry(projects, [], [], now, terms, broken) == Pass(projects, true)
  {
    assert Outcome(projects, [], [], [], now, terms) == projects;
  }

  class ProjectService {
    const store: ProjectStore
    const terms: Terms
    var pendingCharges: map<string, real>
    var graceStartedAt: map<string, int>

    ghost predicate Valid()
      reads this, store
    {
      Keyed(store.projects)
    }

    ghost function View(): GuardState
      reads this, store
    {
      GuardState(store.projects, pendingCharges, graceStartedAt)
    }

    constructor (store: ProjectStore, terms: Terms)
      requires Keyed(store.projects)
      ensures Valid() && this.store == store && this.terms == terms
      ensures View() == GuardState(store.projects, map[], map[])
    {
      this.store, this.terms := store, terms;
      pendingCharges, graceStartedAt := map[], map[];
    }

    method ListBillingProjects(userID: string) returns (mine: seq<Project>, ghost listing: seq<Project>)
      requires Valid()
      ensures IsListing(listing, store.projects) && mine == Mine(listing, userID)
      ensures forall p: Project :: p in mine <==> p.id in store.projects && store.projects[p.id] == p && p.owner == userID && p.status != Deleted
    {
      var all := store.List();
      listing := all;
      mine := [];
      for i := 0 to |all|
        invariant mine == Mine(all[..i], userID)
      {
        FilterStep(all, i, Billable(userID));
        if all[i].owner != userID || all[i].status == Deleted {
          continue;
        }
        mine := mine + [all[i]];
      }
      assert all[..|all|] == all;
      MineIsExact(store.projects, all, userID);
    }

    method CalculateUserSpentThisMonth(projects: seq<Project>, costs: map<string, real>) returns (spent: real)
      ensures spent == CostSum(Filter(projects, IsBilled), costs)
    {
      spent := 0.0;
      for i := 0 to |projects|
        invariant spent == CostSum(Filter(projects[..i], IsBilled), costs)
      {
        FilterStep(projects, i, IsBilled);
        CostSumOneMore(Filter(projects[..i], IsBilled), projects[i], costs);
        if projects[i].status == Deleted {
          continue;
        }
        spent := spent + CostOf(costs, projects[i].id);
      }
      assert projects[..|projects|] == projects;
    }

    method LoadBillingSnapshot(userID: string, projects: seq<Project>, books: Books, ghost listing: seq<Project>)
      returns (snapshot: Option<BillingSnapshot>)
      requires Valid() && IsListing(listing, store.projects) && projects == Mine(listing, userID)
      ensures snapshot == if userID in books.accounts then Some(TakeSnapshot(store.projects, books, userID)) else None
    {
      if userID !in books.accounts {
        return None;
      }
      MineIsExact(store.projects, listing, userID);
      FilterKeepsAll(projects, IsBilled);
      var spent := CalculateUserSpentThisMonth(projects, books.costs);
      SpentFromListing(store.projects, listing, books.costs, userID);
      var account := books.accounts[userID];
      snapshot := Some(BillingSnapshot(userID, account.balance, spent, account.refund, account.exempt));
    }

    /** The part of reserveDeployBudget that reads balances and the clock, before the lock. */
    method PrepareDeploy(project: Project, requestedType: string, requestedDedicated: bool, books: Books, now: int)
      returns (request: Option<DeployRequest>)
      requires Valid()
      ensures request == if project.owner in books.accounts
                         then Some(RequestDeploy(store.projects, books, project, requestedType, requestedDedicated, now)) else None
    {
      var mine, listing := ListBillingProjects(project.owner);
      var snapshot := LoadBillingSnapshot(project.owner, mine, books, listing);
      if snapshot.None? {
        return None;
      }
      var reserve := RequiredReserve(project, requestedType, requestedDedicated, snapshot.value.spent);
      request := Some(DeployRequest(snapshot.value, reserve, now));
    }

    /** The part of reserveDeployBudget under the lock: a refusal may stamp a grace period with the time read before it. */
    method CommitReserve(request: DeployRequest) returns (hold: Option<BudgetHold>, verdict: Verdict)
      requires Valid()
      modifies this
      ensures verdict == Judge(old(pendingCharges), request.snapshot, request.reserve)
      ensures hold.Some? <==> verdict == Reserved
      ensures hold.Some? ==> fresh(hold.value) && hold.value.service == this && !hold.value.released
      ensures hold.Some? ==> hold.value.owner == request.snapshot.userID && hold.value.amount == request.reserve
      ensures pendingCharges == PendingAfter(old(pendingCharges), request.snapshot, request.reserve)
      ensures graceStartedAt == GraceAfter(old(pendingCharges), old(graceStartedAt), request.snapshot, request.reserve, request.at)
      ensures var DeployRequest(snapshot, reserve, now) := request;
        var u, reserved := snapshot.userID, if snapshot.userID in old(pendingCharges) then old(pendingCharges)[snapshot.userID] else 0.0;
        var left := snapshot.balance - snapshot.spent + snapshot.refund - reserved;
        && verdict == (if snapshot.exempt then Exempted else if left < reserve then Refused else Reserved)
        && pendingCharges == (if verdict == Reserved then old(pendingCharges)[u := reserved + reserve] else old(pendingCharges))
        && graceStartedAt == (if verdict == Refused && left <= 0.0 && u !in old(graceStartedAt) then old(graceStartedAt)[u := now]
                              else old(graceStartedAt))
    {
      var DeployRequest(snapshot, reserve, now) := request;
      if snapshot.exempt {
        return None, Exempted;
      }
      var pending := PendingOf(pendingCharges, snapshot.userID);
      var available := snapshot.balance - snapshot.spent + snapshot.refund - pending;
      if available < reserve {
        if available <= 0.0 {
          var _, _ := EnsureGraceDeadline(snapshot.userID, now);
        }
        return None, Refused;
      }
      pendingCharges := pendingCharges[snapshot.userID := pending + reserve];
      var granted := new BudgetHold(this, snapshot.userID, reserve);
      return Some(granted), Reserved;
    }

    method EnsureGraceDeadline(userID: string, now: int) returns (deadline: int, startedNow: bool)
      modifies this`graceStartedAt
      ensures startedNow <==> userID !in old(graceStartedAt)
      ensures graceStartedAt == if startedNow then old(graceStartedAt)[userID := now] else old(graceStartedAt)
      ensures deadline == graceStartedAt[userID] + terms.grace
    {
      if userID in graceStartedAt {
        return graceStartedAt[userID] + terms.grace, false;
      }
      graceStartedAt := graceStartedAt[userID := now];
      return now + terms.grace, true;
    }

    method LoadBillingState(userID: string, books: Books) returns (state: Option<BillingState>, ghost listing: seq<Project>)
      requires Valid()
      ensures IsListing(listing, store.projects)
      ensures state.Some? <==> userID in books.accounts
      ensures state.Some? ==>
        && state.value.snapshot == TakeSnapshot(store.projects, books, userID)
        && state.value.projects == Mine(listing, userID)
        && state.value.available == Available(View(), books, userID)
        && state.value.available == books.accounts[userID].balance - Spent(store.projects, books.costs, userID) + books.accounts[userID].refund
                                    - (if userID in pendingCharges then pendingCharges[userID] else 0.0)
        && state.value.graceEndsAt
             == if userID in graceStartedAt then Some(graceStartedAt[userID] + terms.grace) else None
    {
      var mine;
      mine, listing := ListBillingProjects(userID);
      var snapshot := LoadBillingSnapshot(userID, mine, books, listing);
      if snapshot.None? {
        return None, listing;
      }
      var pending := PendingOf(pendingCharges, userID);
      var available := snapshot.value.balance - snapshot.value.spent + snapshot.value.refund - pending;
      var deadline := if userID in graceStartedAt then Some(graceStartedAt[userID] + terms.grace) else None;
      return Some(BillingState(snapshot.value, mine, available, deadline)), listing;
    }

    method EvaluateBillingGuard(state: BillingState, now: int) returns (decision: Decision)
      ensures state.snapshot.exempt || state.available > 0.0 ==> decision == Decision(true, true, false, [], [])
      ensures !state.snapshot.exempt && state.available <= 0.0 ==>
        decision == if state.graceEndsAt.None? then Decision(false, false, true, [], [])
                    else if now < state.graceEndsAt.value then Decision(false, false, false, [], [])
                    else Decision(false, false, false, Filter(state.projects, IsActive), Filter(state.projects, IsDue(now)))
    {
      if state.snapshot.exempt {
        return Decision(true, true, false, [], []);
      }
      if state.available > 0.0 {
        return Decision(true, true, false, [], []);
      }
      if state.graceEndsAt.None? {
        return Decision(false, false, true, [], []);
      }
      if now < state.graceEndsAt.value {
        return Decision(false, false, false, [], []);
      }
      var suspends, deletes := [], [];
      for i := 0 to |state.projects|
        invariant suspends == Filter(state.projects[..i], IsActive)
        invariant deletes == Filter(state.projects[..i], IsDue(now))
      {
        var project := state.projects[i];
        FilterStep(state.projects, i, IsActive);
        FilterStep(state.projects, i, IsDue(now));
        match project.status
        case Active =>
          suspends := suspends + [project];
        case Suspended =>
          if project.deletionDueAt.Some? && !(now < project.deletionDueAt.value) {
            deletes := deletes + [project];
          }
        case _ =>
      }
      assert state.projects[..|state.projects|] == state.projects;
      return Decision(false, false, false, suspends, deletes);
    }

    /** Writes the records as they were read; the store may hold newer ones. */
    method ClearDeletionSchedule(projects: seq<Project>) returns (ok: bool)
      requires Valid()
      modifies store
      ensures Valid()
      ensures Pass(store.projects, ok) == CopiesCleared(old(store.projects), projects)
    {
      for i := 0 to |projects|
        invariant Valid()
        invariant Pass(store.projects, true) == CopiesCleared(old(store.projects), projects[..i])
      {
        var project := projects[i];
        assert projects[..i + 1][..i] == projects[..i];
        if project.status != Suspended {
          continue;
        }
        if project.suspendedAt == None && project.deletionDueAt == None {
          continue;
        }
        ok := store.Update(project.(suspendedAt := None, deletionDueAt := None));
        if !ok {
          FailurePersists(old(store.projects), projects, i + 1);
          return;
        }
      }
      assert projects[..|projects|] == projects;
      ok := true;
    }

    /** Writes the record as it was read; the store may hold a newer one. */
    method SuspendProjectForNonPayment(project: Project, now: int, broken: set<string>) returns (ok: bool)
      requires Valid()
      modifies store
      ensures Valid()
      ensures ok == (project.status == Active && project.id in old(store.projects) && project.id !in broken)
      ensures store.projects == if project.status == Active && project.id in old(store.projects)
                                then old(store.projects)[project.id := Merged(AutoSuspended(project, now, terms), old(store.projects)[project.id])]
                                else old(store.projects)
    {
      if project.status != Active {
        return false;
      }
      ok := store.Update(AutoSuspended(project, now, terms));
      if ok {
        ok := project.id !in broken;
      }
    }

    method ApplyBillingDecision(state: BillingState, decision: Decision, now: int, broken: set<string>) returns (ok: bool)
      requires Valid()
      requires AreCurrent(state.projects, store.projects) && SoundDecision(decision, state.projects)
      modifies this`graceStartedAt, store
      ensures Valid()
      ensures Applied(decision, state.projects, old(View()), View(), state.snapshot.userID, now, terms, broken, ok)
    {
      if decision.clearGrace {
        graceStartedAt := graceStartedAt - {state.snapshot.userID};
      }
      if decision.clearDeletionSchedule {
        CurrentCopiesCleared(store.projects, state.projects);
        var cleared := ClearDeletionSchedule(state.projects);
      }
      if decision.startGrace {
        var _, _ := EnsureGraceDeadline(state.snapshot.userID, now);
        return true;
      }
      if decision.clearDeletionSchedule {
        return true;  // both batches are empty: the two loops below do nothing
      }
      ok := CarryOut(decision.suspendProjects, decision.deleteProjects, now, broken);
    }

    /** The two loops: deletions are attempted when every suspension went through. */
    method CarryOut(suspends: seq<Project>, deletes: seq<Project>, now: int, broken: set<string>) returns (ok: bool)
      requires Valid() && NoDuplicates(suspends) && NoDuplicates(deletes)
      requires forall p :: p in suspends ==> p.id in store.projects && store.projects[p.id] == p && p.status == Active
      requires forall p :: p in deletes ==> p.id in store.projects && store.projects[p.id] == p && p.status == Suspended
      modifies store
      ensures Valid()
      ensures Pass(store.projects, ok) == Carry(old(store.projects), suspends, deletes, now, terms, broken)
    {
      ok := SuspendBatch(suspends, now, broken);
      if ok {
        ok := DeleteBatch(old(store.projects), suspends, deletes, now, broken);
      }
    }

    /** The auto-suspend loop of applyBillingDecision. */
    method SuspendBatch(batch: seq<Project>, now: int, broken: set<string>) returns (ok: bool)
      requires Valid() && NoDuplicates(batch)
      requires forall p :: p in batch ==> p.id in store.projects && store.projects[p.id] == p && p.status == Active
      modifies store
      ensures Valid()
      ensures ok == (Halt(batch, broken) == |batch|)
      ensures store.projects
           == Outcome(old(store.projects), if ok then batch else batch[..Halt(batch, broken) + 1], [], [], now, terms)
    {
      ghost var before := store.projects;
      for i := 0 to |batch|
        invariant Valid() && i <= Halt(batch, broken)
        invariant store.projects == Outcome(before, batch[..i], [], [], now, terms)
      {
        var project := batch[i];
        assert project in batch;
        SuspensionStep(before, batch, i, now, terms);
        ok := SuspendProjectForNonPayment(project, now, broken);
        if !ok {
          return;
        }
      }
      assert batch[..|batch|] == batch;
      ok := true;
    }

    /** The auto-delete loop, entered when every suspension went through. */
    method DeleteBatch(ghost before: map<string, Project>, ghost suspended: seq<Project>, batch: seq<Project>, now: int, broken: set<string>)
      returns (ok: bool)
      requires Valid() && Keyed(before) && NoDuplicates(batch)
      requires store.projects == Outcome(before, suspended, [], [], now, terms)
      requires forall p :: p in batch ==> p.id in before && before[p.id] == p && p.status == Suspended
      requires forall p :: p in suspended ==> p.status == Active
      modifies store
      ensures Valid()
      ensures ok == (Halt(batch, broken) == |batch|)
      ensures store.projects
           == if ok then Outcome(before, suspended, batch, [], now, terms)
              else Outcome(before, suspended, batch[..Halt(batch, broken)], [batch[Halt(batch, broken)]], now, terms)
    {
      for i := 0 to |batch|
        invariant Valid() && i <= Halt(batch, broken)
        invariant store.projects == Outcome(before, suspended, batch[..i], [], now, terms)
      {
        assert batch[i] in batch;
        ok := DeleteNext(before, suspended, batch, i, now, broken);
        if !ok {
          return;
        }
      }
      assert batch[..|batch|] == batch;
      ok := true;
    }

    /** One round of the auto-delete loop. */
    method DeleteNext(
      ghost before: map<string, Project>, ghost suspended: seq<Project>, batch: seq<Project>, i: nat, now: int, broken: set<string>)
      returns (ok: bool)
      requires Valid() && Keyed(before) && NoDuplicates(batch) && i < |batch|
      requires store.projects == Outcome(before, suspended, batch[..i], [], now, terms)
      requires batch[i].id in before && before[batch[i].id] == batch[i] && batch[i] !in suspended
      modifies store
      ensures Valid()
      ensures ok == (batch[i].id !in broken)
      ensures store.projects == if ok then Outcome(before, suspended, batch[..i + 1], [], now, terms)
                                else Outcome(before, suspended, batch[..i], [batch[i]], now, terms)
    {
      OutcomeStep(before, suspended, batch, i, now, terms);
      ok := DeleteProject(batch[i].id, broken);
    }

    method EnforceBillingGuard(userID: string, now: int, books: Books, broken: set<string>)
      returns (ok: bool, ghost listing: seq<Project>)
      requires Valid()
      modifies this`graceStartedAt, store
      ensures Valid()
      ensures IsListing(listing, old(store.projects))
      ensures Enforced(View(), ok) == Enforce(old(View()), books, terms, userID, now, listing, broken)
    {
      var state;
      state, listing := LoadBillingState(userID, books);
      if state.None? {
        return false, listing;
      }
      ghost var before := View();
      DecisionIsSound(before, books, terms, userID, now, listing);
      MineIsCurrent(before.projects, listing, userID);
      var decision := EvaluateBillingGuard(state.value, now);
      assert decision == DecisionFor(Look(before, books, terms, userID, now), state.value.projects, now);
      ok := ApplyBillingDecision(state.value, decision, now, broken);
      DecisionIsEnforced(before, View(), books, terms, userID, now, listing, broken, ok);
    }

    /** One round of EnforceAllBillingGuards. */
    method EnforceNextOwner(userID: string, clock: string -> int, books: Books, broken: set<string>) returns (ok: bool, ghost turn: Turn)
      requires Valid()
      modifies this`graceStartedAt, store
      ensures Valid() && turn == Turn(userID, turn.listing, View(), ok)
      ensures IsTurn(old(View()), books, terms, clock, broken, turn)
    {
      ghost var seen;
      ok, seen := EnforceBillingGuard(userID, clock(userID), books, broken);
      turn := Turn(userID, seen, View(), ok);
    }

    /** The body of the loop of EnforceAllBillingGuards. */
    method VisitProject(
      projects: seq<Project>, k: nat, seenUsers: set<string>, clock: string -> int, books: Books, broken: set<string>,
      ghost start: GuardState, ghost turns: seq<Turn>)
      returns (ok: bool, seen: set<string>, ghost taken: seq<Turn>)
      requires Valid() && k < |projects|
      requires Owners(turns) == FirstOwners(projects[..k]) && seenUsers == SeenUsers(projects[..k])
      requires Taken(start, books, terms, clock, broken, turns, View(), true)
      modifies this`graceStartedAt, store
      ensures Valid() && Taken(start, books, terms, clock, broken, taken, View(), ok)
      ensures Owners(taken) == FirstOwners(projects[..k + 1]) && seen == SeenUsers(projects[..k + 1])
    {
      var project := projects[k];
      OneMoreOwner(projects, k);
      if project.owner == "" || project.status == Deleted || project.owner in seenUsers {
        return true, seenUsers, turns;
      }
      seen := seenUsers + {project.owner};
      ghost var turn;
      ok, turn := EnforceNextOwner(project.owner, clock, books, broken);
      OneMoreTurn(start, books, terms, clock, broken, turns, turn);
      taken := turns + [turn];
    }

    /**
     Each owner is enforced once, in the order of the listing, until a pass fails. The clock and the books
     are read per user; provisioner calls for `broken` projects fail.
     */
    method EnforceAllBillingGuards(clock: string -> int, books: Books, broken: set<string>)
      returns (ok: bool, ghost listing: seq<Project>, ghost turns: seq<Turn>)
      requires Valid()
      modifies this`graceStartedAt, store
      ensures Valid() && WholePass(old(View()), books, terms, clock, broken, listing, turns, View(), ok)
    {
      ghost var start := View();
      var projects := store.List();
      listing := projects;
      turns := [];
      var seenUsers: set<string> := {};
      for k := 0 to |projects|
        invariant Valid()
        invariant Owners(turns) == FirstOwners(projects[..k]) && seenUsers == SeenUsers(projects[..k])
        invariant Taken(start, books, terms, clock, broken, turns, View(), true)
      {
        ok, seenUsers, turns := VisitProject(projects, k, seenUsers, clock, books, broken, start, turns);
        if !ok {
          OwnersArePrefix(projects, k + 1);
          return;
        }
      }
      assert projects[..|projects|] == projects;
      ok := true;
    }

    method SuspendProject(id: string, broken: set<string>) returns (ok: bool)
      requires Valid()
      modifies store
      ensures Valid()
      ensures ok <==> id in old(store.projects) && old(store.projects)[id].status == Active && id !in broken
      ensures store.projects == SuspendedByOwner(old(store.projects), id)
    {
      var found := store.GetByID(id);
      if found.None? || found.value.status != Active {
        return false;
      }
      var updated := store.Update(found.value.(status := Suspended));
      ok := id !in broken;
    }

    method ResumeProject(id: string, broken: set<string>) returns (ok: bool)
      requires Valid()
      modifies store
      ensures Valid()
      ensures ok <==> id in old(store.projects) && old(store.projects)[id].status == Suspended && id !in broken
      ensures store.projects == ResumedByOwner(old(store.projects), id, id !in broken)
    {
      var found := store.GetByID(id);
      if found.None? || found.value.status != Suspended || id in broken {
        return false;
      }
      ok := store.Update(found.value.(status := Active));
    }

    method DeleteProject(id: string, broken: set<string>) returns (ok: bool)
      requires Valid()
      modifies store
      ensures Valid()
      ensures ok == (id in old(store.projects) && id !in broken)
      ensures store.projects == DeletedByOwner(old(store.projects), id, id !in broken)
    {
      var found := store.GetByID(id);
      if found.None? {
        return false;
      }
      var project := found.value.(status := Deleting);
      ok := store.Update(project);
      if id in broken {
        return false;
      }
      project := project.(status := Deleted);
      ok := store.Update(project);
    }
  }

  /** The closure that reserveDeployBudget returns, with its captured flag. */
  class BudgetHold {
    const service: ProjectService
    const owner: string
    const amount: real
    var released: bool

    constructor (service: ProjectService, owner: string, amount: real)
      ensures this.service == service && this.owner == owner && this.amount == amount && !released
    {
      this.service, this.owner, this.amount := service, owner, amount;
      released := false;
    }

    method Release()
      modifies this`released, service`pendingCharges
      ensures released
      ensures service.pendingCharges == if old(released) then old(service.pendingCharges)
                                        else Released(old(service.pendingCharges), owner, amount)
    {
      if released {
        return;
      }
      var current := PendingOf(service.pendingCharges, owner) - amount;
      if current <= CUT_OFF {
        service.pendingCharges := service.pendingCharges - {owner};
      } else {
        service.pendingCharges := service.pendingCharges[owner := current];
      }
      released := true;
    }
  }
}
