/**
 What the billing guard does, as functions on values: the money a user can still spend, a reservation,
 its release, and one enforcement pass over a user.
 */
module Guard {
  import opened Wrappers
  import opened Sequences
  import opened Projects
  import opened Reserve

  /** What the guard reads of a user: the balance, the sum of refunds, and the exemption. */
  datatype Account = Account(balance: real, refund: real, exempt: bool)

  /** Answers of the user store, the transaction store and the monetization engine. */
  datatype Books = Books(accounts: map<string, Account>, costs: map<string, real>)

  /** Grace and retention periods: the setters ignore negative values. */
  datatype Terms = Terms(grace: nat, retention: nat)

  datatype BillingSnapshot = BillingSnapshot(userID: string, balance: real, spent: real, refund: real, exempt: bool) {
    function Funds(): real { balance - spent + refund }
  }

  // ---------------------------------------------------------------- money

  function CostOf(costs: map<string, real>, id: string): real {
    if id in costs then costs[id] else 0.0
  }

  function Billable(userID: string): Project -> bool {
    (p: Project) => p.owner == userID && p.status != Deleted
  }

  /** The accumulation loop of calculateUserSpentThisMonth. */
  function CostSum(projects: seq<Project>, costs: map<string, real>): real {
    if projects == [] then 0.0
    else CostSum(projects[..|projects| - 1], costs) + CostOf(costs, projects[|projects| - 1].id)
  }

  predicate IsBilled(p: Project) {
    p.status != Deleted
  }

  lemma CostSumOneMore(projects: seq<Project>, p: Project, costs: map<string, real>)
    ensures CostSum(projects + [p], costs) == CostSum(projects, costs) + CostOf(costs, p.id)
  {
    assert (projects + [p])[..|projects|] == projects;
  }

  /** What one more project adds to the accumulated spend: its cost, unless it is deleted. */
  lemma BilledOneMore(projects: seq<Project>, p: Project, costs: map<string, real>)
    ensures CostSum(Filter([], IsBilled), costs) == 0.0
    ensures CostSum(Filter(projects + [p], IsBilled), costs)
         == CostSum(Filter(projects, IsBilled), costs) + if p.status != Deleted && p.id in costs then costs[p.id] else 0.0
  {
    assert (projects + [p])[..|projects|] == projects;
    CostSumOneMore(Filter(projects, IsBilled), p, costs);
  }

  ghost function BillableIds(projects: map<string, Project>, userID: string): set<string> {
    set id | id in projects && projects[id].owner == userID && projects[id].status != Deleted
  }

  ghost function SetCost(ids: set<string>, costs: map<string, real>): real {
    if ids == {} then 0.0 else var id :| id in ids; CostOf(costs, id) + SetCost(ids - {id}, costs)
  }

  /** What the user's projects cost this month, whatever order they are listed in. */
  ghost function Spent(projects: map<string, Project>, costs: map<string, real>, userID: string): real {
    SetCost(BillableIds(projects, userID), costs)
  }

  lemma {:induction false} SetCostRemove(ids: set<string>, costs: map<string, real>, id: string)
    requires id in ids
    ensures SetCost(ids, costs) == CostOf(costs, id) + SetCost(ids - {id}, costs)
    decreases ids
  {
    var first :| first in ids && SetCost(ids, costs) == CostOf(costs, first) + SetCost(ids - {first}, costs);
    if first != id {
      SetCostRemove(ids - {first}, costs, id);
      SetCostRemove(ids - {id}, costs, first);
      assert ids - {first} - {id} == ids - {id} - {first};
    }
  }

  lemma {:induction false} SetCostNonnegative(ids: set<string>, costs: map<string, real>)
    requires forall id :: id in costs ==> costs[id] >= 0.0
    ensures SetCost(ids, costs) >= 0.0
  {
    if ids != {} {
      var id :| id in ids;
      SetCostRemove(ids, costs, id);
      SetCostNonnegative(ids - {id}, costs);
    }
  }

  function IdsOf(batch: seq<Project>): (ids: set<string>)
    ensures forall i :: 0 <= i < |batch| ==> batch[i].id in ids
    ensures forall id :: id in ids ==> exists i :: 0 <= i < |batch| && batch[i].id == id
  {
    if batch == [] then {} else IdsOf(batch[..|batch| - 1]) + {batch[|batch| - 1].id}
  }

  lemma {:induction false} CostSumIsSetCost(batch: seq<Project>, costs: map<string, real>)
    requires forall i, j :: 0 <= i < j < |batch| ==> batch[i].id != batch[j].id
    ensures CostSum(batch, costs) == SetCost(IdsOf(batch), costs)
  {
    if batch != [] {
      var front, id := batch[..|batch| - 1], batch[|batch| - 1].id;
      CostSumIsSetCost(front, costs);
      assert id !in IdsOf(front);
      SetCostRemove(IdsOf(batch), costs, id);
      assert IdsOf(batch) - {id} == IdsOf(front);
    }
  }

  /** listBillingProjects: what a listing shows of a user's live projects. */
  function Mine(listing: seq<Project>, userID: string): seq<Project> {
    Filter(listing, Billable(userID))
  }

  lemma MineIsExact(projects: map<string, Project>, listing: seq<Project>, userID: string)
    requires Keyed(projects) && IsListing(listing, projects)
    ensures NoDuplicates(Mine(listing, userID))
    ensures forall p: Project :: p in Mine(listing, userID) <==>
      p.id in projects && projects[p.id] == p && p.owner == userID && p.status != Deleted
  {
    FilterKeeps(listing, Billable(userID));
  }

  /** The order of the listing does not matter to the sum. */
  lemma SpentFromListing(projects: map<string, Project>, listing: seq<Project>, costs: map<string, real>, userID: string)
    requires Keyed(projects) && IsListing(listing, projects)
    ensures CostSum(Mine(listing, userID), costs) == Spent(projects, costs, userID)
  {
    var mine := Mine(listing, userID);
    MineIsExact(projects, listing, userID);
    forall i, j | 0 <= i < j < |mine|
      ensures mine[i].id != mine[j].id
    {
      assert mine[i] in mine && mine[j] in mine;
    }
    CostSumIsSetCost(mine, costs);
    assert IdsOf(mine) == BillableIds(projects, userID) by {
      forall id | id in BillableIds(projects, userID)
        ensures id in IdsOf(mine)
      {
        assert projects[id] in mine;
      }
      forall id | id in IdsOf(mine)
        ensures id in BillableIds(projects, userID)
      {
        var i :| 0 <= i < |mine| && mine[i].id == id;
        assert mine[i] in mine;
      }
    }
  }

  ghost function TakeSnapshot(projects: map<string, Project>, books: Books, userID: string): BillingSnapshot
    requires userID in books.accounts
  {
    var account := books.accounts[userID];
    BillingSnapshot(userID, account.balance, Spent(projects, books.costs, userID), account.refund, account.exempt)
  }

  // ---------------------------------------------------------------- reservations

  /** The cut-off below which a release drops the user's entry. */
  const CUT_OFF := 0.000000001

  function PendingOf(pending: map<string, real>, userID: string): real {
    if userID in pending then pending[userID] else 0.0
  }

  function RequiredReserve(project: Project, requestedType: string, requestedDedicated: bool, spent: real): real {
    var requested := NormalizedServiceType(requestedType);
    var serviceType := if requested == "" then NormalizedServiceType(project.serviceType) else requested;
    EstimateRequiredDeployReserve(
      serviceType, project.dedicatedLoadBalancer || requestedDedicated, spent, project.replicaCount, project.resourceProfile)
  }

  /** A deploy request between the reading of balances and the lock, with the time that was read on the way. */
  datatype DeployRequest = DeployRequest(snapshot: BillingSnapshot, reserve: real, at: int)

  ghost function RequestDeploy(
    projects: map<string, Project>, books: Books, project: Project, requestedType: string, requestedDedicated: bool, at: int): DeployRequest
    requires project.owner in books.accounts
  {
    var snapshot := TakeSnapshot(projects, books, project.owner);
    DeployRequest(snapshot, RequiredReserve(project, requestedType, requestedDedicated, snapshot.spent), at)
  }

  datatype Verdict = Exempted | Refused | Reserved

  function Judge(pending: map<string, real>, snapshot: BillingSnapshot, reserve: real): Verdict {
    if snapshot.exempt then Exempted
    else if snapshot.Funds() - PendingOf(pending, snapshot.userID) < reserve then Refused
    else Reserved
  }

  function PendingAfter(pending: map<string, real>, snapshot: BillingSnapshot, reserve: real): map<string, real> {
    if Judge(pending, snapshot, reserve) == Reserved
    then pending[snapshot.userID := PendingOf(pending, snapshot.userID) + reserve]
    else pending
  }

  /** A refusal with nothing available starts the grace period, unless it is already running. */
  function GraceAfter(
    pending: map<string, real>, grace: map<string, int>, snapshot: BillingSnapshot, reserve: real, now: int): map<string, int>
  {
    if && Judge(pending, snapshot, reserve) == Refused
       && snapshot.Funds() - PendingOf(pending, snapshot.userID) <= 0.0
       && snapshot.userID !in grace
    then grace[snapshot.userID := now]
    else grace
  }

  function Released(pending: map<string, real>, userID: string, amount: real): map<string, real> {
    var current := PendingOf(pending, userID) - amount;
    if current <= CUT_OFF then pending - {userID} else pending[userID := current]
  }

  // ---------------------------------------------------------------- one enforcement pass

  datatype GuardState = GuardState(projects: map<string, Project>, pending: map<string, real>, grace: map<string, int>)

  ghost function Available(g: GuardState, books: Books, userID: string): real
    requires userID in books.accounts
  {
    TakeSnapshot(g.projects, books, userID).Funds() - PendingOf(g.pending, userID)
  }

  /** The guard leaves this user alone: exempt, or money left. */
  ghost predicate Funded(g: GuardState, books: Books, userID: string)
    requires userID in books.accounts
  {
    books.accounts[userID].exempt || Available(g, books, userID) > 0.0
  }

  function AutoSuspended(p: Project, now: int, terms: Terms): Project {
    p.(status := Suspended, suspendedAt := Some(now), deletionDueAt := Some(now + terms.retention))
  }

  function Cleared(p: Project): Project {
    if p.status == Suspended then p.(suspendedAt := None, deletionDueAt := None) else p
  }

  predicate IsActive(p: Project) {
    p.status == Active
  }

  function IsDue(now: int): Project -> bool {
    (p: Project) => p.status == Suspended && p.deletionDueAt.Some? && p.deletionDueAt.value <= now
  }

  /** Index of the first project of the batch whose provisioner call fails, or the length of the batch. */
  function Halt(batch: seq<Project>, broken: set<string>): (k: nat)
    ensures k <= |batch|
    ensures k < |batch| ==> batch[k].id in broken
    ensures forall i :: 0 <= i < k ==> batch[i].id !in broken
  {
    if batch == [] || batch[0].id in broken then 0 else 1 + Halt(batch[1..], broken)
  }

  /** The store after the given records were auto-suspended, deleted, or left half-deleted by a failure. */
  function Outcome(
    projects: map<string, Project>, suspended: seq<Project>, deleted: seq<Project>, stuck: seq<Project>,
    now: int, terms: Terms): map<string, Project>
  {
    map id | id in projects ::
      var p := projects[id];
      if p in suspended then AutoSuspended(p, now, terms)
      else if p in deleted then p.(status := Deleted)
      else if p in stuck then p.(status := Deleting)
      else p
  }

  /** One more suspension of the batch. */
  lemma SuspensionStep(projects: map<string, Project>, batch: seq<Project>, i: nat, now: int, terms: Terms)
    requires i < |batch| && NoDuplicates(batch) && Keyed(projects)
    requires batch[i].id in projects && projects[batch[i].id] == batch[i]
    ensures var id := batch[i].id;
      var m := Outcome(projects, batch[..i], [], [], now, terms);
      m[id] == batch[i] && m[id := AutoSuspended(batch[i], now, terms)] == Outcome(projects, batch[..i + 1], [], [], now, terms)
  {
    var p := batch[i];
    assert p !in batch[..i];
    assert batch[..i + 1] == batch[..i] + [p];
    assert forall id :: id in projects && projects[id] == p ==> id == p.id;
  }

  /** One more deletion of the batch, gone through or stuck halfway. */
  lemma OutcomeStep(
    projects: map<string, Project>, suspended: seq<Project>, batch: seq<Project>, i: nat, now: int, terms: Terms)
    requires i < |batch| && NoDuplicates(batch) && Keyed(projects)
    requires batch[i].id in projects && projects[batch[i].id] == batch[i]
    requires batch[i] !in suspended
    ensures var id := batch[i].id;
      var m := Outcome(projects, suspended, batch[..i], [], now, terms);
      && m[id] == batch[i]
      && m[id := batch[i].(status := Deleted)] == Outcome(projects, suspended, batch[..i + 1], [], now, terms)
      && m[id := batch[i].(status := Deleting)] == Outcome(projects, suspended, batch[..i], [batch[i]], now, terms)
  {
    var p := batch[i];
    assert p !in batch[..i];
    assert batch[..i + 1] == batch[..i] + [p];
    assert forall id :: id in projects && projects[id] == p ==> id == p.id;
  }

  function ClearSchedules(projects: map<string, Project>, mine: seq<Project>): map<string, Project> {
    map id | id in projects :: if projects[id] in mine then Cleared(projects[id]) else projects[id]
  }

  /** One more schedule: a record that is listed twice is cleared once. */
  lemma ClearingStep(projects: map<string, Project>, mine: seq<Project>, i: nat)
    requires i < |mine| && Keyed(projects) && mine[i].id in projects && projects[mine[i].id] == mine[i]
    ensures ClearSchedules(projects, mine[..i + 1]) == ClearSchedules(projects, mine[..i])[mine[i].id := Cleared(mine[i])]
  {
    var p := mine[i];
    assert mine[..i + 1] == mine[..i] + [p];
    assert forall id :: id in projects && projects[id] == p ==> id == p.id;
  }

  datatype Pass = Pass(projects: map<string, Project>, ok: bool)

  predicate HasSchedule(p: Project) {
    p.status == Suspended && !(p.suspendedAt == None && p.deletionDueAt == None)
  }

  ghost predicate AreCurrent(copies: seq<Project>, projects: map<string, Project>) {
    forall i :: 0 <= i < |copies| ==> copies[i].id in projects && projects[copies[i].id] == copies[i]
  }

  lemma MineIsCurrent(projects: map<string, Project>, listing: seq<Project>, userID: string)
    requires Keyed(projects) && IsListing(listing, projects)
    ensures AreCurrent(Mine(listing, userID), projects)
  {
    var mine := Mine(listing, userID);
    MineIsExact(projects, listing, userID);
    assert forall i :: 0 <= i < |mine| ==> mine[i] in mine;
  }

  /** clearDeletionSchedule on records as they were read, which the store may have changed since: the copies win. */
  function CopiesCleared(projects: map<string, Project>, copies: seq<Project>): Pass {
    if copies == [] then Pass(projects, true)
    else
      var before, p := CopiesCleared(projects, copies[..|copies| - 1]), copies[|copies| - 1];
      if !before.ok || !HasSchedule(p) then before
      else if p.id !in before.projects then Pass(before.projects, false)
      else Pass(before.projects[p.id := Merged(p.(suspendedAt := None, deletionDueAt := None), before.projects[p.id])], true)
  }

  lemma {:induction false} FailurePersists(projects: map<string, Project>, copies: seq<Project>, k: nat)
    requires k <= |copies| && !CopiesCleared(projects, copies[..k]).ok
    ensures CopiesCleared(projects, copies) == CopiesCleared(projects, copies[..k])
    decreases |copies| - k
  {
    if k < |copies| {
      assert copies[..k + 1][..k] == copies[..k];
      FailurePersists(projects, copies, k + 1);
    } else {
      assert copies[..k] == copies;
    }
  }

  /** Copies that are current have their schedules cleared, and nothing else happens. */
  lemma {:induction false} CurrentCopiesCleared(projects: map<string, Project>, copies: seq<Project>)
    requires Keyed(projects) && AreCurrent(copies, projects)
    ensures CopiesCleared(projects, copies) == Pass(ClearSchedules(projects, copies), true)
  {
    if copies == [] {
      assert ClearSchedules(projects, []) == projects;
    } else {
      var n := |copies| - 1;
      CurrentCopiesCleared(projects, copies[..n]);
      ClearingStep(projects, copies, n);
      assert copies[..n + 1] == copies;
      var m, p := ClearSchedules(projects, copies[..n]), copies[n];
      assert m[p.id] == p || m[p.id] == Cleared(p);
      if !HasSchedule(p) {
        assert m[p.id := Cleared(p)] == m;
      }
    }
  }

  /** Clearing fails exactly if some copy with a schedule is of a project that is not there; what it touches is suspended without dates. */
  lemma {:induction false} CopiesClearedIff(projects: map<string, Project>, copies: seq<Project>)
    ensures var pass := CopiesCleared(projects, copies);
      && pass.projects.Keys == projects.Keys
      && (pass.ok <==>
            forall i :: 0 <= i < |copies| && copies[i].status == Suspended && (copies[i].suspendedAt.Some? || copies[i].deletionDueAt.Some?) ==>
              copies[i].id in projects)
      && forall id :: id in projects ==>
           var p := pass.projects[id];
           p == projects[id] || (p.status == Suspended && p.suspendedAt.None? && p.deletionDueAt.None?)
  {
    if copies != [] {
      var front := copies[..|copies| - 1];
      CopiesClearedIff(projects, front);
      assert forall i :: 0 <= i < |front| ==> front[i] == copies[i];
    }
  }

  /** Suspend what runs, delete what has been suspended long enough, stop at the first failure. */
  function Carry(
    projects: map<string, Project>, suspends: seq<Project>, deletes: seq<Project>,
    now: int, terms: Terms, broken: set<string>): Pass
  {
    var i, j := Halt(suspends, broken), Halt(deletes, broken);
    if i < |suspends| then Pass(Outcome(projects, suspends[..i + 1], [], [], now, terms), false)
    else if j < |deletes| then Pass(Outcome(projects, suspends, deletes[..j], [deletes[j]], now, terms), false)
    else Pass(Outcome(projects, suspends, deletes, [], now, terms), true)
  }

  predicate GraceRunning(grace: map<string, int>, userID: string, now: int, terms: Terms) {
    userID in grace && now < grace[userID] + terms.grace
  }

  /** What a pass finds out about a user. */
  datatype Finding = UnknownUser | Solvent | Unwarned | InGrace | OutOfGrace

  ghost function Look(g: GuardState, books: Books, terms: Terms, userID: string, now: int): Finding {
    if userID !in books.accounts then UnknownUser
    else if Funded(g, books, userID) then Solvent
    else if userID !in g.grace then Unwarned
    else if GraceRunning(g.grace, userID, now, terms) then InGrace
    else OutOfGrace
  }

  datatype Enforced = Enforced(state: GuardState, ok: bool)

  /** EnforceBillingGuard for one user, seeing the store through one listing; provisioner calls for `broken` fail. */
  ghost function Enforce(
    g: GuardState, books: Books, terms: Terms, userID: string, now: int, listing: seq<Project>, broken: set<string>): Enforced
  {
    var mine := Mine(listing, userID);
    match Look(g, books, terms, userID, now)
    case UnknownUser => Enforced(g, false)
    case Solvent => Enforced(g.(grace := g.grace - {userID}, projects := ClearSchedules(g.projects, mine)), true)
    case Unwarned => Enforced(g.(grace := g.grace[userID := now]), true)
    case InGrace => Enforced(g, true)
    case OutOfGrace =>
      var pass := Carry(g.projects, Filter(mine, IsActive), Filter(mine, IsDue(now)), now, terms, broken);
      Enforced(g.(projects := pass.projects), pass.ok)
  }

  // ---------------------------------------------------------------- the owner's own actions

  function SuspendedByOwner(projects: map<string, Project>, id: string): map<string, Project> {
    if id in projects && projects[id].status == Active
    then projects[id := projects[id].(status := Suspended)]
    else projects
  }

  /** A resume keeps suspendedAt and deletionDueAt. */
  function ResumedByOwner(projects: map<string, Project>, id: string, provisioned: bool): map<string, Project> {
    if id in projects && projects[id].status == Suspended && provisioned
    then projects[id := projects[id].(status := Active)]
    else projects
  }

  function DeletedByOwner(projects: map<string, Project>, id: string, provisioned: bool): map<string, Project> {
    if id in projects
    then projects[id := projects[id].(status := if provisioned then Deleted else Deleting)]
    else projects
  }
}
