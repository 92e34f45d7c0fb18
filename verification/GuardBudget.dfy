/** Reservations over whole runs: the pending map is exact, and nothing is promised twice. */
module GuardBudget {
  import opened Projects
  import opened Guard
  import opened GuardRuns
  import Reserve

  predicate Live(r: Reservation, userID: string) {
    r.userID == userID && !r.released
  }

  /** The money of a user's outstanding reservations. */
  function Outstanding(rs: seq<Reservation>, userID: string): real {
    if rs == [] then 0.0
    else
      var last := rs[|rs| - 1];
      Outstanding(rs[..|rs| - 1], userID) + if Live(last, userID) then last.amount else 0.0
  }

  ghost predicate AnyLive(rs: seq<Reservation>, userID: string) {
    exists i :: 0 <= i < |rs| && Live(rs[i], userID)
  }

  ghost predicate AllAtLeast(rs: seq<Reservation>) {
    forall i :: 0 <= i < |rs| ==> rs[i].amount >= Reserve.LEAST_RESERVE
  }

  lemma {:induction false} OutstandingIsZeroOrLarge(rs: seq<Reservation>, userID: string)
    requires AllAtLeast(rs)
    ensures if AnyLive(rs, userID) then Outstanding(rs, userID) >= Reserve.LEAST_RESERVE else Outstanding(rs, userID) == 0.0
  {
    if rs != [] {
      var front := rs[..|rs| - 1];
      OutstandingIsZeroOrLarge(front, userID);
      if AnyLive(front, userID) {
        var i :| 0 <= i < |front| && Live(front[i], userID);
        assert Live(rs[i], userID);
      } else if i :| 0 <= i < |rs| && Live(rs[i], userID) {
        assert i < |front| ==> Live(front[i], userID);
      }
    }
  }

  lemma {:induction false} OutstandingAfterRelease(rs: seq<Reservation>, k: nat, userID: string)
    requires k < |rs|
    ensures Outstanding(rs[k := rs[k].(released := true)], userID)
         == Outstanding(rs, userID) - if Live(rs[k], userID) then rs[k].amount else 0.0
  {
    var front, rs' := rs[..|rs| - 1], rs[k := rs[k].(released := true)];
    if k < |rs| - 1 {
      OutstandingAfterRelease(front, k, userID);
      assert rs'[..|rs| - 1] == front[k := rs[k].(released := true)];
    } else {
      assert rs'[..|rs| - 1] == front;
    }
  }

  lemma OutstandingAfterCommit(rs: seq<Reservation>, r: Reservation, userID: string)
    ensures Outstanding(rs + [r], userID) == Outstanding(rs, userID) + if Live(r, userID) then r.amount else 0.0
    ensures AnyLive(rs + [r], userID) <==> AnyLive(rs, userID) || Live(r, userID)
  {
    assert (rs + [r])[..|rs|] == rs;
    if AnyLive(rs, userID) {
      var i :| 0 <= i < |rs| && Live(rs[i], userID);
      assert Live((rs + [r])[i], userID);
    }
    assert (rs + [r])[|rs|] == r;
  }

  /** The map entry of a user is the sum of the user's outstanding reservations, and there is an entry iff there is one. */
  ghost predicate ExactFor(pending: map<string, real>, rs: seq<Reservation>, userID: string) {
    && (userID in pending <==> AnyLive(rs, userID))
    && PendingOf(pending, userID) == Outstanding(rs, userID)
  }

  ghost predicate BudgetInvariant(w: World) {
    && Nonnegative(w.books.costs)
    && AllAtLeast(w.reservations)
    && (forall i :: 0 <= i < |w.deploys| ==> w.deploys[i].request.reserve >= Reserve.LEAST_RESERVE)
    && forall u: string :: ExactFor(w.guard.pending, w.reservations, u)
  }

  lemma CommitKeepsExact(
    pending: map<string, real>, rs: seq<Reservation>, snapshot: BillingSnapshot, reserve: real, userID: string)
    requires ExactFor(pending, rs, userID)
    requires Judge(pending, snapshot, reserve) == Reserved
    ensures ExactFor(PendingAfter(pending, snapshot, reserve), rs + [Reservation(snapshot.userID, reserve, false)], userID)
  {
    OutstandingAfterCommit(rs, Reservation(snapshot.userID, reserve, false), userID);
  }

  /** Where the least reserve meets the cut-off: what is left after a release is nothing, or well above it. */
  lemma ReleaseKeepsExact(pending: map<string, real>, rs: seq<Reservation>, k: nat, userID: string)
    requires k < |rs| && !rs[k].released && AllAtLeast(rs)
    requires ExactFor(pending, rs, userID)
    ensures ExactFor(Released(pending, rs[k].userID, rs[k].amount), rs[k := rs[k].(released := true)], userID)
  {
    var rs' := rs[k := rs[k].(released := true)];
    OutstandingAfterRelease(rs, k, userID);
    OutstandingIsZeroOrLarge(rs', userID);
    if rs[k].userID != userID {
      if AnyLive(rs, userID) {
        var i :| 0 <= i < |rs| && Live(rs[i], userID);
        assert Live(rs'[i], userID);
      }
      if AnyLive(rs', userID) {
        var i :| 0 <= i < |rs'| && Live(rs'[i], userID);
        assert Live(rs[i], userID);
      }
    }
  }

  lemma PrepareReadsALargeReserve(w: World, p: Project, requestedType: string, requestedDedicated: bool, at: int)
    requires Nonnegative(w.books.costs) && p.owner in w.books.accounts
    ensures RequestDeploy(w.guard.projects, w.books, p, requestedType, requestedDedicated, at).reserve >= Reserve.LEAST_RESERVE
  {
    SetCostNonnegative(BillableIds(w.guard.projects, p.owner), w.books.costs);
    var requested := Reserve.NormalizedServiceType(requestedType);
    Reserve.ReserveBounds(
      if requested == "" then Reserve.NormalizedServiceType(p.serviceType) else requested,
      p.dedicatedLoadBalancer || requestedDedicated, Spent(w.guard.projects, w.books.costs, p.owner),
      p.replicaCount, p.resourceProfile);
  }

  lemma CommitKeepsBudget(w: World, d: nat, at: int, terms: Terms)
    requires BudgetInvariant(w)
    ensures BudgetInvariant(Apply(w, CommitDeploy(d, at), terms))
  {
    var w' := Apply(w, CommitDeploy(d, at), terms);
    if d < |w.deploys| && !w.deploys[d].done {
      var DeployRequest(snapshot, reserve, stamp) := w.deploys[d].request;
      forall u: string
        ensures ExactFor(w'.guard.pending, w'.reservations, u)
      {
        assert ExactFor(w.guard.pending, w.reservations, u);
        if Judge(w.guard.pending, snapshot, reserve) == Reserved {
          CommitKeepsExact(w.guard.pending, w.reservations, snapshot, reserve, u);
        }
      }
    }
  }

  lemma ReleaseKeepsBudget(w: World, r: nat, terms: Terms)
    requires BudgetInvariant(w)
    ensures BudgetInvariant(Apply(w, ReleaseDeploy(r), terms))
  {
    var w' := Apply(w, ReleaseDeploy(r), terms);
    if r < |w.reservations| && !w.reservations[r].released {
      forall u: string
        ensures ExactFor(w'.guard.pending, w'.reservations, u)
      {
        assert ExactFor(w.guard.pending, w.reservations, u);
        ReleaseKeepsExact(w.guard.pending, w.reservations, r, u);
      }
    }
  }

  lemma PrepareKeepsBudget(w: World, p: Project, requestedType: string, requestedDedicated: bool, at: int, terms: Terms)
    requires BudgetInvariant(w)
    ensures BudgetInvariant(Apply(w, PrepareDeploy(p, requestedType, requestedDedicated, at), terms))
  {
    if p.owner in w.books.accounts {
      PrepareReadsALargeReserve(w, p, requestedType, requestedDedicated, at);
      OpenDeployKeepsBudget(w, RequestDeploy(w.guard.projects, w.books, p, requestedType, requestedDedicated, at), at);
    }
  }

  lemma OpenDeployKeepsBudget(w: World, request: DeployRequest, at: int)
    requires BudgetInvariant(w) && request.reserve >= Reserve.LEAST_RESERVE
    ensures BudgetInvariant(w.(deploys := w.deploys + [OpenDeploy(request, false)], now := at))
  {
    var w' := w.(deploys := w.deploys + [OpenDeploy(request, false)], now := at);
    SameExactness(w, w');
  }

  lemma SameExactness(w: World, w': World)
    requires w'.guard.pending == w.guard.pending && w'.reservations == w.reservations
    requires forall u: string :: ExactFor(w.guard.pending, w.reservations, u)
    ensures forall u: string :: ExactFor(w'.guard.pending, w'.reservations, u)
  {
  }

  predicate TouchesReservations(step: Step) {
    step.PrepareDeploy? || step.CommitDeploy? || step.ReleaseDeploy?
  }

  predicate SameReservations(w: World, w': World) {
    w'.guard.pending == w.guard.pending && w'.reservations == w.reservations && w'.deploys == w.deploys
  }

  lemma OtherStepsKeepReservations(w: World, step: Step, terms: Terms)
    requires Legal(w, step) && !TouchesReservations(step) && Nonnegative(w.books.costs)
    ensures SameReservations(w, Apply(w, step, terms)) && Nonnegative(Apply(w, step, terms).books.costs)
  {
  }

  lemma SameReservationsKeepBudget(w: World, w': World)
    requires BudgetInvariant(w) && SameReservations(w, w') && Nonnegative(w'.books.costs)
    ensures BudgetInvariant(w')
  {
    SameExactness(w, w');
  }

  lemma StepKeepsBudget(w: World, step: Step, terms: Terms)
    requires Legal(w, step) && BudgetInvariant(w)
    ensures BudgetInvariant(Apply(w, step, terms))
  {
    match step
    case PrepareDeploy(p, requestedType, requestedDedicated, at) =>
      PrepareKeepsBudget(w, p, requestedType, requestedDedicated, at, terms);
    case CommitDeploy(d, at) => CommitKeepsBudget(w, d, at, terms);
    case ReleaseDeploy(r) => ReleaseKeepsBudget(w, r, terms);
    case _ =>
      OtherStepsKeepReservations(w, step, terms);
      SameReservationsKeepBudget(w, Apply(w, step, terms));
  }

  /** In every interleaving, at every moment, for every user. */
  lemma {:induction false} PendingIsAlwaysExact(ws: seq<World>, steps: seq<Step>, terms: Terms, i: nat)
    requires Run(ws, steps, terms) && i < |ws|
    ensures BudgetInvariant(ws[i])
    ensures forall u: string :: ExactFor(ws[i].guard.pending, ws[i].reservations, u)
  {
    if i > 0 {
      PendingIsAlwaysExact(ws, steps, terms, i - 1);
      assert Follows(ws, steps, terms, i - 1);
      StepKeepsBudget(ws[i - 1], steps[i - 1], terms);
    }
  }

  /** A reservation followed by its release restores the map exactly when no entry was within the cut-off. */
  lemma ReserveThenReleaseRestores(pending: map<string, real>, snapshot: BillingSnapshot, reserve: real)
    requires Judge(pending, snapshot, reserve) == Reserved
    ensures var u := snapshot.userID;
      Released(PendingAfter(pending, snapshot, reserve), u, reserve) == pending
      <==> (u in pending ==> pending[u] > CUT_OFF)
  {
    var u := snapshot.userID;
    var after := Released(PendingAfter(pending, snapshot, reserve), u, reserve);
    if u in pending && pending[u] <= CUT_OFF {
      assert u !in after;
    } else {
      assert after == pending;
    }
  }

  /** So in a run it always restores the map. */
  lemma ReserveThenReleaseInARun(ws: seq<World>, steps: seq<Step>, terms: Terms, i: nat, snapshot: BillingSnapshot, reserve: real)
    requires Run(ws, steps, terms) && i < |ws|
    requires Judge(ws[i].guard.pending, snapshot, reserve) == Reserved
    ensures Released(PendingAfter(ws[i].guard.pending, snapshot, reserve), snapshot.userID, reserve) == ws[i].guard.pending
  {
    PendingIsAlwaysExact(ws, steps, terms, i);
    assert ExactFor(ws[i].guard.pending, ws[i].reservations, snapshot.userID);
    OutstandingIsZeroOrLarge(ws[i].reservations, snapshot.userID);
    ReserveThenReleaseRestores(ws[i].guard.pending, snapshot, reserve);
  }

  // ---------------------------------------------------------------- no overcommit

  /** A granted reservation fits in the funds its request has read, together with everything else outstanding. */
  lemma CommitFitsFundsRead(w: World, d: nat, at: int, terms: Terms)
    requires BudgetInvariant(w) && d < |w.deploys| && !w.deploys[d].done
    requires var request := w.deploys[d].request; Judge(w.guard.pending, request.snapshot, request.reserve) == Reserved
    ensures Outstanding(Apply(w, CommitDeploy(d, at), terms).reservations, w.deploys[d].request.snapshot.userID)
         <= w.deploys[d].request.snapshot.Funds()
  {
    var DeployRequest(snapshot, reserve, stamp) := w.deploys[d].request;
    var hold := Reservation(snapshot.userID, reserve, false);
    assert Apply(w, CommitDeploy(d, at), terms).reservations == w.reservations + [hold];
    assert PendingOf(w.guard.pending, snapshot.userID) == Outstanding(w.reservations, snapshot.userID) by {
      assert ExactFor(w.guard.pending, w.reservations, snapshot.userID);
    }
    OutstandingAfterCommit(w.reservations, Reservation(snapshot.userID, reserve, false), snapshot.userID);
  }

  ghost function Funds(w: World, userID: string): real
    requires userID in w.books.accounts
  {
    TakeSnapshot(w.guard.projects, w.books, userID).Funds()
  }

  ghost predicate DeployOpen(w: World, userID: string, d: int) {
    0 <= d < |w.deploys| && !w.deploys[d].done && w.deploys[d].request.snapshot.userID == userID
  }

  /** Something was read or promised on the user's behalf and is not settled. */
  ghost predicate Busy(w: World, userID: string) {
    AnyLive(w.reservations, userID) || exists d :: DeployOpen(w, userID, d)
  }

  /** The user's funds do not fall while something is open. */
  ghost predicate FundsHold(ws: seq<World>, userID: string) {
    && (forall i :: 0 <= i < |ws| ==> userID in ws[i].books.accounts)
    && forall i :: 0 <= i < |ws| - 1 && Busy(ws[i], userID) ==> Funds(ws[i], userID) <= Funds(ws[i + 1], userID)
  }

  ghost predicate Covered(w: World, userID: string)
    requires userID in w.books.accounts
  {
    && (AnyLive(w.reservations, userID) ==> Outstanding(w.reservations, userID) <= Funds(w, userID))
    && forall d :: DeployOpen(w, userID, d) ==> w.deploys[d].request.snapshot.Funds() <= Funds(w, userID)
  }

  lemma CommitKeepsCovered(w: World, d: nat, at: int, terms: Terms, userID: string)
    requires BudgetInvariant(w) && userID in w.books.accounts && Covered(w, userID)
    ensures Covered(Apply(w, CommitDeploy(d, at), terms), userID)
  {
    var w' := Apply(w, CommitDeploy(d, at), terms);
    assert forall e :: DeployOpen(w', userID, e) ==> DeployOpen(w, userID, e);
    if d < |w.deploys| && !w.deploys[d].done {
      var DeployRequest(snapshot, reserve, stamp) := w.deploys[d].request;
      if Judge(w.guard.pending, snapshot, reserve) == Reserved {
        CommitFitsFundsRead(w, d, at, terms);
        assert snapshot.userID == userID ==> DeployOpen(w, userID, d);
        OutstandingAfterCommit(w.reservations, Reservation(snapshot.userID, reserve, false), userID);
      }
    }
  }

  lemma ReleaseKeepsCovered(w: World, r: nat, terms: Terms, userID: string)
    requires BudgetInvariant(w) && userID in w.books.accounts && Covered(w, userID)
    ensures Covered(Apply(w, ReleaseDeploy(r), terms), userID)
  {
    var w' := Apply(w, ReleaseDeploy(r), terms);
    assert forall e :: DeployOpen(w', userID, e) ==> DeployOpen(w, userID, e);
    if r < |w.reservations| && !w.reservations[r].released {
      OutstandingAfterRelease(w.reservations, r, userID);
      if AnyLive(w'.reservations, userID) {
        var i :| 0 <= i < |w'.reservations| && Live(w'.reservations[i], userID);
        assert Live(w.reservations[i], userID);
      }
    }
  }

  lemma PrepareKeepsCovered(w: World, p: Project, requestedType: string, requestedDedicated: bool, at: int, terms: Terms, userID: string)
    requires userID in w.books.accounts && Covered(w, userID)
    ensures Covered(Apply(w, PrepareDeploy(p, requestedType, requestedDedicated, at), terms), userID)
  {
    if p.owner in w.books.accounts {
      OpenDeployKeepsCovered(w, RequestDeploy(w.guard.projects, w.books, p, requestedType, requestedDedicated, at), at, userID);
    }
  }

  lemma OpenDeployKeepsCovered(w: World, request: DeployRequest, at: int, userID: string)
    requires userID in w.books.accounts && Covered(w, userID)
    requires request.snapshot.userID == userID ==> request.snapshot.Funds() <= Funds(w, userID)
    ensures Covered(w.(deploys := w.deploys + [OpenDeploy(request, false)], now := at), userID)
  {
    var w' := w.(deploys := w.deploys + [OpenDeploy(request, false)], now := at);
    assert forall e :: DeployOpen(w', userID, e) && e < |w.deploys| ==> DeployOpen(w, userID, e);
  }

  lemma SameReservationsKeepCovered(w: World, w': World, userID: string)
    requires userID in w.books.accounts && userID in w'.books.accounts && Covered(w, userID) && SameReservations(w, w')
    requires Busy(w, userID) ==> Funds(w, userID) <= Funds(w', userID)
    ensures Covered(w', userID)
  {
    assert forall e :: DeployOpen(w', userID, e) ==> DeployOpen(w, userID, e);
  }

  lemma StepKeepsCovered(w: World, step: Step, terms: Terms, userID: string)
    requires Legal(w, step) && BudgetInvariant(w)
    requires userID in w.books.accounts && userID in Apply(w, step, terms).books.accounts
    requires Covered(w, userID)
    requires Busy(w, userID) ==> Funds(w, userID) <= Funds(Apply(w, step, terms), userID)
    ensures Covered(Apply(w, step, terms), userID)
  {
    match step
    case PrepareDeploy(p, requestedType, requestedDedicated, at) =>
      PrepareKeepsCovered(w, p, requestedType, requestedDedicated, at, terms, userID);
    case CommitDeploy(d, at) => CommitKeepsCovered(w, d, at, terms, userID);
    case ReleaseDeploy(r) => ReleaseKeepsCovered(w, r, terms, userID);
    case _ =>
      OtherStepsKeepReservations(w, step, terms);
      SameReservationsKeepCovered(w, Apply(w, step, terms), userID);
  }

  /** The balance is read outside the lock, and still outstanding reservations never exceed what the user has. */
  lemma {:induction false} NoOvercommit(ws: seq<World>, steps: seq<Step>, terms: Terms, userID: string, i: nat)
    requires Run(ws, steps, terms) && FundsHold(ws, userID) && i < |ws|
    ensures Covered(ws[i], userID)
    ensures AnyLive(ws[i].reservations, userID) ==> Outstanding(ws[i].reservations, userID) <= Funds(ws[i], userID)
  {
    if i > 0 {
      NoOvercommit(ws, steps, terms, userID, i - 1);
      PendingIsAlwaysExact(ws, steps, terms, i - 1);
      assert Follows(ws, steps, terms, i - 1);
      StepKeepsCovered(ws[i - 1], steps[i - 1], terms, userID);
    }
  }
}
