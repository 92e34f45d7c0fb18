/** Enforcing all owners: once each, and with a result that no listing order can change. */
module GuardOrder {
  import opened Sequences
  import opened Projects
  import opened Guard
  import opened GuardRuns

  predicate Counts(p: Project) {
    p.owner != "" && p.status != Deleted
  }

  /** The owners in the order in which EnforceAllBillingGuards meets them. */
  function FirstOwners(listing: seq<Project>): seq<string> {
    if listing == [] then []
    else
      var front, last := FirstOwners(listing[..|listing| - 1]), listing[|listing| - 1];
      if !Counts(last) || last.owner in front then front else front + [last.owner]
  }

  lemma {:induction false} FirstOwnersAreExact(listing: seq<Project>)
    ensures NoDuplicates(FirstOwners(listing))
    ensures forall u :: u in FirstOwners(listing) <==> exists i :: 0 <= i < |listing| && Counts(listing[i]) && listing[i].owner == u
  {
    if listing != [] {
      var front := listing[..|listing| - 1];
      FirstOwnersAreExact(front);
      forall u
        ensures u in FirstOwners(listing) <==> exists i :: 0 <= i < |listing| && Counts(listing[i]) && listing[i].owner == u
      {
        if u in FirstOwners(front) {
          var i :| 0 <= i < |front| && Counts(front[i]) && front[i].owner == u;
          assert Counts(listing[i]) && listing[i].owner == u;
        }
        if i :| 0 <= i < |listing| && Counts(listing[i]) && listing[i].owner == u {
          assert i < |front| ==> Counts(front[i]) && front[i].owner == u;
        }
      }
    }
  }

  function SeenUsers(listing: seq<Project>): set<string> {
    if listing == [] then {}
    else
      var front, last := SeenUsers(listing[..|listing| - 1]), listing[|listing| - 1];
      if Counts(last) then front + {last.owner} else front
  }

  lemma {:induction false} SeenUsersAreFirstOwners(listing: seq<Project>, u: string)
    ensures u in SeenUsers(listing) <==> u in FirstOwners(listing)
  {
    if listing != [] {
      SeenUsersAreFirstOwners(listing[..|listing| - 1], u);
    }
  }

  /** What the loop learns from one more project. */
  lemma OneMoreOwner(listing: seq<Project>, k: nat)
    requires k < |listing|
    ensures var seen, p := SeenUsers(listing[..k]), listing[k];
      && SeenUsers(listing[..k + 1]) == (if !Counts(p) || p.owner in seen then seen else seen + {p.owner})
      && FirstOwners(listing[..k + 1])
           == if !Counts(p) || p.owner in seen then FirstOwners(listing[..k]) else FirstOwners(listing[..k]) + [p.owner]
  {
    assert listing[..k + 1][..k] == listing[..k];
    SeenUsersAreFirstOwners(listing[..k], listing[k].owner);
  }

  ghost predicate OwesAttention(projects: map<string, Project>, userID: string) {
    userID != "" && exists id :: id in projects && projects[id].owner == userID && projects[id].status != Deleted
  }

  /** Each owner of a live project once, nobody else. */
  lemma EachOwnerOnce(projects: map<string, Project>, listing: seq<Project>)
    requires Keyed(projects) && IsListing(listing, projects)
    ensures NoDuplicates(FirstOwners(listing))
    ensures forall u :: u in FirstOwners(listing) <==> OwesAttention(projects, u)
  {
    FirstOwnersAreExact(listing);
    forall u
      ensures u in FirstOwners(listing) <==> OwesAttention(projects, u)
    {
      if u in FirstOwners(listing) {
        var i :| 0 <= i < |listing| && Counts(listing[i]) && listing[i].owner == u;
        assert listing[i] in listing;
      }
      if OwesAttention(projects, u) {
        var id :| id in projects && projects[id].owner == u && projects[id].status != Deleted;
        assert projects[id] in listing;
      }
    }
  }

  /** One enforcement with nothing failing, as SmoothTick shows it to be. */
  ghost function SmoothEnforce(g: GuardState, books: Books, terms: Terms, userID: string, at: int): GuardState {
    var finding := Look(g, books, terms, userID, at);
    g.(projects := TickProjects(finding, terms, userID, at, g.projects),
       grace := match finding
                case Solvent => g.grace - {userID}
                case Unwarned => g.grace[userID := at]
                case _ => g.grace)
  }

  lemma SmoothEnforceIsEnforce(
    g: GuardState, books: Books, terms: Terms, userID: string, at: int, listing: seq<Project>, broken: set<string>)
    requires Keyed(g.projects) && IsListing(listing, g.projects)
    requires Look(g, books, terms, userID, at) == OutOfGrace ==> Workable(g.projects, userID, at, broken)
    ensures Enforce(g, books, terms, userID, at, listing, broken)
         == Enforced(SmoothEnforce(g, books, terms, userID, at), userID in books.accounts)
  {
    SmoothTick(g, books, terms, userID, at, listing, broken);
  }

  /** Each user is enforced at the clock value the run gives that user. */
  ghost function EnforceInTurn(g: GuardState, books: Books, terms: Terms, clock: string -> int, users: seq<string>): GuardState
  {
    if users == [] then g
    else
      var last := users[|users| - 1];
      SmoothEnforce(EnforceInTurn(g, books, terms, clock, users[..|users| - 1]), books, terms, last, clock(last))
  }

  ghost predicate SameGrace(before: map<string, int>, after: map<string, int>, userID: string) {
    (userID in after <==> userID in before) && (userID in before ==> after[userID] == before[userID])
  }

  ghost predicate ProjectSettled(
    g: GuardState, books: Books, terms: Terms, clock: string -> int, users: seq<string>, p: Project, p': Project)
  {
    p' == if p.owner in users
          then TickProject(Look(g, books, terms, p.owner, clock(p.owner)), terms, p.owner, clock(p.owner), p)
          else p
  }

  ghost predicate GraceSettled(
    g: GuardState, books: Books, terms: Terms, clock: string -> int, users: seq<string>, u: string, grace': map<string, int>)
  {
    if u !in users then SameGrace(g.grace, grace', u)
    else match Look(g, books, terms, u, clock(u))
         case Solvent => u !in grace'
         case Unwarned => u in grace' && grace'[u] == clock(u)
         case _ => SameGrace(g.grace, grace', u)
  }

  /** What all passes together make of the state, with no order in it: each user is judged on the state at the start. */
  ghost predicate Settled(
    g: GuardState, books: Books, terms: Terms, clock: string -> int, users: seq<string>, g': GuardState)
  {
    && g'.pending == g.pending
    && g'.projects.Keys == g.projects.Keys
    && (forall id :: id in g.projects ==> ProjectSettled(g, books, terms, clock, users, g.projects[id], g'.projects[id]))
    && (forall u: string :: GraceSettled(g, books, terms, clock, users, u, g'.grace))
  }

  /** Enforcing one user cannot be noticed by another: not in projects, not in money, not in grace. */
  lemma LookIsPrivate(g: GuardState, g': GuardState, books: Books, terms: Terms, userID: string, at: int)
    requires g'.pending == g.pending && SameGrace(g.grace, g'.grace, userID)
    requires g'.projects.Keys == g.projects.Keys
    requires forall id :: id in g.projects ==> g'.projects[id].owner == g.projects[id].owner
    requires forall id :: id in g.projects && g.projects[id].owner == userID ==> g'.projects[id] == g.projects[id]
    ensures Look(g', books, terms, userID, at) == Look(g, books, terms, userID, at)
  {
    assert BillableIds(g'.projects, userID) == BillableIds(g.projects, userID);
  }

  lemma OneMoreSettles(
    g: GuardState, books: Books, terms: Terms, clock: string -> int, users: seq<string>, last: string, mid: GuardState)
    requires last !in users
    requires Settled(g, books, terms, clock, users, mid)
    ensures Settled(g, books, terms, clock, users + [last], SmoothEnforce(mid, books, terms, last, clock(last)))
  {
    var users' := users + [last];
    assert forall u :: u in users' <==> u in users || u == last;
    forall id | id in g.projects
      ensures mid.projects[id].owner == g.projects[id].owner
      ensures g.projects[id].owner == last ==> mid.projects[id] == g.projects[id]
    {
      assert ProjectSettled(g, books, terms, clock, users, g.projects[id], mid.projects[id]);
    }
    assert GraceSettled(g, books, terms, clock, users, last, mid.grace);
    LookIsPrivate(g, mid, books, terms, last, clock(last));
    var g' := SmoothEnforce(mid, books, terms, last, clock(last));
    forall id | id in g.projects
      ensures ProjectSettled(g, books, terms, clock, users', g.projects[id], g'.projects[id])
    {
      assert ProjectSettled(g, books, terms, clock, users, g.projects[id], mid.projects[id]);
    }
    forall u: string
      ensures GraceSettled(g, books, terms, clock, users', u, g'.grace)
    {
      assert GraceSettled(g, books, terms, clock, users, u, mid.grace);
    }
  }

  lemma {:induction false} InTurnSettles(g: GuardState, books: Books, terms: Terms, clock: string -> int, users: seq<string>)
    requires NoDuplicates(users)
    ensures Settled(g, books, terms, clock, users, EnforceInTurn(g, books, terms, clock, users))
  {
    if users != [] {
      var front, last := users[..|users| - 1], users[|users| - 1];
      assert users == front + [last] && last !in front;
      InTurnSettles(g, books, terms, clock, front);
      OneMoreSettles(g, books, terms, clock, front, last, EnforceInTurn(g, books, terms, clock, front));
    }
  }

  lemma SettledIsUnique(
    g: GuardState, books: Books, terms: Terms, clock: string -> int, us: seq<string>, vs: seq<string>, a: GuardState, b: GuardState)
    requires forall u :: u in us <==> u in vs
    requires Settled(g, books, terms, clock, us, a) && Settled(g, books, terms, clock, vs, b)
    ensures a == b
  {
    forall id | id in g.projects
      ensures a.projects[id] == b.projects[id]
    {
      assert ProjectSettled(g, books, terms, clock, us, g.projects[id], a.projects[id]);
      assert ProjectSettled(g, books, terms, clock, vs, g.projects[id], b.projects[id]);
    }
    assert a.projects == b.projects;
    forall u: string
      ensures SameGrace(a.grace, b.grace, u)
    {
      assert GraceSettled(g, books, terms, clock, us, u, a.grace);
      assert GraceSettled(g, books, terms, clock, vs, u, b.grace);
      assert u in us <==> u in vs;
    }
    assert forall u: string :: SameGrace(a.grace, b.grace, u);
    assert forall u :: u in a.grace ==> SameGrace(a.grace, b.grace, u);
    assert forall u :: u in b.grace ==> SameGrace(a.grace, b.grace, u);
    assert a.grace == b.grace;
  }

  /** The final state is the same for every order in which List returns the projects. */
  lemma ListingOrderDoesNotMatter(
    g: GuardState, books: Books, terms: Terms, clock: string -> int, listing: seq<Project>, listing': seq<Project>)
    requires Keyed(g.projects) && IsListing(listing, g.projects) && IsListing(listing', g.projects)
    ensures EnforceInTurn(g, books, terms, clock, FirstOwners(listing))
         == EnforceInTurn(g, books, terms, clock, FirstOwners(listing'))
  {
    EachOwnerOnce(g.projects, listing);
    EachOwnerOnce(g.projects, listing');
    InTurnSettles(g, books, terms, clock, FirstOwners(listing));
    InTurnSettles(g, books, terms, clock, FirstOwners(listing'));
    SettledIsUnique(g, books, terms, clock, FirstOwners(listing), FirstOwners(listing'),
                    EnforceInTurn(g, books, terms, clock, FirstOwners(listing)),
                    EnforceInTurn(g, books, terms, clock, FirstOwners(listing')));
  }

  // ---------------------------------------------------------------- passes that may fail

  /** One owner's turn: the listing its pass saw, the state it left, and whether it went through. */
  datatype Turn = Turn(userID: string, listing: seq<Project>, after: GuardState, ok: bool)

  /** A turn is a pass over the state it finds, with a true listing of it. */
  ghost predicate IsTurn(g: GuardState, books: Books, terms: Terms, clock: string -> int, broken: set<string>, turn: Turn) {
    && IsListing(turn.listing, g.projects)
    && Enforced(turn.after, turn.ok) == Enforce(g, books, terms, turn.userID, clock(turn.userID), turn.listing, broken)
  }

  function StateAfter(g: GuardState, turns: seq<Turn>): GuardState {
    if turns == [] then g else turns[|turns| - 1].after
  }

  /** Each turn starts where the one before it ended. */
  ghost predicate Chained(g: GuardState, books: Books, terms: Terms, clock: string -> int, broken: set<string>, turns: seq<Turn>) {
    turns != [] ==>
      var front := turns[..|turns| - 1];
      Chained(g, books, terms, clock, broken, front) && IsTurn(StateAfter(g, front), books, terms, clock, broken, turns[|turns| - 1])
  }

  function Owners(turns: seq<Turn>): (users: seq<string>)
    ensures |users| == |turns| && forall i :: 0 <= i < |turns| ==> users[i] == turns[i].userID
  {
    if turns == [] then [] else Owners(turns[..|turns| - 1]) + [turns[|turns| - 1].userID]
  }

  lemma SmoothKeepsShape(g: GuardState, books: Books, terms: Terms, userID: string, at: int)
    requires Keyed(g.projects)
    ensures Keyed(SmoothEnforce(g, books, terms, userID, at).projects)
    ensures SmoothEnforce(g, books, terms, userID, at).projects.Keys == g.projects.Keys
  {
  }

  /** When all of them go through, the turns come to the passes in turn, whatever their listings. */
  lemma {:induction false} SmoothTurns(
    g: GuardState, books: Books, terms: Terms, clock: string -> int, broken: set<string>, turns: seq<Turn>)
    requires Keyed(g.projects) && Chained(g, books, terms, clock, broken, turns)
    requires forall i :: 0 <= i < |turns| ==> turns[i].ok
    ensures StateAfter(g, turns) == EnforceInTurn(g, books, terms, clock, Owners(turns))
    ensures Keyed(StateAfter(g, turns).projects) && StateAfter(g, turns).projects.Keys == g.projects.Keys
  {
    if turns != [] {
      var front, last := turns[..|turns| - 1], turns[|turns| - 1];
      assert forall i :: 0 <= i < |front| ==> front[i] == turns[i];
      SmoothTurns(g, books, terms, clock, broken, front);
      InTurnOneMore(g, books, terms, clock, turns);
      SmoothLastTurn(StateAfter(g, front), books, terms, clock, broken, last);
    }
  }

  lemma InTurnOneMore(g: GuardState, books: Books, terms: Terms, clock: string -> int, turns: seq<Turn>)
    requires turns != []
    ensures var front, last := turns[..|turns| - 1], turns[|turns| - 1];
      EnforceInTurn(g, books, terms, clock, Owners(turns))
        == SmoothEnforce(EnforceInTurn(g, books, terms, clock, Owners(front)), books, terms, last.userID, clock(last.userID))
  {
    assert Owners(turns)[..|turns| - 1] == Owners(turns[..|turns| - 1]);
  }

  lemma SmoothLastTurn(g: GuardState, books: Books, terms: Terms, clock: string -> int, broken: set<string>, turn: Turn)
    requires Keyed(g.projects) && IsTurn(g, books, terms, clock, broken, turn) && turn.ok
    ensures turn.after == SmoothEnforce(g, books, terms, turn.userID, clock(turn.userID))
    ensures Keyed(turn.after.projects) && turn.after.projects.Keys == g.projects.Keys
  {
    PassSucceedsIff(g, books, terms, turn.userID, clock(turn.userID), turn.listing, broken);
    SmoothEnforceIsEnforce(g, books, terms, turn.userID, clock(turn.userID), turn.listing, broken);
    SmoothKeepsShape(g, books, terms, turn.userID, clock(turn.userID));
  }

  /** What other users' passes leave of a user's prospects: all of them. */
  lemma ClearIsPrivate(
    g: GuardState, mid: GuardState, books: Books, terms: Terms, clock: string -> int, broken: set<string>, users: seq<string>, u: string)
    requires Settled(g, books, terms, clock, users, mid) && u !in users
    ensures OwnerIsClear(mid, books, terms, u, clock(u), broken) <==> OwnerIsClear(g, books, terms, u, clock(u), broken)
  {
    forall id | id in g.projects
      ensures mid.projects[id].owner == g.projects[id].owner
      ensures g.projects[id].owner == u ==> mid.projects[id] == g.projects[id]
    {
      assert ProjectSettled(g, books, terms, clock, users, g.projects[id], mid.projects[id]);
    }
    assert GraceSettled(g, books, terms, clock, users, u, mid.grace);
    LookIsPrivate(g, mid, books, terms, u, clock(u));
  }

  /** The first turn that fails, or any turn before it, goes as the state at the start says. */
  lemma TurnSucceedsIff(
    g: GuardState, books: Books, terms: Terms, clock: string -> int, broken: set<string>, front: seq<Turn>, turn: Turn)
    requires Keyed(g.projects) && Chained(g, books, terms, clock, broken, front)
    requires IsTurn(StateAfter(g, front), books, terms, clock, broken, turn)
    requires (forall i :: 0 <= i < |front| ==> front[i].ok) && NoDuplicates(Owners(front)) && turn.userID !in Owners(front)
    ensures turn.ok <==> OwnerIsClear(g, books, terms, turn.userID, clock(turn.userID), broken)
  {
    var mid := StateAfter(g, front);
    SmoothTurns(g, books, terms, clock, broken, front);
    InTurnSettles(g, books, terms, clock, Owners(front));
    PassSucceedsIff(mid, books, terms, turn.userID, clock(turn.userID), turn.listing, broken);
    ClearIsPrivate(g, mid, books, terms, clock, broken, Owners(front), turn.userID);
  }

  lemma {:induction false} EveryTurnSucceedsIff(
    g: GuardState, books: Books, terms: Terms, clock: string -> int, broken: set<string>, turns: seq<Turn>)
    requires Keyed(g.projects) && Chained(g, books, terms, clock, broken, turns) && NoDuplicates(Owners(turns))
    requires forall i :: 0 <= i < |turns| - 1 ==> turns[i].ok
    ensures forall i :: 0 <= i < |turns| ==>
      (turns[i].ok <==> OwnerIsClear(g, books, terms, turns[i].userID, clock(turns[i].userID), broken))
  {
    if turns != [] {
      var front, last := turns[..|turns| - 1], turns[|turns| - 1];
      assert forall i :: 0 <= i < |front| ==> front[i] == turns[i];
      assert forall i :: 0 <= i < |front| ==> Owners(front)[i] == Owners(turns)[i];
      EveryTurnSucceedsIff(g, books, terms, clock, broken, front);
      TurnSucceedsIff(g, books, terms, clock, broken, front, last);
    }
  }

  /** All turns but possibly the last went through; the last one did iff `ok`. */
  ghost predicate Taken(
    g: GuardState, books: Books, terms: Terms, clock: string -> int, broken: set<string>, turns: seq<Turn>, now: GuardState, ok: bool)
  {
    && Chained(g, books, terms, clock, broken, turns)
    && now == StateAfter(g, turns)
    && (!ok ==> turns != [])
    && forall i :: 0 <= i < |turns| ==> (turns[i].ok <==> ok || i < |turns| - 1)
  }

  lemma OneMoreTurn(
    g: GuardState, books: Books, terms: Terms, clock: string -> int, broken: set<string>, turns: seq<Turn>, turn: Turn)
    requires Taken(g, books, terms, clock, broken, turns, StateAfter(g, turns), true)
    requires IsTurn(StateAfter(g, turns), books, terms, clock, broken, turn)
    ensures Taken(g, books, terms, clock, broken, turns + [turn], turn.after, turn.ok)
    ensures Owners(turns + [turn]) == Owners(turns) + [turn.userID]
  {
    assert (turns + [turn])[..|turns|] == turns;
  }

  /** What EnforceAllBillingGuards reports about one run of itself. */
  ghost predicate WholePass(
    g: GuardState, books: Books, terms: Terms, clock: string -> int, broken: set<string>,
    listing: seq<Project>, turns: seq<Turn>, now: GuardState, ok: bool)
  {
    && IsListing(listing, g.projects)
    && Owners(turns) <= FirstOwners(listing)
    && (ok ==> Owners(turns) == FirstOwners(listing))
    && Taken(g, books, terms, clock, broken, turns, now, ok)
  }

  /** Nothing stands in the way of any owner's pass, as the state at the start has it. */
  ghost predicate PassIsClear(g: GuardState, books: Books, terms: Terms, clock: string -> int, broken: set<string>) {
    forall u: string :: OwesAttention(g.projects, u) ==> OwnerIsClear(g, books, terms, u, clock(u), broken)
  }

  lemma OwnersOfTurns(projects: map<string, Project>, listing: seq<Project>, turns: seq<Turn>)
    requires Keyed(projects) && IsListing(listing, projects) && Owners(turns) <= FirstOwners(listing)
    ensures NoDuplicates(Owners(turns)) && forall i :: 0 <= i < |turns| ==> OwesAttention(projects, turns[i].userID)
  {
    EachOwnerOnce(projects, listing);
    forall i | 0 <= i < |turns|
      ensures Owners(turns)[i] == FirstOwners(listing)[i] && OwesAttention(projects, turns[i].userID)
    {
      assert turns[i].userID in FirstOwners(listing);
    }
  }

  lemma OwnerHasATurn(projects: map<string, Project>, listing: seq<Project>, turns: seq<Turn>, u: string) returns (i: nat)
    requires Keyed(projects) && IsListing(listing, projects) && Owners(turns) == FirstOwners(listing) && OwesAttention(projects, u)
    ensures i < |turns| && turns[i].userID == u
  {
    EachOwnerOnce(projects, listing);
    i :| 0 <= i < |FirstOwners(listing)| && FirstOwners(listing)[i] == u;
  }

  /**
   A whole pass succeeds exactly if every owner exists and no project is broken that its owner's pass suspends or
   deletes; and then it ends in the state of all passes in turn.
   */
  lemma PassGoesThroughIff(
    g: GuardState, books: Books, terms: Terms, clock: string -> int, broken: set<string>,
    listing: seq<Project>, turns: seq<Turn>, now: GuardState, ok: bool)
    requires Keyed(g.projects) && WholePass(g, books, terms, clock, broken, listing, turns, now, ok)
    ensures ok <==> PassIsClear(g, books, terms, clock, broken)
    ensures ok ==> now == EnforceInTurn(g, books, terms, clock, FirstOwners(listing))
  {
    OwnersOfTurns(g.projects, listing, turns);
    EveryTurnSucceedsIff(g, books, terms, clock, broken, turns);
    if ok {
      SmoothTurns(g, books, terms, clock, broken, turns);
      forall u: string | OwesAttention(g.projects, u)
        ensures OwnerIsClear(g, books, terms, u, clock(u), broken)
      {
        var i := OwnerHasATurn(g.projects, listing, turns, u);
      }
    } else {
      assert !turns[|turns| - 1].ok;
    }
  }

  /** Two runs of EnforceAllBillingGuards on the same state, with any listings, both succeed or both fail, and end alike if they succeed. */
  lemma PassesAgree(
    g: GuardState, books: Books, terms: Terms, clock: string -> int, broken: set<string>,
    listing: seq<Project>, turns: seq<Turn>, now: GuardState, ok: bool,
    listing': seq<Project>, turns': seq<Turn>, now': GuardState, ok': bool)
    requires Keyed(g.projects)
    requires WholePass(g, books, terms, clock, broken, listing, turns, now, ok)
    requires WholePass(g, books, terms, clock, broken, listing', turns', now', ok')
    ensures ok == ok' && (ok ==> now == now')
  {
    PassGoesThroughIff(g, books, terms, clock, broken, listing, turns, now, ok);
    PassGoesThroughIff(g, books, terms, clock, broken, listing', turns', now', ok');
    ListingOrderDoesNotMatter(g, books, terms, clock, listing, listing');
  }

  lemma {:induction false} OwnersArePrefix(listing: seq<Project>, k: nat)
    requires k <= |listing|
    ensures FirstOwners(listing[..k]) <= FirstOwners(listing)
    decreases |listing| - k
  {
    if k < |listing| {
      OwnersArePrefix(listing, k + 1);
      assert listing[..k + 1][..k] == listing[..k];
    } else {
      assert listing[..k] == listing;
    }
  }
}
