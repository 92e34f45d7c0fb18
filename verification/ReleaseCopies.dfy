/**
 A stage of a sync whose copy of the placeholder may have been overtaken: while the sync waited for GitHub a webhook or
 another sync has bound a run to the stored record. The code writes its copy back all the same.
 */
module ReleaseCopies {
  import opened Wrappers
  import opened Releases
  import opened ReleaseRuns
  import opened ReleaseEffects

  /** The run would be bound by a sync, and no release carries it yet. */
  ghost predicate IsNew(releases: map<string, Release>, run: WorkflowRun) {
    StatusOf(run).Some? && FindRun(releases, run.id).None?
  }

  /** The index of the first new run: it takes the placeholder. */
  ghost function FirstNew(releases: map<string, Release>, runs: seq<WorkflowRun>): (k: nat)
    ensures k <= |runs|
    ensures k < |runs| ==> IsNew(releases, runs[k])
    ensures forall i :: 0 <= i < k ==> !IsNew(releases, runs[i])
  {
    if runs == [] || IsNew(releases, runs[0]) then 0 else 1 + FirstNew(releases, runs[1..])
  }

  /** The run that the stored record carries by now. */
  function Carried(s: Records, pending: Option<Release>): int {
    if pending.Some? && pending.value.id in s.releases then s.releases[pending.value.id].runID else UNBOUND
  }

  /** The copy has been overtaken, and the stage is handed a new run: the copy is written over the run that was bound. */
  ghost predicate Overtaken(s: Records, pending: Option<Release>, runs: seq<WorkflowRun>) {
    Carried(s, pending) != UNBOUND && FirstNew(s.releases, runs) < |runs|
  }

  /** The run is lost: its binding is written over and the stage is not handed it again afterwards. */
  ghost predicate Lost(s: Records, pending: Option<Release>, runs: seq<WorkflowRun>, runID: int) {
    && Overtaken(s, pending, runs) && runID == Carried(s, pending)
    && MappedIn(runs[FirstNew(s.releases, runs) + 1..], runID).None?
  }

  ghost function StageAt(s: Records, pending: Option<Release>, projectID: string, slug: string, runs: seq<WorkflowRun>, supply: Supply): Records {
    SyncRuns(Progress(s, pending), projectID, slug, runs, supply).records
  }

  // ---------------------------------------------------------------- the runs before and after the claim

  lemma {:induction false} RunsSplit(at: Progress, projectID: string, slug: string, a: seq<WorkflowRun>, b: seq<WorkflowRun>, supply: Supply)
    ensures SyncRuns(at, projectID, slug, a + b, supply) == SyncRuns(SyncRuns(at, projectID, slug, a, supply), projectID, slug, b, supply)
  {
    if b == [] {
      assert a + b == a;
    } else {
      RunsSplit(at, projectID, slug, a, b[..|b| - 1], supply);
      assert (a + b)[..|a + b| - 1] == a + b[..|b| - 1];
    }
  }

  lemma {:induction false} MappedSplits(a: seq<WorkflowRun>, b: seq<WorkflowRun>, y: int)
    ensures MappedIn(a + b, y) == if MappedIn(b, y).Some? then MappedIn(b, y) else MappedIn(a, y)
  {
    if b == [] {
      assert a + b == a;
    } else {
      MappedSplits(a, b[..|b| - 1], y);
      assert (a + b)[..|a + b| - 1] == a + b[..|b| - 1];
    }
  }

  lemma MappedInOne(run: WorkflowRun, y: int)
    ensures MappedIn([run], y) == if run.id == y then StatusOf(run) else None
  {
    assert [run][..0] == [];
  }

  lemma KnownRunKeepsPending(s: Records, pending: Option<Release>, projectID: string, slug: string, run: WorkflowRun, supply: Supply)
    requires !IsNew(s.releases, run)
    ensures SyncRun(Progress(s, pending), projectID, slug, run, supply)
         == Progress(SyncRun(Progress(s, None), projectID, slug, run, supply).records, pending)
  {
  }

  lemma KnownStaysKnown(s: Records, s': Records, runs: seq<WorkflowRun>, run: WorkflowRun)
    requires !IsNew(s.releases, run) && run.id != UNBOUND && StageProcessed(s, s', None, None, runs)
    ensures !IsNew(s'.releases, run)
  {
    assert StatusOf(run).Some? ==> StatusOfRun(s.releases, run.id).Some?;
    assert StatusOf(run).Some? ==> StatusOfRun(s'.releases, run.id).Some?;
  }

  /** As long as no run is new the placeholder plays no part. */
  lemma {:induction false} KnownRunsKeepPending(
    s: Records, pending: Option<Release>, projectID: string, slug: string, runs: seq<WorkflowRun>, supply: Supply)
    requires Sound(s) && SupplyFits(s, projectID, supply) && BoundRuns(runs)
    requires forall i :: 0 <= i < |runs| ==> !IsNew(s.releases, runs[i])
    ensures SyncRuns(Progress(s, pending), projectID, slug, runs, supply)
         == Progress(StageAt(s, None, projectID, slug, runs, supply), pending)
    ensures SyncRuns(Progress(s, None), projectID, slug, runs, supply).pending == None
  {
    if runs != [] {
      var front, last := runs[..|runs| - 1], runs[|runs| - 1];
      assert forall i :: 0 <= i < |front| ==> front[i] == runs[i];
      KnownRunsKeepPending(s, pending, projectID, slug, front, supply);
      StageRuns(Progress(s, None), projectID, slug, front, supply);
      var mid := StageAt(s, None, projectID, slug, front, supply);
      KnownStaysKnown(s, mid, front, last);
      KnownRunKeepsPending(mid, pending, projectID, slug, last, supply);
    }
  }

  lemma {:induction false} KnownRunsSayNothing(releases: map<string, Release>, front: seq<WorkflowRun>, y: int)
    requires FindRun(releases, y).None? && forall i :: 0 <= i < |front| ==> !IsNew(releases, front[i])
    ensures MappedIn(front, y).None?
  {
    if front != [] {
      assert forall i :: 0 <= i < |front| - 1 ==> front[..|front| - 1][i] == front[i];
      KnownRunsSayNothing(releases, front[..|front| - 1], y);
    }
  }

  /** A run that is new, with only known runs before it, is new still when its turn comes. */
  lemma NewStaysNew(s: Records, s': Records, front: seq<WorkflowRun>, run: WorkflowRun)
    requires IsNew(s.releases, run) && run.id != UNBOUND && StageProcessed(s, s', None, None, front)
    requires forall i :: 0 <= i < |front| ==> !IsNew(s.releases, front[i])
    ensures IsNew(s'.releases, run) && MappedIn(front, run.id).None?
  {
    KnownRunsSayNothing(s.releases, front, run.id);
    assert StatusOfRun(s'.releases, run.id) == StatusOfRun(s.releases, run.id);
    var found := FindRun(s'.releases, run.id);
  }

  // ---------------------------------------------------------------- the claim

  /** Every other release stays with its run. */
  ghost predicate PersistsBut(s: Records, s': Records, id: string) {
    forall other :: other in s.releases && other != id && s.releases[other].runID != UNBOUND ==>
      other in s'.releases && s'.releases[other].runID == s.releases[other].runID
  }

  lemma StatusOfBound(releases: map<string, Release>, id: string)
    requires UniqueRuns(releases) && id in releases && releases[id].runID != UNBOUND
    ensures StatusOfRun(releases, releases[id].runID) == Some(releases[id].status)
  {
    var found := FindRun(releases, releases[id].runID);
  }

  lemma StatusOfUnbound(releases: map<string, Release>, y: int)
    requires forall id :: id in releases ==> releases[id].runID != y
    ensures StatusOfRun(releases, y) == None
  {
  }

  /** One overwriting write, run by run. */
  lemma OverwriteStatus(s: Records, r: Release, y: int)
    requires Sound(s) && Sound(Stored(s, r)) && r.id in s.releases && s.releases[r.id].runID != UNBOUND
    requires r.runID != UNBOUND && FindRun(s.releases, r.runID).None? && y != UNBOUND
    ensures StatusOfRun(Stored(s, r).releases, y)
         == if y == r.runID then Some(r.status) else if y == s.releases[r.id].runID then None else StatusOfRun(s.releases, y)
  {
    var releases' := Stored(s, r).releases;
    if y == r.runID {
      StatusOfBound(releases', r.id);
    } else if y == s.releases[r.id].runID {
      StatusOfUnbound(releases', y);
    } else if FindRun(s.releases, y).Some? {
      var id := FindRun(s.releases, y).value;
      assert releases'[id] == s.releases[id];
      StatusOfBound(releases', id);
      StatusOfBound(s.releases, id);
    } else {
      StatusOfUnbound(releases', y);
    }
  }

  /** The new run takes the record, over the run that the record carried. */
  ghost predicate Overwritten(s: Records, s': Records, id: string, run: WorkflowRun)
    requires id in s.releases
  {
    && Sound(s') && id in s'.releases && s'.releases[id].runID == run.id && PersistsBut(s, s', id)
    && |s'.releases| == |s.releases|
    && forall y: int :: y != UNBOUND ==>
         StatusOfRun(s'.releases, y)
           == if y == run.id then StatusOf(run) else if y == s.releases[id].runID then None else StatusOfRun(s.releases, y)
  }

  lemma ClaimOverwrites(s: Records, copy: Release, projectID: string, slug: string, run: WorkflowRun, supply: Supply) returns (claimed: Records)
    requires Sound(s) && SupplyFits(s, projectID, supply) && IsNew(s.releases, run) && run.id != UNBOUND
    requires copy.id in s.releases && s.releases[copy.id].runID != UNBOUND && Spared(supply, Some(copy))
    ensures SyncRun(Progress(s, Some(copy)), projectID, slug, run, supply) == Progress(claimed, None)
    ensures Overwritten(s, claimed, copy.id, run) && SupplyFits(claimed, projectID, supply)
  {
    var r := Claimed(copy, run, StatusOf(run).value, supply.now);
    claimed := Stored(s, r);
    OverwriteKeepsSound(s, r);
    OverwriteKeepsSupply(s, r, projectID, supply);
    SizeAfterWrite(s.releases, r);
    forall y: int | y != UNBOUND
      ensures StatusOfRun(claimed.releases, y)
           == if y == run.id then StatusOf(run) else if y == s.releases[copy.id].runID then None else StatusOfRun(s.releases, y)
    {
      OverwriteStatus(s, r, y);
    }
  }

  // ---------------------------------------------------------------- a stage with an overtaken copy

  /** What such a stage does: the first new run takes the record, and what was bound there is only bound again if it comes later. */
  ghost predicate OvertakenProcessed(s: Records, s': Records, copy: Release, runs: seq<WorkflowRun>)
    requires copy.id in s.releases
  {
    var k := FirstNew(s.releases, runs);
    && k < |runs| && Sound(s')
    && copy.id in s'.releases && s'.releases[copy.id].runID == runs[k].id && PersistsBut(s, s', copy.id)
    && forall y: int :: y != UNBOUND ==>
         StatusOfRun(s'.releases, y)
           == if y == s.releases[copy.id].runID then MappedIn(runs[k + 1..], y)
              else if MappedIn(runs, y).Some? then MappedIn(runs, y) else StatusOfRun(s.releases, y)
  }

  lemma StatusesChain(s: Records, mid: Records, claimed: Records, s': Records, id: string, runs: seq<WorkflowRun>, k: nat, y: int)
    requires k < |runs| && IsNew(s.releases, runs[k]) && MappedIn(runs[..k], runs[k].id).None? && y != UNBOUND
    requires id in s.releases && id in mid.releases && mid.releases[id].runID == s.releases[id].runID != runs[k].id
    requires StatusOfRun(mid.releases, y) == if MappedIn(runs[..k], y).Some? then MappedIn(runs[..k], y) else StatusOfRun(s.releases, y)
    requires StatusOfRun(claimed.releases, y)
          == if y == runs[k].id then StatusOf(runs[k]) else if y == mid.releases[id].runID then None else StatusOfRun(mid.releases, y)
    requires StatusOfRun(s'.releases, y)
          == if MappedIn(runs[k + 1..], y).Some? then MappedIn(runs[k + 1..], y) else StatusOfRun(claimed.releases, y)
    ensures StatusOfRun(s'.releases, y)
         == if y == s.releases[id].runID then MappedIn(runs[k + 1..], y)
            else if MappedIn(runs, y).Some? then MappedIn(runs, y) else StatusOfRun(s.releases, y)
  {
    var front, rest := runs[..k], runs[k + 1..];
    assert runs == front + [runs[k]] + rest;
    MappedSplits(front + [runs[k]], rest, y);
    MappedSplits(front, [runs[k]], y);
    MappedInOne(runs[k], y);
  }

  /** The known runs before the first new one leave everybody where they are. */
  lemma BeforeTheClaim(s: Records, copy: Release, projectID: string, slug: string, runs: seq<WorkflowRun>, supply: Supply) returns (mid: Records)
    requires Sound(s) && SupplyFits(s, projectID, supply) && BoundRuns(runs) && FirstNew(s.releases, runs) < |runs|
    requires copy.id in s.releases && s.releases[copy.id].runID != UNBOUND
    ensures var k := FirstNew(s.releases, runs);
      && SyncRuns(Progress(s, Some(copy)), projectID, slug, runs[..k], supply) == Progress(mid, Some(copy))
      && Sound(mid) && SupplyFits(mid, projectID, supply) && StageProcessed(s, mid, None, None, runs[..k]) && Persists(s, mid)
      && IsNew(mid.releases, runs[k]) && MappedIn(runs[..k], runs[k].id).None?
      && copy.id in mid.releases && mid.releases[copy.id].runID == s.releases[copy.id].runID
  {
    var front, run := runs[..FirstNew(s.releases, runs)], runs[FirstNew(s.releases, runs)];
    mid := StageAt(s, None, projectID, slug, front, supply);
    KnownRunsKeepPending(s, Some(copy), projectID, slug, front, supply);
    StageRuns(Progress(s, None), projectID, slug, front, supply);
    RunsPersist(Progress(s, None), projectID, slug, front, supply);
    NewStaysNew(s, mid, front, run);
    assert Lasting(s.releases[copy.id], mid.releases[copy.id]);
  }

  lemma {:induction false} OneRunAtATime(
    at: Progress, before: Progress, after: Progress, projectID: string, slug: string, runs: seq<WorkflowRun>, k: nat, supply: Supply)
    requires k < |runs| && SyncRuns(at, projectID, slug, runs[..k], supply) == before
    requires SyncRun(before, projectID, slug, runs[k], supply) == after
    ensures SyncRuns(at, projectID, slug, runs, supply) == SyncRuns(after, projectID, slug, runs[k + 1..], supply)
  {
    RunsSplit(at, projectID, slug, runs[..k + 1], runs[k + 1..], supply);
    assert runs[..k + 1] + runs[k + 1..] == runs && runs[..k + 1][..k] == runs[..k];
  }

  /** The claim, and what is left of the stage after it. */
  lemma {:induction false} ClaimAndRest(
    s: Records, copy: Release, mid: Records, projectID: string, slug: string, runs: seq<WorkflowRun>, k: nat, supply: Supply)
    returns (claimed: Records)
    requires k < |runs| && BoundRuns(runs)
    requires SyncRuns(Progress(s, Some(copy)), projectID, slug, runs[..k], supply) == Progress(mid, Some(copy))
    requires Sound(mid) && SupplyFits(mid, projectID, supply) && IsNew(mid.releases, runs[k])
    requires copy.id in mid.releases && mid.releases[copy.id].runID != UNBOUND && Spared(supply, Some(copy))
    ensures Overwritten(mid, claimed, copy.id, runs[k]) && SupplyFits(claimed, projectID, supply)
    ensures StageAt(s, Some(copy), projectID, slug, runs, supply) == StageAt(claimed, None, projectID, slug, runs[k + 1..], supply)
  {
    claimed := ClaimOverwrites(mid, copy, projectID, slug, runs[k], supply);
    OneRunAtATime(Progress(s, Some(copy)), Progress(mid, Some(copy)), Progress(claimed, None), projectID, slug, runs, k, supply);
  }

  lemma KeepsBut(s: Records, mid: Records, claimed: Records, s': Records, id: string)
    requires Persists(s, mid) && PersistsBut(mid, claimed, id) && Persists(claimed, s')
    ensures PersistsBut(s, s', id)
  {
    forall other | other in s.releases && other != id && s.releases[other].runID != UNBOUND
      ensures other in s'.releases && s'.releases[other].runID == s.releases[other].runID
    {
      assert Lasting(s.releases[other], mid.releases[other]);
      assert Lasting(claimed.releases[other], s'.releases[other]);
    }
  }

  /** What the three parts of such a stage come to: the known runs, the claim, and the rest. */
  lemma {:induction false} PartsCompose(s: Records, mid: Records, claimed: Records, s': Records, copy: Release, runs: seq<WorkflowRun>)
    requires Sound(s) && Sound(s') && copy.id in s.releases && copy.id in mid.releases && FirstNew(s.releases, runs) < |runs|
    requires mid.releases[copy.id].runID == s.releases[copy.id].runID
    requires var k := FirstNew(s.releases, runs);
      && StageProcessed(s, mid, None, None, runs[..k]) && Persists(s, mid) && MappedIn(runs[..k], runs[k].id).None?
      && Overwritten(mid, claimed, copy.id, runs[k])
      && StageProcessed(claimed, s', None, None, runs[k + 1..]) && Persists(claimed, s')
    ensures OvertakenProcessed(s, s', copy, runs)
  {
    var k := FirstNew(s.releases, runs);
    KeepsBut(s, mid, claimed, s', copy.id);
    assert Lasting(claimed.releases[copy.id], s'.releases[copy.id]);
    KnownIsNotNew(s.releases, copy.id, runs[k]);
    forall y: int | y != UNBOUND
      ensures StatusOfRun(s'.releases, y)
           == if y == s.releases[copy.id].runID then MappedIn(runs[k + 1..], y)
              else if MappedIn(runs, y).Some? then MappedIn(runs, y) else StatusOfRun(s.releases, y)
    {
      StatusesChain(s, mid, claimed, s', copy.id, runs, k, y);
    }
  }

  lemma {:induction false} OvertakenStage(s: Records, copy: Release, projectID: string, slug: string, runs: seq<WorkflowRun>, supply: Supply)
    requires Sound(s) && SupplyFits(s, projectID, supply) && BoundRuns(runs) && Copied(s, Some(copy)) && Spared(supply, Some(copy))
    requires Overtaken(s, Some(copy), runs)
    ensures OvertakenProcessed(s, StageAt(s, Some(copy), projectID, slug, runs, supply), copy, runs)
  {
    var k := FirstNew(s.releases, runs);
    var mid := BeforeTheClaim(s, copy, projectID, slug, runs, supply);
    var claimed := ClaimAndRest(s, copy, mid, projectID, slug, runs, k, supply);
    StageRuns(Progress(claimed, None), projectID, slug, runs[k + 1..], supply);
    RunsPersist(Progress(claimed, None), projectID, slug, runs[k + 1..], supply);
    var at := SyncRuns(Progress(claimed, None), projectID, slug, runs[k + 1..], supply);
    assert at.pending == None;
    PartsCompose(s, mid, claimed, at.records, copy, runs);
  }

  lemma KnownIsNotNew(releases: map<string, Release>, id: string, run: WorkflowRun)
    requires id in releases && IsNew(releases, run)
    ensures releases[id].runID != run.id
  {
  }

  // ---------------------------------------------------------------- results about one stage

  /** Whose copy is current, or whose stage is handed no new run, is done as with a current copy or with none. */
  lemma UndisturbedStage(s: Records, pending: Option<Release>, projectID: string, slug: string, runs: seq<WorkflowRun>, supply: Supply)
    requires Sound(s) && SupplyFits(s, projectID, supply) && BoundRuns(runs) && Copied(s, pending) && !Overtaken(s, pending, runs)
    ensures var s' := StageAt(s, pending, projectID, slug, runs, supply);
      && Sound(s') && Persists(s, s')
      && forall y: int :: y != UNBOUND ==>
           StatusOfRun(s'.releases, y) == if MappedIn(runs, y).Some? then MappedIn(runs, y) else StatusOfRun(s.releases, y)
  {
    if Carried(s, pending) == UNBOUND {
      StageRuns(Progress(s, pending), projectID, slug, runs, supply);
      RunsPersist(Progress(s, pending), projectID, slug, runs, supply);
    } else {
      KnownRunsKeepPending(s, pending, projectID, slug, runs, supply);
      StageRuns(Progress(s, None), projectID, slug, runs, supply);
      RunsPersist(Progress(s, None), projectID, slug, runs, supply);
    }
  }

  lemma {:induction false} OvertakenStatus(
    s: Records, copy: Release, projectID: string, slug: string, runs: seq<WorkflowRun>, supply: Supply, y: int)
    requires Sound(s) && SupplyFits(s, projectID, supply) && BoundRuns(runs) && Copied(s, Some(copy)) && Spared(supply, Some(copy))
    requires Overtaken(s, Some(copy), runs) && y != UNBOUND
    ensures StatusOfRun(StageAt(s, Some(copy), projectID, slug, runs, supply).releases, y)
         == if y == s.releases[copy.id].runID then MappedIn(runs[FirstNew(s.releases, runs) + 1..], y)
            else if MappedIn(runs, y).Some? then MappedIn(runs, y) else StatusOfRun(s.releases, y)
  {
    OvertakenStage(s, copy, projectID, slug, runs, supply);
  }

  lemma {:induction false} UndisturbedStatus(
    s: Records, pending: Option<Release>, projectID: string, slug: string, runs: seq<WorkflowRun>, supply: Supply, y: int)
    requires Sound(s) && SupplyFits(s, projectID, supply) && BoundRuns(runs) && Copied(s, pending) && !Overtaken(s, pending, runs)
    requires y != UNBOUND
    ensures StatusOfRun(StageAt(s, pending, projectID, slug, runs, supply).releases, y)
         == if MappedIn(runs, y).Some? then MappedIn(runs, y) else StatusOfRun(s.releases, y)
  {
    UndisturbedStage(s, pending, projectID, slug, runs, supply);
  }

  /** The status of every run after one stage of a sync, however old the copy of the placeholder. */
  lemma {:induction false} StageStatuses(
    s: Records, pending: Option<Release>, projectID: string, slug: string, runs: seq<WorkflowRun>, supply: Supply, y: int)
    requires Sound(s) && SupplyFits(s, projectID, supply) && BoundRuns(runs) && Copied(s, pending) && Spared(supply, pending) && y != UNBOUND
    ensures StatusOfRun(StageAt(s, pending, projectID, slug, runs, supply).releases, y)
         == if Overtaken(s, pending, runs) && y == Carried(s, pending) then MappedIn(runs[FirstNew(s.releases, runs) + 1..], y)
            else if MappedIn(runs, y).Some? then MappedIn(runs, y) else StatusOfRun(s.releases, y)
  {
    if Overtaken(s, pending, runs) {
      OvertakenStatus(s, pending.value, projectID, slug, runs, supply, y);
    } else {
      UndisturbedStatus(s, pending, projectID, slug, runs, supply, y);
    }
  }

  /** A stage of a sync moves no run away from a release, exactly unless its copy has been overtaken and it is handed a new run. */
  lemma {:induction false} StagePersistsIff(
    s: Records, pending: Option<Release>, projectID: string, slug: string, runs: seq<WorkflowRun>, supply: Supply)
    requires Sound(s) && SupplyFits(s, projectID, supply) && BoundRuns(runs) && Copied(s, pending) && Spared(supply, pending)
    ensures Persists(s, StageAt(s, pending, projectID, slug, runs, supply)) <==> !Overtaken(s, pending, runs)
  {
    if Overtaken(s, pending, runs) {
      OvertakenStage(s, pending.value, projectID, slug, runs, supply);
      KnownIsNotNew(s.releases, pending.value.id, runs[FirstNew(s.releases, runs)]);
      assert !Lasting(s.releases[pending.value.id], StageAt(s, pending, projectID, slug, runs, supply).releases[pending.value.id]);
    } else {
      UndisturbedStage(s, pending, projectID, slug, runs, supply);
    }
  }

  /** The same for one release. */
  lemma BindingStaysIff(
    s: Records, pending: Option<Release>, projectID: string, slug: string, runs: seq<WorkflowRun>, supply: Supply, id: string)
    requires Sound(s) && SupplyFits(s, projectID, supply) && BoundRuns(runs) && Copied(s, pending) && Spared(supply, pending)
    requires id in s.releases && s.releases[id].runID != UNBOUND
    ensures var s' := StageAt(s, pending, projectID, slug, runs, supply);
      && id in s'.releases
      && (s'.releases[id].runID == s.releases[id].runID <==> !(Overtaken(s, pending, runs) && pending.value.id == id))
  {
    if Overtaken(s, pending, runs) {
      OvertakenStage(s, pending.value, projectID, slug, runs, supply);
      KnownIsNotNew(s.releases, pending.value.id, runs[FirstNew(s.releases, runs)]);
    } else {
      UndisturbedStage(s, pending, projectID, slug, runs, supply);
      assert Lasting(s.releases[id], StageAt(s, pending, projectID, slug, runs, supply).releases[id]);
    }
  }

  lemma BoundIffStatus(s: Records, y: int, status: ReleaseStatus)
    requires Sound(s) && y != UNBOUND
    ensures BoundToOne(s.releases, y, status) <==> StatusOfRun(s.releases, y) == Some(status)
  {
    var found := FindRun(s.releases, y);
    if found.Some? {
      assert s.releases[found.value].runID == y;
    }
  }

  lemma {:induction false} MappedIsTheOne(runs: seq<WorkflowRun>, a: nat)
    requires DistinctRuns(runs) && a < |runs|
    ensures MappedIn(runs, runs[a].id) == StatusOf(runs[a])
  {
    var y := runs[a].id;
    MappedRunsAreListed(runs, y);
    if MappedIn(runs, y).Some? {
      var i :| 0 <= i < |runs| && runs[i].id == y && StatusOf(runs[i]) == MappedIn(runs, y);
      assert i == a;
    }
  }

  /** Whether a run of the list comes up in the rest of it. */
  lemma MappedInRest(runs: seq<WorkflowRun>, k: nat, a: nat)
    requires DistinctRuns(runs) && a < |runs| && k < |runs| && StatusOf(runs[a]).Some?
    ensures MappedIn(runs[k + 1..], runs[a].id) == if k < a then StatusOf(runs[a]) else None
  {
    var rest := runs[k + 1..];
    assert forall i :: 0 <= i < |rest| ==> rest[i] == runs[k + 1 + i];
    if k < a {
      assert rest[a - k - 1] == runs[a];
      MappedIsTheOne(rest, a - k - 1);
    } else {
      MappedRunsAreListed(rest, runs[a].id);
    }
  }

  lemma {:induction false} OvertakenHandedIff(
    s: Records, copy: Release, projectID: string, slug: string, runs: seq<WorkflowRun>, supply: Supply, a: nat)
    requires Sound(s) && SupplyFits(s, projectID, supply) && BoundRuns(runs) && Copied(s, Some(copy)) && Spared(supply, Some(copy))
    requires DistinctRuns(runs) && a < |runs| && StatusOf(runs[a]).Some? && Overtaken(s, Some(copy), runs)
    ensures StatusOfRun(StageAt(s, Some(copy), projectID, slug, runs, supply).releases, runs[a].id) == StatusOf(runs[a])
       <==> !(s.releases[copy.id].runID == runs[a].id && a < FirstNew(s.releases, runs))
  {
    var k := FirstNew(s.releases, runs);
    OvertakenStatus(s, copy, projectID, slug, runs, supply, runs[a].id);
    MappedIsTheOne(runs, a);
    KnownIsNotNew(s.releases, copy.id, runs[k]);
    MappedInRest(runs, k, a);
  }

  lemma {:induction false} HandedStatusIff(
    s: Records, pending: Option<Release>, projectID: string, slug: string, runs: seq<WorkflowRun>, supply: Supply, a: nat)
    requires Sound(s) && SupplyFits(s, projectID, supply) && BoundRuns(runs) && Copied(s, pending) && Spared(supply, pending)
    requires DistinctRuns(runs) && a < |runs| && StatusOf(runs[a]).Some?
    ensures StatusOfRun(StageAt(s, pending, projectID, slug, runs, supply).releases, runs[a].id) == StatusOf(runs[a])
       <==> !(Carried(s, pending) == runs[a].id && a < FirstNew(s.releases, runs) < |runs|)
  {
    if Overtaken(s, pending, runs) {
      OvertakenHandedIff(s, pending.value, projectID, slug, runs, supply, a);
    } else {
      UndisturbedStatus(s, pending, projectID, slug, runs, supply, runs[a].id);
      MappedIsTheOne(runs, a);
    }
  }

  /**
   A stage of a sync binds a run that it is handed to exactly one release, with the run's status, unless the copy has
   been overtaken by that very run, and the first new run comes after it.
   */
  lemma {:induction false} StageBindsIff(
    s: Records, pending: Option<Release>, projectID: string, slug: string, runs: seq<WorkflowRun>, supply: Supply, a: nat)
    requires Sound(s) && SupplyFits(s, projectID, supply) && BoundRuns(runs) && Copied(s, pending) && Spared(supply, pending)
    requires DistinctRuns(runs) && a < |runs| && StatusOf(runs[a]).Some?
    ensures BoundToOne(StageAt(s, pending, projectID, slug, runs, supply).releases, runs[a].id, StatusOf(runs[a]).value)
       <==> !(Carried(s, pending) == runs[a].id && a < FirstNew(s.releases, runs) < |runs|)
  {
    AnyRunsInOrder(Progress(s, pending), projectID, slug, runs, supply);
    BoundIffStatus(StageAt(s, pending, projectID, slug, runs, supply), runs[a].id, StatusOf(runs[a]).value);
    HandedStatusIff(s, pending, projectID, slug, runs, supply, a);
  }

  // ---------------------------------------------------------------- a whole sync

  /** The copies of a sync are in their places, and the releases behind them are different ones. */
  ghost predicate JobsCopied(s: Records, jobs: seq<Job>) {
    && (forall i :: 0 <= i < |jobs| ==> Copied(s, jobs[i].pending) && BoundRuns(jobs[i].runs))
    && forall i, j :: 0 <= i < j < |jobs| && jobs[i].pending.Some? && jobs[j].pending.Some? ==>
         jobs[i].pending.value.id != jobs[j].pending.value.id
  }

  /** No stage with an overtaken copy is handed a new run. */
  ghost predicate NoneOvertaken(s: Records, jobs: seq<Job>) {
    forall i :: 0 <= i < |jobs| ==> !Overtaken(s, jobs[i].pending, jobs[i].runs)
  }

  /** The job without a copy that has been overtaken. */
  function Trimmed(s: Records, job: Job): Job {
    if Carried(s, job.pending) == UNBOUND then job else job.(pending := None)
  }

  function AllTrimmed(s: Records, jobs: seq<Job>): seq<Job> {
    seq(|jobs|, i requires 0 <= i < |jobs| => Trimmed(s, jobs[i]))
  }

  lemma TrimmedJobsFit(s: Records, jobs: seq<Job>)
    requires JobsCopied(s, jobs)
    ensures JobsFit(s, AllTrimmed(s, jobs))
  {
  }

  lemma TrimmedRunsAreTheSame(s: Records, jobs: seq<Job>)
    requires DistinctJobs(jobs)
    ensures DistinctJobs(AllTrimmed(s, jobs))
  {
    var jobs' := AllTrimmed(s, jobs);
    forall i | 0 <= i < |jobs'|
      ensures jobs'[i].runs == jobs[i].runs
    {
    }
  }

  lemma KnownStaysKnownInSync(s: Records, s': Records, jobs: seq<Job>, run: WorkflowRun)
    requires !IsNew(s.releases, run) && run.id != UNBOUND && SyncProcessed(s, s', jobs)
    ensures !IsNew(s'.releases, run)
  {
    assert StatusOf(run).Some? ==> StatusOfRun(s.releases, run.id).Some?;
    assert StatusOf(run).Some? ==> StatusOfRun(s'.releases, run.id).Some?;
  }

  /** The last stage does not miss a copy that has been overtaken. */
  lemma {:induction false} LastJobTrimmed(s: Records, mid: Records, projectID: string, jobs: seq<Job>, supply: Supply)
    requires jobs != [] && JobsCopied(s, jobs) && NoneOvertaken(s, jobs)
    requires Sound(mid) && SupplyFits(mid, projectID, supply) && SyncProcessed(s, mid, AllTrimmed(s, jobs[..|jobs| - 1]))
    ensures var job := jobs[|jobs| - 1]; var job' := Trimmed(s, job);
      StageAt(mid, job.pending, projectID, job.slug, job.runs, supply) == StageAt(mid, job'.pending, projectID, job'.slug, job'.runs, supply)
  {
    var job := jobs[|jobs| - 1];
    if Carried(s, job.pending) != UNBOUND {
      forall i | 0 <= i < |job.runs|
        ensures !IsNew(mid.releases, job.runs[i])
      {
        KnownStaysKnownInSync(s, mid, AllTrimmed(s, jobs[..|jobs| - 1]), job.runs[i]);
      }
      KnownRunsKeepPending(mid, job.pending, projectID, job.slug, job.runs, supply);
    }
  }

  lemma TrimOneMore(s: Records, jobs: seq<Job>)
    requires jobs != []
    ensures AllTrimmed(s, jobs)[..|jobs| - 1] == AllTrimmed(s, jobs[..|jobs| - 1])
    ensures AllTrimmed(s, jobs)[|jobs| - 1] == Trimmed(s, jobs[|jobs| - 1])
  {
  }

  /** Copies that have been overtaken play no part in the stages that are handed no new run. */
  lemma {:induction false} TrimmedSyncIsTheSame(s: Records, projectID: string, jobs: seq<Job>, supply: Supply)
    requires Sound(s) && SupplyFits(s, projectID, supply) && JobsCopied(s, jobs) && NoneOvertaken(s, jobs)
    ensures SyncJobs(s, projectID, jobs, supply) == SyncJobs(s, projectID, AllTrimmed(s, jobs), supply)
  {
    if jobs != [] {
      var front := jobs[..|jobs| - 1];
      assert forall i :: 0 <= i < |front| ==> front[i] == jobs[i];
      TrimmedSyncIsTheSame(s, projectID, front, supply);
      TrimmedJobsFit(s, front);
      SyncAllJobs(s, projectID, AllTrimmed(s, front), supply);
      LastJobTrimmed(s, SyncJobs(s, projectID, front, supply), projectID, jobs, supply);
      TrimOneMore(s, jobs);
    }
  }

  /**
   A sync whose listing may be old binds every run that it is handed to exactly one release with the run's status, and
   moves no run, as long as no stage with an overtaken copy is handed a new run.
   */
  lemma {:induction false} OldListingBindsEveryRun(s: Records, projectID: string, jobs: seq<Job>, supply: Supply, i: nat, a: nat)
    requires Sound(s) && SupplyFits(s, projectID, supply) && JobsCopied(s, jobs) && NoneOvertaken(s, jobs) && DistinctJobs(jobs)
    ensures var s' := SyncJobs(s, projectID, jobs, supply);
      && Persists(s, s')
      && (i < |jobs| && a < |jobs[i].runs| && StatusOf(jobs[i].runs[a]).Some? ==>
            BoundToOne(s'.releases, jobs[i].runs[a].id, StatusOf(jobs[i].runs[a]).value))
  {
    var jobs' := AllTrimmed(s, jobs);
    TrimmedSyncIsTheSame(s, projectID, jobs, supply);
    TrimmedJobsFit(s, jobs);
    TrimmedRunsAreTheSame(s, jobs);
    JobsPersist(s, projectID, jobs', supply);
    SyncBindsEveryRun(s, projectID, jobs', supply);
    if i < |jobs| {
      assert jobs'[i].runs == jobs[i].runs;
    }
  }

  // ---------------------------------------------------------------- how many releases one stage creates

  lemma {:induction false} NewRunsSplit(releases: map<string, Release>, a: seq<WorkflowRun>, b: seq<WorkflowRun>)
    ensures NewRuns(releases, a + b) == NewRuns(releases, a) + NewRuns(releases, b)
  {
    if b == [] {
      assert a + b == a;
    } else {
      NewRunsSplit(releases, a, b[..|b| - 1]);
      assert (a + b)[..|a + b| - 1] == a + b[..|b| - 1];
    }
  }

  lemma {:induction false} KnownRunsAreNotCounted(releases: map<string, Release>, runs: seq<WorkflowRun>)
    requires forall i :: 0 <= i < |runs| ==> !IsNew(releases, runs[i])
    ensures NewRuns(releases, runs) == 0
  {
    if runs != [] {
      assert forall i :: 0 <= i < |runs| - 1 ==> runs[..|runs| - 1][i] == runs[i];
      KnownRunsAreNotCounted(releases, runs[..|runs| - 1]);
    }
  }

  lemma NewRunsFrom(releases: map<string, Release>, runs: seq<WorkflowRun>, k: nat)
    requires k == FirstNew(releases, runs) < |runs|
    ensures NewRuns(releases, runs) == 1 + NewRuns(releases, runs[k + 1..]) && NewRuns(releases, runs[..k]) == 0
  {
    assert runs == runs[..k] + ([runs[k]] + runs[k + 1..]);
    NewRunsSplit(releases, runs[..k], [runs[k]] + runs[k + 1..]);
    NewRunsSplit(releases, [runs[k]], runs[k + 1..]);
    assert [runs[k]][..0] == [] && NewRuns(releases, []) == 0;
    assert forall i :: 0 <= i < k ==> runs[..k][i] == runs[i];
    KnownRunsAreNotCounted(releases, runs[..k]);
  }

  /** Where one run has lost its release that run counts as new, if it comes up. */
  lemma {:induction false} NewRunsWithoutOne(releases: map<string, Release>, releases': map<string, Release>, runs: seq<WorkflowRun>, lost: int)
    requires DistinctRuns(runs) && StatusOfRun(releases, lost).Some? && StatusOfRun(releases', lost).None?
    requires forall i :: 0 <= i < |runs| && runs[i].id != lost ==> StatusOfRun(releases', runs[i].id) == StatusOfRun(releases, runs[i].id)
    ensures NewRuns(releases', runs) == NewRuns(releases, runs) + if MappedIn(runs, lost).Some? then 1 else 0
  {
    if runs != [] {
      var front, last := runs[..|runs| - 1], runs[|runs| - 1];
      assert forall i :: 0 <= i < |front| ==> front[i] == runs[i];
      NewRunsWithoutOne(releases, releases', front, lost);
      if last.id == lost {
        MappedRunsAreListed(front, lost);
      }
    }
  }

  lemma {:induction false} RestIsUntouched(s: Records, mid: Records, claimed: Records, id: string, runs: seq<WorkflowRun>, k: nat)
    requires k < |runs| && DistinctRuns(runs) && BoundRuns(runs) && id in s.releases && id in mid.releases && s.releases[id].runID != UNBOUND
    requires StageProcessed(s, mid, None, None, runs[..k]) && Overwritten(mid, claimed, id, runs[k])
    requires mid.releases[id].runID == s.releases[id].runID && Sound(s) && IsNew(s.releases, runs[k])
    ensures NewRuns(claimed.releases, runs[k + 1..])
         == NewRuns(s.releases, runs[k + 1..]) + if MappedIn(runs[k + 1..], s.releases[id].runID).Some? then 1 else 0
  {
    var rest := runs[k + 1..];
    assert forall i :: 0 <= i < |rest| ==> rest[i] == runs[k + 1 + i];
    StatusOfBound(s.releases, id);
    KnownIsNotNew(s.releases, id, runs[k]);
    forall i | 0 <= i < |rest| && rest[i].id != s.releases[id].runID
      ensures StatusOfRun(claimed.releases, rest[i].id) == StatusOfRun(s.releases, rest[i].id)
    {
      MappedRunsAreListed(runs[..k], rest[i].id);
    }
    NewRunsWithoutOne(s.releases, claimed.releases, rest, s.releases[id].runID);
  }

  lemma {:induction false} GrowthWithoutCopy(s: Records, projectID: string, slug: string, runs: seq<WorkflowRun>, supply: Supply)
    requires Sound(s) && SupplyFits(s, projectID, supply) && BoundRuns(runs) && DistinctRuns(runs)
    ensures |StageAt(s, None, projectID, slug, runs, supply).releases| == |s.releases| + NewRuns(s.releases, runs)
  {
    StageGrowth(Progress(s, None), projectID, slug, runs, supply);
  }

  lemma {:induction false} NoGrowthBeforeTheClaim(
    s: Records, copy: Release, mid: Records, projectID: string, slug: string, runs: seq<WorkflowRun>, k: nat, supply: Supply)
    requires Sound(s) && SupplyFits(s, projectID, supply) && BoundRuns(runs) && DistinctRuns(runs)
    requires k == FirstNew(s.releases, runs) < |runs|
    requires SyncRuns(Progress(s, Some(copy)), projectID, slug, runs[..k], supply) == Progress(mid, Some(copy))
    ensures |mid.releases| == |s.releases|
  {
    KnownRunsKeepPending(s, Some(copy), projectID, slug, runs[..k], supply);
    GrowthWithoutCopy(s, projectID, slug, runs[..k], supply);
    NewRunsFrom(s.releases, runs, k);
  }

  lemma {:induction false} GrowthOfParts(
    s: Records, copy: Release, mid: Records, projectID: string, slug: string, runs: seq<WorkflowRun>, k: nat, supply: Supply)
    requires Sound(s) && BoundRuns(runs) && DistinctRuns(runs) && k < |runs| && IsNew(s.releases, runs[k])
    requires SyncRuns(Progress(s, Some(copy)), projectID, slug, runs[..k], supply) == Progress(mid, Some(copy)) && |mid.releases| == |s.releases|
    requires Sound(mid) && SupplyFits(mid, projectID, supply) && IsNew(mid.releases, runs[k]) && StageProcessed(s, mid, None, None, runs[..k])
    requires copy.id in s.releases && copy.id in mid.releases && mid.releases[copy.id].runID == s.releases[copy.id].runID != UNBOUND
    requires Spared(supply, Some(copy))
    ensures |StageAt(s, Some(copy), projectID, slug, runs, supply).releases| == |s.releases| + NewRuns(s.releases, runs[k + 1..])
      + if MappedIn(runs[k + 1..], s.releases[copy.id].runID).Some? then 1 else 0
  {
    var claimed := ClaimAndRest(s, copy, mid, projectID, slug, runs, k, supply);
    GrowthWithoutCopy(claimed, projectID, slug, runs[k + 1..], supply);
    RestIsUntouched(s, mid, claimed, copy.id, runs, k);
  }

  lemma {:induction false} OvertakenGrowth(s: Records, copy: Release, projectID: string, slug: string, runs: seq<WorkflowRun>, supply: Supply)
    requires Sound(s) && SupplyFits(s, projectID, supply) && BoundRuns(runs) && Copied(s, Some(copy)) && Spared(supply, Some(copy))
    requires Overtaken(s, Some(copy), runs) && DistinctRuns(runs)
    ensures |StageAt(s, Some(copy), projectID, slug, runs, supply).releases| == |s.releases| + NewRuns(s.releases, runs) - 1
      + if MappedIn(runs[FirstNew(s.releases, runs) + 1..], s.releases[copy.id].runID).Some? then 1 else 0
  {
    var k := FirstNew(s.releases, runs);
    var mid := BeforeTheClaim(s, copy, projectID, slug, runs, supply);
    NoGrowthBeforeTheClaim(s, copy, mid, projectID, slug, runs, k, supply);
    GrowthOfParts(s, copy, mid, projectID, slug, runs, k, supply);
    NewRunsFrom(s.releases, runs, k);
  }

  lemma {:induction false} NewRunsIffFirst(releases: map<string, Release>, runs: seq<WorkflowRun>)
    ensures NewRuns(releases, runs) > 0 <==> FirstNew(releases, runs) < |runs|
  {
    if FirstNew(releases, runs) < |runs| {
      NewRunsFrom(releases, runs, FirstNew(releases, runs));
    } else {
      KnownRunsAreNotCounted(releases, runs);
    }
  }

  /**
   How many releases one stage creates: one for each new run, but for the first if there is a placeholder, and one
   more for the run of an overtaken placeholder if it comes up after that.
   */
  lemma {:induction false} StageGrowthExactly(
    s: Records, pending: Option<Release>, projectID: string, slug: string, runs: seq<WorkflowRun>, supply: Supply)
    requires Sound(s) && SupplyFits(s, projectID, supply) && BoundRuns(runs) && Copied(s, pending) && Spared(supply, pending)
    requires DistinctRuns(runs)
    ensures var n := NewRuns(s.releases, runs);
      |StageAt(s, pending, projectID, slug, runs, supply).releases|
        == |s.releases| + n - (if pending.Some? && n > 0 then 1 else 0)
         + if Overtaken(s, pending, runs) && !Lost(s, pending, runs, Carried(s, pending)) then 1 else 0
  {
    NewRunsIffFirst(s.releases, runs);
    if Overtaken(s, pending, runs) {
      OvertakenGrowth(s, pending.value, projectID, slug, runs, supply);
    } else if Carried(s, pending) == UNBOUND {
      StageGrowth(Progress(s, pending), projectID, slug, runs, supply);
    } else {
      KnownRunsKeepPending(s, pending, projectID, slug, runs, supply);
      StageGrowth(Progress(s, None), projectID, slug, runs, supply);
    }
  }
}
