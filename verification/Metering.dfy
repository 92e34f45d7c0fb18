/** What metered usage costs, period by period and in the monthly bill. */
module Metering {
  import opened Sequences

  datatype Tariff = Tariff(cpuCoreHour: real, memoryGBHour: real, storageGBMonth: real, egressGB: real, dedicatedLBHour: real)

  datatype Usage = Usage(
    projectID: string,
    periodStart: int,
    periodEnd: int,
    cpuCoreHours: real,
    memoryGBHours: real,
    storageGB: real,
    egressGB: real,
    dedicatedLBHours: real)

  datatype UsageAggregate = UsageAggregate(cpuCoreHours: real, memoryGBHours: real, storageGB: real, egressGB: real, dedicatedLBHours: real)

  /** Duration.Hours of a duration in nanoseconds. */
  function Hours(duration: int): real {
    duration as real / 3600000000000.0
  }

  function Months(duration: int): real {
    Hours(duration) / 720.0
  }

  /** The price of one metered period. */
  function ComputeUsageCost(t: Tariff, u: Usage): real {
    u.cpuCoreHours * t.cpuCoreHour
    + u.memoryGBHours * t.memoryGBHour
    + u.storageGB * t.storageGBMonth * Months(u.periodEnd - u.periodStart)
    + u.egressGB * t.egressGB
    + u.dedicatedLBHours * t.dedicatedLBHour
  }

  function InWindow(projectID: string, from: int, to: int): Usage -> bool {
    (u: Usage) => u.projectID == projectID && from <= u.periodStart && u.periodEnd <= to
  }

  function Max(x: real, y: real): real { if x < y then y else x }

  /** Sums, and for storage the maximum, over a list of records: the SQL aggregate for amounts that are not negative. */
  function Aggregate(rs: seq<Usage>): UsageAggregate {
    if rs == [] then UsageAggregate(0.0, 0.0, 0.0, 0.0, 0.0)
    else
      var a, u := Aggregate(rs[..|rs| - 1]), rs[|rs| - 1];
      UsageAggregate(a.cpuCoreHours + u.cpuCoreHours, a.memoryGBHours + u.memoryGBHours, Max(a.storageGB, u.storageGB),
                     a.egressGB + u.egressGB, a.dedicatedLBHours + u.dedicatedLBHours)
  }

  function SqlAggregate(records: seq<Usage>, projectID: string, from: int, to: int): UsageAggregate {
    Aggregate(Filter(records, InWindow(projectID, from, to)))
  }

  /** The in-memory store leaves the load-balancer hours out. */
  function MemoryAggregate(records: seq<Usage>, projectID: string, from: int, to: int): UsageAggregate {
    SqlAggregate(records, projectID, from, to).(dedicatedLBHours := 0.0)
  }

  /** The total of GetProjectCost. */
  function Bill(t: Tariff, a: UsageAggregate, monthStart: int, now: int): real {
    a.cpuCoreHours * t.cpuCoreHour
    + a.memoryGBHours * t.memoryGBHour
    + a.storageGB * t.storageGBMonth * Months(now - monthStart)
    + a.egressGB * t.egressGB
    + a.dedicatedLBHours * t.dedicatedLBHour
  }

  lemma AggregateOneMore(records: seq<Usage>, i: nat, projectID: string, from: int, to: int)
    requires i < |records|
    ensures var a, u := MemoryAggregate(records[..i], projectID, from, to), records[i];
      MemoryAggregate(records[..i + 1], projectID, from, to)
        == if InWindow(projectID, from, to)(u)
           then UsageAggregate(a.cpuCoreHours + u.cpuCoreHours, a.memoryGBHours + u.memoryGBHours, Max(a.storageGB, u.storageGB),
                               a.egressGB + u.egressGB, 0.0)
           else a
  {
    FilterStep(records, i, InWindow(projectID, from, to));
    var kept := Filter(records[..i], InWindow(projectID, from, to));
    assert (kept + [records[i]])[..|kept|] == kept;
  }

  class UsageStore {
    var records: seq<Usage>

    constructor ()
      ensures records == []
    {
      records := [];
    }

    method Record(usage: Usage)
      modifies this
      ensures records == old(records) + [usage]
    {
      records := records + [usage];
    }

    method AggregateForProject(projectID: string, from: int, to: int) returns (agg: UsageAggregate)
      ensures agg == MemoryAggregate(records, projectID, from, to)
    {
      agg := UsageAggregate(0.0, 0.0, 0.0, 0.0, 0.0);
      for i := 0 to |records|
        invariant agg == MemoryAggregate(records[..i], projectID, from, to)
      {
        var r := records[i];
        AggregateOneMore(records, i, projectID, from, to);
        if r.projectID == projectID && !(r.periodStart < from) && !(r.periodEnd > to) {
          agg := agg.(cpuCoreHours := agg.cpuCoreHours + r.cpuCoreHours, memoryGBHours := agg.memoryGBHours + r.memoryGBHours);
          if r.storageGB > agg.storageGB {
            agg := agg.(storageGB := r.storageGB);
          }
          agg := agg.(egressGB := agg.egressGB + r.egressGB);
        }
      }
      assert records[..|records|] == records;
    }
  }

  // ---------------------------------------------------------------- disjoint periods fit in the month

  predicate Within(u: Usage, from: int, to: int) {
    from <= u.periodStart <= u.periodEnd <= to
  }

  predicate Apart(a: Usage, b: Usage) {
    a.periodEnd <= b.periodStart || b.periodEnd <= a.periodStart
  }

  predicate PairwiseApart(rs: seq<Usage>) {
    rs != [] ==>
      && PairwiseApart(rs[..|rs| - 1])
      && forall i :: 0 <= i < |rs| - 1 ==> Apart(rs[i], rs[|rs| - 1])
  }

  function Length(rs: seq<Usage>): int {
    if rs == [] then 0
    else Length(rs[..|rs| - 1]) + (rs[|rs| - 1].periodEnd - rs[|rs| - 1].periodStart)
  }

  lemma {:induction false} PiecesStayApart(rs: seq<Usage>, keep: Usage -> bool)
    requires PairwiseApart(rs)
    ensures PairwiseApart(Filter(rs, keep))
  {
    if rs != [] {
      var front := rs[..|rs| - 1];
      PiecesStayApart(front, keep);
      FilterKeeps(front, keep);
      var kept := Filter(front, keep);
      assert (kept + [rs[|rs| - 1]])[..|kept|] == kept;
      forall i | 0 <= i < |kept|
        ensures Apart(kept[i], rs[|rs| - 1])
      {
        assert kept[i] in kept;
      }
    }
  }

  lemma {:induction false} LengthSplits(rs: seq<Usage>, keep: Usage -> bool, drop: Usage -> bool)
    requires forall u :: drop(u) == !keep(u)
    ensures Length(rs) == Length(Filter(rs, keep)) + Length(Filter(rs, drop))
    ensures |rs| == |Filter(rs, keep)| + |Filter(rs, drop)|
  {
    if rs != [] {
      var front, last := rs[..|rs| - 1], rs[|rs| - 1];
      LengthSplits(front, keep, drop);
      assert (Filter(front, keep) + [last])[..|Filter(front, keep)|] == Filter(front, keep);
      assert (Filter(front, drop) + [last])[..|Filter(front, drop)|] == Filter(front, drop);
    }
  }

  function EndsBy(time: int): Usage -> bool {
    (u: Usage) => u.periodEnd <= time
  }

  function EndsAfter(time: int): Usage -> bool {
    (u: Usage) => u.periodEnd > time
  }

  ghost predicate AllWithin(rs: seq<Usage>, from: int, to: int) {
    forall u :: u in rs ==> Within(u, from, to)
  }

  /** The other records lie on either side of this one. */
  lemma SidesFit(front: seq<Usage>, last: Usage, from: int, to: int)
    requires AllWithin(front, from, to) && Within(last, from, to)
    requires forall i :: 0 <= i < |front| ==> Apart(front[i], last)
    ensures AllWithin(Filter(front, EndsBy(last.periodStart)), from, last.periodStart)
    ensures AllWithin(Filter(front, EndsAfter(last.periodStart)), last.periodEnd, to)
  {
    FilterKeeps(front, EndsBy(last.periodStart));
    FilterKeeps(front, EndsAfter(last.periodStart));
  }

  /** In whatever order the records were written. */
  lemma {:induction false} DisjointPeriodsFit(rs: seq<Usage>, from: int, to: int)
    requires from <= to && PairwiseApart(rs) && AllWithin(rs, from, to)
    ensures 0 <= Length(rs) <= to - from
    decreases |rs|
  {
    if rs != [] {
      var front, last := rs[..|rs| - 1], rs[|rs| - 1];
      assert last in rs;
      var before, after := EndsBy(last.periodStart), EndsAfter(last.periodStart);
      LengthSplits(front, before, after);
      PiecesStayApart(front, before);
      PiecesStayApart(front, after);
      SidesFit(front, last, from, to);
      DisjointPeriodsFit(Filter(front, before), from, last.periodStart);
      DisjointPeriodsFit(Filter(front, after), last.periodEnd, to);
    }
  }

  // ---------------------------------------------------------------- charges against the bill

  predicate NonnegativeTariff(t: Tariff) {
    t.cpuCoreHour >= 0.0 && t.memoryGBHour >= 0.0 && t.storageGBMonth >= 0.0 && t.egressGB >= 0.0 && t.dedicatedLBHour >= 0.0
  }

  predicate NonnegativeUsage(u: Usage) {
    && u.cpuCoreHours >= 0.0 && u.memoryGBHours >= 0.0 && u.storageGB >= 0.0 && u.egressGB >= 0.0 && u.dedicatedLBHours >= 0.0
    && u.periodStart <= u.periodEnd
  }

  /** What the periods cost when each is priced on its own. */
  function CostSum(t: Tariff, rs: seq<Usage>): real {
    if rs == [] then 0.0 else CostSum(t, rs[..|rs| - 1]) + ComputeUsageCost(t, rs[|rs| - 1])
  }

  /** Storage times time, period by period. */
  function StorageMonths(rs: seq<Usage>): real {
    if rs == [] then 0.0
    else
      var u := rs[|rs| - 1];
      StorageMonths(rs[..|rs| - 1]) + u.storageGB * Months(u.periodEnd - u.periodStart)
  }

  function SumOf(rs: seq<Usage>, f: Usage -> real): real {
    if rs == [] then 0.0 else SumOf(rs[..|rs| - 1], f) + f(rs[|rs| - 1])
  }

  lemma {:induction false} SumSign(rs: seq<Usage>, f: Usage -> real)
    requires forall i :: 0 <= i < |rs| ==> f(rs[i]) >= 0.0
    ensures SumOf(rs, f) >= 0.0
    ensures SumOf(rs, f) == 0.0 <==> forall i :: 0 <= i < |rs| ==> f(rs[i]) == 0.0
  {
    if rs != [] {
      var front := rs[..|rs| - 1];
      assert forall i :: 0 <= i < |front| ==> front[i] == rs[i];
      SumSign(front, f);
    }
  }

  function GapBelow(level: real): Usage -> real {
    (u: Usage) => (level - u.storageGB) * Months(u.periodEnd - u.periodStart)
  }

  /** How much storage time falls short of a level. */
  function Shortfall(rs: seq<Usage>, level: real): real {
    SumOf(rs, GapBelow(level))
  }

  /** The five parts of a price. */
  function Price(t: Tariff, cpu: real, memory: real, storageTime: real, egress: real, balancer: real): real {
    cpu * t.cpuCoreHour + memory * t.memoryGBHour + storageTime * t.storageGBMonth + egress * t.egressGB + balancer * t.dedicatedLBHour
  }

  lemma CostOfOne(t: Tariff, u: Usage, storageTime: real)
    requires storageTime == u.storageGB * Months(u.periodEnd - u.periodStart)
    ensures ComputeUsageCost(t, u) == Price(t, u.cpuCoreHours, u.memoryGBHours, storageTime, u.egressGB, u.dedicatedLBHours)
  {
    var m := Months(u.periodEnd - u.periodStart);
    assert u.storageGB * t.storageGBMonth * m == u.storageGB * m * t.storageGBMonth;
  }

  lemma Distribute(a: real, b: real, c: real)
    ensures (a + b) * c == a * c + b * c
  {
  }

  lemma PriceAdds(
    t: Tariff, cpu: real, memory: real, storageTime: real, egress: real, balancer: real,
    cpu': real, memory': real, storageTime': real, egress': real, balancer': real)
    ensures Price(t, cpu + cpu', memory + memory', storageTime + storageTime', egress + egress', balancer + balancer')
         == Price(t, cpu, memory, storageTime, egress, balancer) + Price(t, cpu', memory', storageTime', egress', balancer')
  {
    Distribute(cpu, cpu', t.cpuCoreHour);
    Distribute(memory, memory', t.memoryGBHour);
    Distribute(storageTime, storageTime', t.storageGBMonth);
    Distribute(egress, egress', t.egressGB);
    Distribute(balancer, balancer', t.dedicatedLBHour);
  }

  /** All parts but storage add up exactly. */
  lemma {:induction false} CostSumSplits(t: Tariff, rs: seq<Usage>)
    ensures var a := Aggregate(rs);
      CostSum(t, rs) == Price(t, a.cpuCoreHours, a.memoryGBHours, StorageMonths(rs), a.egressGB, a.dedicatedLBHours)
  {
    if rs != [] {
      var front, u := rs[..|rs| - 1], rs[|rs| - 1];
      CostSumSplits(t, front);
      var a, s := Aggregate(front), u.storageGB * Months(u.periodEnd - u.periodStart);
      CostOfOne(t, u, s);
      PriceAdds(t, a.cpuCoreHours, a.memoryGBHours, StorageMonths(front), a.egressGB, a.dedicatedLBHours,
                u.cpuCoreHours, u.memoryGBHours, s, u.egressGB, u.dedicatedLBHours);
    }
  }

  lemma {:induction false} MaximumCovers(rs: seq<Usage>)
    requires forall u :: u in rs ==> NonnegativeUsage(u)
    ensures Aggregate(rs).storageGB >= 0.0
    ensures forall i :: 0 <= i < |rs| ==> rs[i].storageGB <= Aggregate(rs).storageGB
  {
    if rs != [] {
      var front := rs[..|rs| - 1];
      assert forall u :: u in front ==> u in rs;
      MaximumCovers(front);
      assert forall i :: 0 <= i < |front| ==> rs[i] == front[i];
    }
  }

  lemma GapOfOne(level: real, stored: real, before: int, duration: int)
    ensures stored * Months(duration) + (level - stored) * Months(duration) == level * Months(duration)
    ensures level * Months(before + duration) == level * Months(before) + level * Months(duration)
  {
    var m := Months(duration);
    assert Months(before + duration) == Months(before) + m;
    Distribute(stored, level - stored, m);
    Distribute(Months(before), m, level);
  }

  lemma {:induction false} ShortfallSplits(rs: seq<Usage>, level: real)
    ensures StorageMonths(rs) + Shortfall(rs, level) == level * Months(Length(rs))
  {
    if rs != [] {
      var front, u := rs[..|rs| - 1], rs[|rs| - 1];
      ShortfallSplits(front, level);
      GapOfOne(level, u.storageGB, Length(front), u.periodEnd - u.periodStart);
    }
  }

  /** The level is reached, or there is no time in the period. */
  predicate AtLevel(u: Usage, level: real) {
    u.storageGB == level || u.periodStart == u.periodEnd
  }

  lemma ShortfallSign(rs: seq<Usage>, level: real)
    requires forall i :: 0 <= i < |rs| ==> NonnegativeUsage(rs[i]) && rs[i].storageGB <= level
    ensures Shortfall(rs, level) >= 0.0
    ensures Shortfall(rs, level) == 0.0 <==> forall i :: 0 <= i < |rs| ==> AtLevel(rs[i], level)
  {
    forall i | 0 <= i < |rs|
      ensures GapBelow(level)(rs[i]) >= 0.0
      ensures GapBelow(level)(rs[i]) == 0.0 <==> AtLevel(rs[i], level)
    {
      GapSign(rs[i], level);
    }
    SumSign(rs, GapBelow(level));
  }

  lemma GapSign(u: Usage, level: real)
    requires NonnegativeUsage(u) && u.storageGB <= level
    ensures GapBelow(level)(u) >= 0.0
    ensures GapBelow(level)(u) == 0.0 <==> AtLevel(u, level)
  {
    OneShortfall(level - u.storageGB, u.periodEnd - u.periodStart);
  }

  lemma OneShortfall(missing: real, duration: int)
    requires missing >= 0.0 && duration >= 0
    ensures missing * Months(duration) >= 0.0
    ensures missing * Months(duration) == 0.0 <==> missing == 0.0 || duration == 0
  {
    var m := Months(duration);
    assert m >= 0.0 && (m == 0.0 <==> duration == 0);
  }

  /** Storage was constant over the metered time, and the metered time is the whole elapsed month. */
  ghost predicate ExactlyTiled(rs: seq<Usage>, monthStart: int, now: int) {
    var level := Aggregate(rs).storageGB;
    && (forall i :: 0 <= i < |rs| ==> AtLevel(rs[i], level))
    && (level == 0.0 || Length(rs) == now - monthStart)
  }

  /** The storage part of the bill, and of the charges. */
  function StorageBilled(rate: real, rs: seq<Usage>, elapsed: int): real {
    Aggregate(rs).storageGB * rate * Months(elapsed)
  }

  function StorageCharged(rate: real, rs: seq<Usage>): real {
    StorageMonths(rs) * rate
  }

  /**
   The monthly bill is never less than the charges for its periods, because the largest storage of the month
   is billed for all of the elapsed month; and the two agree exactly if storage is free, or was constant over
   periods that tile the elapsed month.
   */
  lemma BillCoversCharges(t: Tariff, rs: seq<Usage>, monthStart: int, now: int)
    requires NonnegativeTariff(t) && monthStart <= now && PairwiseApart(rs)
    requires forall u :: u in rs ==> NonnegativeUsage(u) && Within(u, monthStart, now)
    ensures CostSum(t, rs) <= Bill(t, Aggregate(rs), monthStart, now)
    ensures CostSum(t, rs) == Bill(t, Aggregate(rs), monthStart, now)
        <==> t.storageGBMonth == 0.0 || ExactlyTiled(rs, monthStart, now)
  {
    DisjointPeriodsFit(rs, monthStart, now);
    var gap := StorageGap(t.storageGBMonth, rs, monthStart, now);
    OnlyStorageDiffers(t, rs, monthStart, now);
  }

  lemma StorageGap(rate: real, rs: seq<Usage>, monthStart: int, now: int) returns (gap: real)
    requires rate >= 0.0 && 0 <= Length(rs) <= now - monthStart
    requires forall u :: u in rs ==> NonnegativeUsage(u)
    ensures StorageBilled(rate, rs, now - monthStart) == StorageCharged(rate, rs) + gap
    ensures gap >= 0.0 && (gap == 0.0 <==> rate == 0.0 || ExactlyTiled(rs, monthStart, now))
  {
    var metered, idle, missing := LevelFacts(rs, monthStart, now);
    gap := GapOfBill(rate, Aggregate(rs).storageGB, Months(now - monthStart), metered, idle, StorageMonths(rs), missing);
  }

  lemma OnlyStorageDiffers(t: Tariff, rs: seq<Usage>, monthStart: int, now: int)
    ensures Bill(t, Aggregate(rs), monthStart, now) - CostSum(t, rs)
         == StorageBilled(t.storageGBMonth, rs, now - monthStart) - StorageCharged(t.storageGBMonth, rs)
  {
    CostSumSplits(t, rs);
  }

  /** The elapsed time splits into metered and idle time; the storage that the level exceeds is missing. */
  lemma LevelFacts(rs: seq<Usage>, monthStart: int, now: int) returns (metered: real, idle: real, missing: real)
    requires forall u :: u in rs ==> NonnegativeUsage(u)
    requires 0 <= Length(rs) <= now - monthStart
    ensures var level := Aggregate(rs).storageGB;
      && missing >= 0.0 && level * idle >= 0.0
      && Months(now - monthStart) == metered + idle && StorageMonths(rs) + missing == level * metered
      && (ExactlyTiled(rs, monthStart, now) <==> missing == 0.0 && level * idle == 0.0)
  {
    var level := Aggregate(rs).storageGB;
    metered, idle, missing := Months(Length(rs)), Months((now - monthStart) - Length(rs)), Shortfall(rs, level);
    ShortfallSplits(rs, level);
    TiledIffNothingMissing(rs, monthStart, now);
  }

  lemma TiledIffNothingMissing(rs: seq<Usage>, monthStart: int, now: int)
    requires forall u :: u in rs ==> NonnegativeUsage(u)
    requires 0 <= Length(rs) <= now - monthStart
    ensures var level, idle := Aggregate(rs).storageGB, Months((now - monthStart) - Length(rs));
      && Shortfall(rs, level) >= 0.0 && level * idle >= 0.0
      && (ExactlyTiled(rs, monthStart, now) <==> Shortfall(rs, level) == 0.0 && level * idle == 0.0)
  {
    var level := Aggregate(rs).storageGB;
    MaximumCovers(rs);
    assert forall i :: 0 <= i < |rs| ==> rs[i] in rs;
    ShortfallSign(rs, level);
    OneShortfall(level, (now - monthStart) - Length(rs));
  }

  lemma GapOfBill(rate: real, level: real, elapsed: real, metered: real, idle: real, stored: real, missing: real) returns (gap: real)
    requires rate >= 0.0 && missing >= 0.0 && level * idle >= 0.0
    requires elapsed == metered + idle && stored + missing == level * metered
    ensures level * rate * elapsed == stored * rate + gap
    ensures gap >= 0.0 && (gap == 0.0 <==> rate == 0.0 || (missing == 0.0 && level * idle == 0.0))
  {
    gap := (missing + level * idle) * rate;
    GapIsTheRest(rate, level, elapsed, metered, idle, stored, missing);
    SignOfProduct(missing + level * idle, rate);
  }

  lemma GapIsTheRest(rate: real, level: real, elapsed: real, metered: real, idle: real, stored: real, missing: real)
    requires elapsed == metered + idle && stored + missing == level * metered
    ensures level * rate * elapsed == stored * rate + (missing + level * idle) * rate
  {
    Distribute(metered, idle, level);
    Distribute(stored, missing + level * idle, rate);
    assert level * rate * elapsed == level * elapsed * rate;
  }

  lemma SignOfProduct(x: real, y: real)
    requires x >= 0.0 && y >= 0.0
    ensures x * y >= 0.0
    ensures x * y == 0.0 <==> x == 0.0 || y == 0.0
  {
  }

  /** With the in-memory aggregate the bill misses the load balancer, by exactly this much. */
  lemma MemoryBillMissesLoadBalancer(t: Tariff, records: seq<Usage>, projectID: string, monthStart: int, now: int)
    ensures var sql := SqlAggregate(records, projectID, monthStart, now);
      Bill(t, MemoryAggregate(records, projectID, monthStart, now), monthStart, now)
        == Bill(t, sql, monthStart, now) - sql.dedicatedLBHours * t.dedicatedLBHour
  {
  }

  /** By how much storage is billed above what its periods are charged. */
  function StorageSlack(t: Tariff, rs: seq<Usage>, elapsed: int): real {
    StorageBilled(t.storageGBMonth, rs, elapsed) - StorageCharged(t.storageGBMonth, rs)
  }

  function BalancerCost(t: Tariff, rs: seq<Usage>): real {
    Aggregate(rs).dedicatedLBHours * t.dedicatedLBHour
  }

  lemma MemoryGap(t: Tariff, records: seq<Usage>, projectID: string, monthStart: int, now: int) returns (billed: real, slack: real, missed: real)
    ensures var rs := Filter(records, InWindow(projectID, monthStart, now));
      && billed == Bill(t, MemoryAggregate(records, projectID, monthStart, now), monthStart, now)
      && slack == StorageSlack(t, rs, now - monthStart) && missed == BalancerCost(t, rs)
      && billed == CostSum(t, rs) + slack - missed
  {
    var rs := Filter(records, InWindow(projectID, monthStart, now));
    OnlyStorageDiffers(t, rs, monthStart, now);
    MemoryBillMissesLoadBalancer(t, records, projectID, monthStart, now);
    billed := Bill(t, MemoryAggregate(records, projectID, monthStart, now), monthStart, now);
    slack, missed := StorageSlack(t, rs, now - monthStart), BalancerCost(t, rs);
  }

  /** On any records: that bill covers the charges exactly if the missing hours cost no more than storage is billed above its charges. */
  lemma MemoryCoversRecordsIff(t: Tariff, records: seq<Usage>, projectID: string, monthStart: int, now: int, charged: real)
    requires charged == CostSum(t, Filter(records, InWindow(projectID, monthStart, now)))
    ensures var rs := Filter(records, InWindow(projectID, monthStart, now));
      charged <= Bill(t, MemoryAggregate(records, projectID, monthStart, now), monthStart, now)
      <==> BalancerCost(t, rs) <= StorageSlack(t, rs, now - monthStart)
  {
    var billed, slack, missed := MemoryGap(t, records, projectID, monthStart, now);
  }

  /** A record of load-balancer hours alone comes to nothing in memory. */
  lemma BilledAtNothing(t: Tariff, records: seq<Usage>, u: Usage)
    requires Filter(records, InWindow(u.projectID, u.periodStart, u.periodEnd)) == [u]
    requires u == Usage(u.projectID, u.periodStart, u.periodEnd, 0.0, 0.0, 0.0, 0.0, u.dedicatedLBHours)
    ensures Bill(t, MemoryAggregate(records, u.projectID, u.periodStart, u.periodEnd), u.periodStart, u.periodEnd) == 0.0
  {
    assert [u][..0] == [];
    assert Aggregate([u]) == UsageAggregate(0.0, 0.0, 0.0, 0.0, u.dedicatedLBHours);
  }

  lemma {:induction false} NoHoursNoSum(rs: seq<Usage>)
    requires forall u :: u in rs ==> u.dedicatedLBHours == 0.0
    ensures Aggregate(rs).dedicatedLBHours == 0.0
  {
    if rs != [] {
      NoHoursNoSum(rs[..|rs| - 1]);
    }
  }
}
