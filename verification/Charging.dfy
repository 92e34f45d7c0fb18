/** What a metering tick takes from the owners of projects, in terms of what the collector measured and the tariff. */
module Charging {
  import opened Text
  import opened Projects
  import opened Metering
  import opened Ledger

  /** What so many hours at the measured level cost; a dedicated balancer costs by the hour too. */
  function Price(t: Tariff, s: ResourceSnapshot, balancer: bool, hours: real): real {
    hours * (s.cpuCores * t.cpuCoreHour + s.memoryGB * t.memoryGBHour + if balancer then t.dedicatedLBHour else 0.0)
    + s.storageGB * t.storageGBMonth * (hours / 720.0)
    + s.egressGBDelta * t.egressGB
  }

  predicate HasBalancer(p: Project) {
    p.dedicatedLoadBalancer && EqualFold(Trim(p.serviceType), "LoadBalancer")
  }

  /** The length of the window in hours; times are in nanoseconds. */
  function WindowHours(tick: Tick): real {
    (tick.end - tick.start) as real / 3600000000000.0
  }

  /** What the tick takes for one project: nothing unless it runs and was measured, and never a negative amount. */
  function Due(p: Project, tick: Tick): real {
    if p.status != Active || p.id !in tick.snapshots then 0.0
    else
      var price := Price(tick.tariff, tick.snapshots[p.id], HasBalancer(p), WindowHours(tick));
      if price > 0.0 then price else 0.0
  }

  /** What the tick takes from a user for all projects of the listing. */
  function DueFrom(userID: string, listing: seq<Project>, tick: Tick): real {
    if listing == [] then 0.0
    else
      var p := listing[|listing| - 1];
      DueFrom(userID, listing[..|listing| - 1], tick) + if p.owner == userID then Due(p, tick) else 0.0
  }

  lemma Regrouped(cpu: real, cpuRate: real, memory: real, memoryRate: real, balancer: bool, balancerRate: real, hours: real)
    ensures cpu * hours * cpuRate + memory * hours * memoryRate + (if balancer then hours else 0.0) * balancerRate
         == hours * (cpu * cpuRate + memory * memoryRate + if balancer then balancerRate else 0.0)
  {
    Swapped(cpu, hours, cpuRate);
    Swapped(memory, hours, memoryRate);
    var a, b, c := cpu * cpuRate, memory * memoryRate, if balancer then balancerRate else 0.0;
    assert hours * (a + b + c) == hours * a + hours * b + hours * c;
  }

  lemma Swapped(x: real, hours: real, rate: real)
    ensures x * hours * rate == hours * (x * rate)
  {
  }

  lemma PriceIsTheCost(p: Project, tick: Tick)
    requires IsMetered(p, tick)
    ensures ComputeUsageCost(tick.tariff, UsageIn(p, tick)) == Price(tick.tariff, tick.snapshots[p.id], HasBalancer(p), WindowHours(tick))
  {
    var s, t := tick.snapshots[p.id], tick.tariff;
    Regrouped(s.cpuCores, t.cpuCoreHour, s.memoryGB, t.memoryGBHour, HasBalancer(p), t.dedicatedLBHour, WindowHours(tick));
  }

  /** One project of a tick: what is due for it, if anything, leaves the balance of its owner and goes into the journal. */
  lemma ProjectIsCharged(b: Books, p: Project, tick: Tick)
    ensures var b', due := Collected(b, p, tick), Due(p, tick);
      && b'.payments == b.payments && b'.users.byID.Keys == b.users.byID.Keys
      && (forall u :: u in b.users.byID ==>
            b'.users.byID[u] == if u == p.owner then b.users.byID[u].(balance := b.users.byID[u].balance - due) else b.users.byID[u])
      && b'.txs == b.txs + (if due > 0.0 && p.owner in b.users.byID then [Transaction(p.owner, p.id, Charge, -due, tick.end)] else [])
    ensures p.status != Active || p.id !in tick.snapshots ==> Collected(b, p, tick) == b
  {
    if IsMetered(p, tick) {
      PriceIsTheCost(p, tick);
      BookedFor(b, p, UsageIn(p, tick), ComputeUsageCost(tick.tariff, UsageIn(p, tick)), tick.end);
    }
  }

  /** What is measured is kept, whether or not anything is due. */
  lemma ProjectIsRecorded(b: Books, p: Project, tick: Tick, hours: real, record: Usage)
    requires p.status == Active && p.id in tick.snapshots && hours == WindowHours(tick)
    requires var s := tick.snapshots[p.id];
      record == Usage(p.id, tick.start, tick.end, s.cpuCores * hours, s.memoryGB * hours, s.storageGB, s.egressGBDelta,
                      if HasBalancer(p) then hours else 0.0)
    ensures Collected(b, p, tick).usage == b.usage + [record]
  {
    assert hours == Hours(tick.end - tick.start);
    assert record == UsageIn(p, tick);
  }

  lemma BookedFor(b: Books, p: Project, usage: Usage, cost: real, at: int)
    ensures var b', due := Charged(b, p, usage, cost, at), if cost > 0.0 then cost else 0.0;
      && b'.payments == b.payments && b'.users.byID.Keys == b.users.byID.Keys
      && (forall u :: u in b.users.byID ==>
            b'.users.byID[u] == if u == p.owner then b.users.byID[u].(balance := b.users.byID[u].balance - due) else b.users.byID[u])
      && b'.txs == b.txs + (if due > 0.0 && p.owner in b.users.byID then [Transaction(p.owner, p.id, Charge, -due, at)] else [])
      && b'.usage == b.usage + [usage]
  {
  }

  /** A whole tick takes from every user what is due for the user's projects, and leaves the rest of the record alone. */
  lemma {:induction false} TickTakes(b: Books, listing: seq<Project>, tick: Tick, userID: string)
    requires userID in b.users.byID
    ensures var byID := CollectedAll(b, listing, tick).users.byID;
      && userID in byID
      && byID[userID] == b.users.byID[userID].(balance := b.users.byID[userID].balance - DueFrom(userID, listing, tick))
  {
    if listing != [] {
      var front := listing[..|listing| - 1];
      TickTakes(b, front, tick, userID);
      ProjectIsCharged(CollectedAll(b, front, tick), listing[|listing| - 1], tick);
    }
  }
}
