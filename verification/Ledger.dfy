/** Balances, the transaction journal and gateway payments, as functions on values. */
module Ledger {
  import opened Wrappers
  import opened Sequences
  import opened Text
  import opened Users
  import opened Projects
  import opened Metering

  datatype TransactionType = TopUp | Charge | Refund | Adjustment

  datatype Transaction = Transaction(userID: string, projectID: string, kind: TransactionType, amount: real, createdAt: int)

  datatype PaymentStatus = PaymentPending | PaymentSucceeded | PaymentCanceled

  datatype Payment = Payment(yooKassaID: string, userID: string, amount: real, status: PaymentStatus)

  /** What the metrics collector reports about a project. */
  datatype ResourceSnapshot = ResourceSnapshot(cpuCores: real, memoryGB: real, storageGB: real, egressGBDelta: real)

  datatype Books = Books(users: UserMaps, txs: seq<Transaction>, payments: seq<Payment>, usage: seq<Usage>)

  // ---------------------------------------------------------------- operations

  predicate TopUpAdmitted(b: Books, userID: string, amount: real) {
    amount > 0.0 && userID in b.users.byID
  }

  /** How the code moves money: a signed amount on the balance, and an entry in the journal. */
  function Booked(b: Books, tx: Transaction): Books
    requires tx.userID in b.users.byID
  {
    b.(users := Edited(b.users, tx.userID, SetBalance(b.users.byID[tx.userID].balance + tx.amount)), txs := b.txs + [tx])
  }

  function ToppedUp(b: Books, userID: string, amount: real, at: int): Books {
    if TopUpAdmitted(b, userID, amount) then Booked(b, Transaction(userID, "", TopUp, amount, at)) else b
  }

  /** The index of the first payment with the gateway's id, or the number of payments. */
  function FirstPayment(payments: seq<Payment>, yooKassaID: string): (k: nat)
    ensures k <= |payments|
    ensures k < |payments| ==> payments[k].yooKassaID == yooKassaID
    ensures forall i :: 0 <= i < k ==> payments[i].yooKassaID != yooKassaID
  {
    if payments == [] || payments[0].yooKassaID == yooKassaID then 0 else 1 + FirstPayment(payments[1..], yooKassaID)
  }

  function Marked(payments: seq<Payment>, yooKassaID: string): (marked: seq<Payment>)
    ensures |marked| == |payments|
  {
    var k := FirstPayment(payments, yooKassaID);
    if k < |payments| then payments[k := payments[k].(status := PaymentSucceeded)] else payments
  }

  /** HandleYooKassaWebhook: mark first, then credit. */
  function Notified(b: Books, yooKassaID: string, at: int): Books {
    var k := FirstPayment(b.payments, yooKassaID);
    if k == |b.payments| || b.payments[k].status == PaymentSucceeded then b
    else ToppedUp(b.(payments := Marked(b.payments, yooKassaID)), b.payments[k].userID, b.payments[k].amount, at)
  }

  /** InitiateTopUp: `gateway` is the id the payment gateway gave out, if it accepted. */
  function Initiated(b: Books, userID: string, amount: real, gateway: Option<string>): Books {
    if amount < 1.0 || gateway.None? then b
    else b.(payments := b.payments + [Payment(gateway.value, userID, amount, PaymentPending)])
  }

  function Registered(b: Books, user: User, password: string): Books {
    if IsBlank(user.email) || IsBlank(password) then b else b.(users := Created(b.users, user))
  }

  predicate UsesBalancer(p: Project) {
    p.dedicatedLoadBalancer && EqualFold(Trim(p.serviceType), "LoadBalancer")
  }

  function DedicatedLoadBalancerHours(p: Project, periodHours: real): real {
    if !UsesBalancer(p) then 0.0 else periodHours
  }

  function UsageOf(p: Project, snapshot: ResourceSnapshot, start: int, end: int): Usage {
    var hours := Hours(end - start);
    Usage(p.id, start, end, snapshot.cpuCores * hours, snapshot.memoryGB * hours,
          snapshot.storageGB, snapshot.egressGBDelta, DedicatedLoadBalancerHours(p, hours))
  }

  /** A metering tick: the window, the listing of the project store, and what the collector could report. */
  datatype Tick = Tick(start: int, end: int, tariff: Tariff, snapshots: map<string, ResourceSnapshot>)

  predicate IsMetered(p: Project, tick: Tick) {
    p.status == Active && p.id in tick.snapshots
  }

  function UsageIn(p: Project, tick: Tick): Usage
    requires IsMetered(p, tick)
  {
    UsageOf(p, tick.snapshots[p.id], tick.start, tick.end)
  }

  /** A usage record is kept, and its cost charged if it is positive and the owner is known. */
  function Charged(b: Books, p: Project, usage: Usage, cost: real, at: int): Books {
    var b1 := b.(usage := b.usage + [usage]);
    if cost <= 0.0 || p.owner !in b.users.byID then b1
    else Booked(b1, Transaction(p.owner, p.id, Charge, -cost, at))
  }

  /** One iteration of collectAndStoreUsage. */
  function Collected(b: Books, p: Project, tick: Tick): Books {
    if !IsMetered(p, tick) then b
    else Charged(b, p, UsageIn(p, tick), ComputeUsageCost(tick.tariff, UsageIn(p, tick)), tick.end)
  }

  function CollectedAll(b: Books, listing: seq<Project>, tick: Tick): Books {
    if listing == [] then b
    else Collected(CollectedAll(b, listing[..|listing| - 1], tick), listing[|listing| - 1], tick)
  }

  // ---------------------------------------------------------------- sums over the journal

  function OfUser(userID: string): Transaction -> bool {
    (tx: Transaction) => tx.userID == userID
  }

  function TopUpsOf(userID: string): Transaction -> bool {
    (tx: Transaction) => tx.userID == userID && tx.kind == TopUp
  }

  function ChargesOf(userID: string): Transaction -> bool {
    (tx: Transaction) => tx.userID == userID && tx.kind == Charge
  }

  function ChargesFor(projectID: string): Transaction -> bool {
    (tx: Transaction) => tx.projectID == projectID && tx.kind == Charge
  }

  function Sum(txs: seq<Transaction>, which: Transaction -> bool): real {
    if txs == [] then 0.0
    else Sum(txs[..|txs| - 1], which) + if which(txs[|txs| - 1]) then txs[|txs| - 1].amount else 0.0
  }

  lemma SumOneMore(txs: seq<Transaction>, tx: Transaction, which: Transaction -> bool)
    ensures Sum(txs + [tx], which) == Sum(txs, which) + if which(tx) then tx.amount else 0.0
  {
    assert (txs + [tx])[..|txs|] == txs;
  }

  /** The money of the user's payments that are marked succeeded. */
  function SucceededSum(payments: seq<Payment>, userID: string): real {
    if payments == [] then 0.0
    else
      var p := payments[|payments| - 1];
      SucceededSum(payments[..|payments| - 1], userID)
      + if p.userID == userID && p.status == PaymentSucceeded then p.amount else 0.0
  }

  lemma {:induction false} SucceededAfterMark(payments: seq<Payment>, k: nat, userID: string)
    requires k < |payments| && payments[k].status != PaymentSucceeded
    ensures SucceededSum(payments[k := payments[k].(status := PaymentSucceeded)], userID)
         == SucceededSum(payments, userID) + if payments[k].userID == userID then payments[k].amount else 0.0
  {
    var front, marked := payments[..|payments| - 1], payments[k := payments[k].(status := PaymentSucceeded)];
    if k < |front| {
      SucceededAfterMark(front, k, userID);
      assert marked[..|front|] == front[k := payments[k].(status := PaymentSucceeded)];
    } else {
      assert marked[..|front|] == front;
    }
  }

  lemma SucceededOneMore(payments: seq<Payment>, p: Payment, userID: string)
    ensures SucceededSum(payments + [p], userID)
         == SucceededSum(payments, userID) + if p.userID == userID && p.status == PaymentSucceeded then p.amount else 0.0
  {
    assert (payments + [p])[..|payments|] == payments;
  }

  // ---------------------------------------------------------------- runs

  datatype Step =
    | Registers(user: User, password: string)
    | TopsUp(userID: string, amount: real, at: int)
    | Initiates(userID: string, amount: real, gateway: Option<string>)
    | Notifies(yooKassaID: string, at: int)
    | Collects(listing: seq<Project>, tick: Tick)

  function Apply(b: Books, step: Step): Books {
    match step
    case Registers(user, password) => Registered(b, user, password)
    case TopsUp(userID, amount, at) => ToppedUp(b, userID, amount, at)
    case Initiates(userID, amount, gateway) => Initiated(b, userID, amount, gateway)
    case Notifies(yooKassaID, at) => Notified(b, yooKassaID, at)
    case Collects(listing, tick) => CollectedAll(b, listing, tick)
  }

  const NOTHING := Books(UserMaps(map[], map[]), [], [], [])

  function After(steps: seq<Step>): Books {
    if steps == [] then NOTHING else Apply(After(steps[..|steps| - 1]), steps[|steps| - 1])
  }

  /** New ids are new, and new users start with the default balance. */
  predicate FreshUser(b: Books, step: Step, defaultBalance: real) {
    step.Registers? ==> step.user.id !in b.users.byID && step.user.balance == defaultBalance
  }

  predicate FreshUsers(steps: seq<Step>, defaultBalance: real) {
    steps != [] ==>
      var front := steps[..|steps| - 1];
      FreshUsers(front, defaultBalance) && FreshUser(After(front), steps[|steps| - 1], defaultBalance)
  }

  /** Payments are started by users who exist. */
  predicate KnownPayers(steps: seq<Step>) {
    steps != [] ==>
      var front, last := steps[..|steps| - 1], steps[|steps| - 1];
      KnownPayers(front) && (last.Initiates? ==> last.userID in After(front).users.byID)
  }

  /** What the user paid in directly, without the gateway. */
  function Direct(steps: seq<Step>, userID: string): real {
    if steps == [] then 0.0
    else
      var front, last := steps[..|steps| - 1], steps[|steps| - 1];
      Direct(front, userID) + PaidDirectly(After(front), last, userID)
  }

  function PaidDirectly(b: Books, step: Step, userID: string): real {
    if step.TopsUp? && step.userID == userID && TopUpAdmitted(b, userID, step.amount) then step.amount else 0.0
  }

  // ---------------------------------------------------------------- conservation

  ghost predicate BalanceConserved(b: Books, defaultBalance: real, u: string) {
    u in b.users.byID ==> b.users.byID[u].balance == defaultBalance + Sum(b.txs, OfUser(u))
  }

  ghost predicate Conserved(b: Books, defaultBalance: real) {
    && InStep(b.users) && SoundJournal(b.txs, b.users.byID.Keys)
    && forall u :: u in b.users.byID ==> BalanceConserved(b, defaultBalance, u)
  }

  /** Entries belong to known users; top-ups are positive, charges negative, and there is nothing else. */
  ghost predicate SoundJournal(txs: seq<Transaction>, known: set<string>) {
    forall i :: 0 <= i < |txs| ==> txs[i].userID in known && RightSign(txs[i])
  }

  predicate RightSign(tx: Transaction) {
    if tx.kind == TopUp then tx.amount > 0.0 else tx.kind == Charge && tx.amount < 0.0
  }

  lemma BookingConserves(b: Books, defaultBalance: real, tx: Transaction)
    requires Conserved(b, defaultBalance) && tx.userID in b.users.byID && RightSign(tx)
    ensures Conserved(Booked(b, tx), defaultBalance)
  {
    EditKeepsStep(b.users, tx.userID, SetBalance(b.users.byID[tx.userID].balance + tx.amount));
    JournalOneMore(b.txs, b.users.byID.Keys, tx);
    forall u | u in b.users.byID
      ensures BalanceConserved(Booked(b, tx), defaultBalance, u)
    {
      OneBalanceConserved(b, defaultBalance, tx, u);
    }
  }

  lemma JournalOneMore(txs: seq<Transaction>, known: set<string>, tx: Transaction)
    requires SoundJournal(txs, known) && tx.userID in known && RightSign(tx)
    ensures SoundJournal(txs + [tx], known)
  {
  }

  lemma OneBalanceConserved(b: Books, defaultBalance: real, tx: Transaction, u: string)
    requires BalanceConserved(b, defaultBalance, u) && tx.userID in b.users.byID && u in b.users.byID
    ensures BalanceConserved(Booked(b, tx), defaultBalance, u)
  {
    SumOneMore(b.txs, tx, OfUser(u));
  }

  lemma {:induction false} NoTransactionsNoSum(txs: seq<Transaction>, userID: string)
    requires forall i :: 0 <= i < |txs| ==> txs[i].userID != userID
    ensures Sum(txs, OfUser(userID)) == 0.0
  {
    if txs != [] {
      NoTransactionsNoSum(txs[..|txs| - 1], userID);
    }
  }

  lemma RegisterConserves(b: Books, user: User, password: string, defaultBalance: real)
    requires Conserved(b, defaultBalance) && user.id !in b.users.byID && user.balance == defaultBalance
    ensures Conserved(Registered(b, user, password), defaultBalance)
  {
    CreateKeepsStepIffFresh(b.users, user);
    NoTransactionsNoSum(b.txs, user.id);
    var b' := Registered(b, user, password);
    forall u | u in b'.users.byID
      ensures BalanceConserved(b', defaultBalance, u)
    {
      assert u in b.users.byID ==> BalanceConserved(b, defaultBalance, u);
    }
  }

  lemma TopUpConserves(b: Books, userID: string, amount: real, at: int, defaultBalance: real)
    requires Conserved(b, defaultBalance)
    ensures Conserved(ToppedUp(b, userID, amount, at), defaultBalance)
  {
    if TopUpAdmitted(b, userID, amount) {
      BookingConserves(b, defaultBalance, Transaction(userID, "", TopUp, amount, at));
    }
  }

  lemma SameMoneyConserves(b: Books, b': Books, defaultBalance: real)
    requires Conserved(b, defaultBalance) && b'.users == b.users && b'.txs == b.txs
    ensures Conserved(b', defaultBalance)
  {
    forall u | u in b'.users.byID
      ensures BalanceConserved(b', defaultBalance, u)
    {
      assert BalanceConserved(b, defaultBalance, u);
    }
  }

  lemma NotifyConserves(b: Books, yooKassaID: string, at: int, defaultBalance: real)
    requires Conserved(b, defaultBalance)
    ensures Conserved(Notified(b, yooKassaID, at), defaultBalance)
  {
    var k := FirstPayment(b.payments, yooKassaID);
    if k < |b.payments| {
      var b1 := b.(payments := Marked(b.payments, yooKassaID));
      SameMoneyConserves(b, b1, defaultBalance);
      TopUpConserves(b1, b.payments[k].userID, b.payments[k].amount, at, defaultBalance);
    }
  }

  lemma ChargeConserves(b: Books, p: Project, usage: Usage, cost: real, at: int, defaultBalance: real)
    requires Conserved(b, defaultBalance)
    ensures Conserved(Charged(b, p, usage, cost, at), defaultBalance)
  {
    var b1 := b.(usage := b.usage + [usage]);
    SameMoneyConserves(b, b1, defaultBalance);
    if cost > 0.0 && p.owner in b.users.byID {
      BookingConserves(b1, defaultBalance, Transaction(p.owner, p.id, Charge, -cost, at));
    }
  }

  lemma CollectConserves(b: Books, p: Project, tick: Tick, defaultBalance: real)
    requires Conserved(b, defaultBalance)
    ensures Conserved(Collected(b, p, tick), defaultBalance)
  {
    if IsMetered(p, tick) {
      ChargeConserves(b, p, UsageIn(p, tick), ComputeUsageCost(tick.tariff, UsageIn(p, tick)), tick.end, defaultBalance);
    }
  }

  lemma {:induction false} CollectAllConserves(b: Books, listing: seq<Project>, tick: Tick, defaultBalance: real)
    requires Conserved(b, defaultBalance)
    ensures Conserved(CollectedAll(b, listing, tick), defaultBalance)
  {
    if listing != [] {
      var front := listing[..|listing| - 1];
      CollectAllConserves(b, front, tick, defaultBalance);
      CollectConserves(CollectedAll(b, front, tick), listing[|listing| - 1], tick, defaultBalance);
    }
  }

  lemma StepConserves(b: Books, step: Step, defaultBalance: real)
    requires Conserved(b, defaultBalance) && FreshUser(b, step, defaultBalance)
    ensures Conserved(Apply(b, step), defaultBalance)
  {
    match step
    case Registers(user, password) => RegisterConserves(b, user, password, defaultBalance);
    case TopsUp(userID, amount, at) => TopUpConserves(b, userID, amount, at, defaultBalance);
    case Initiates(userID, amount, gateway) => SameMoneyConserves(b, Apply(b, step), defaultBalance);
    case Notifies(yooKassaID, at) => NotifyConserves(b, yooKassaID, at, defaultBalance);
    case Collects(listing, tick) => CollectAllConserves(b, listing, tick, defaultBalance);
  }

  /** After any sequence of operations a balance is the default balance plus the user's journal entries, credits positive and charges negative. */
  lemma {:induction false} LedgerIsConserved(steps: seq<Step>, defaultBalance: real)
    requires FreshUsers(steps, defaultBalance)
    ensures Conserved(After(steps), defaultBalance)
  {
    if steps != [] {
      LedgerIsConserved(steps[..|steps| - 1], defaultBalance);
      StepConserves(After(steps[..|steps| - 1]), steps[|steps| - 1], defaultBalance);
    }
  }

  // ---------------------------------------------------------------- payments are credited once

  /** The first payment with the gateway's id, which is the one that a notification finds, is marked succeeded. */
  predicate IsPaid(payments: seq<Payment>, yooKassaID: string) {
    var k := FirstPayment(payments, yooKassaID);
    k < |payments| && payments[k].status == PaymentSucceeded
  }

  lemma {:induction false} FirstIs(payments: seq<Payment>, yooKassaID: string, k: nat)
    requires k < |payments| && payments[k].yooKassaID == yooKassaID && forall i :: 0 <= i < k ==> payments[i].yooKassaID != yooKassaID
    ensures FirstPayment(payments, yooKassaID) == k
  {
    var first := FirstPayment(payments, yooKassaID);
  }

  lemma {:induction false} PaidAfterMore(payments: seq<Payment>, p: Payment, yooKassaID: string)
    requires IsPaid(payments, yooKassaID)
    ensures IsPaid(payments + [p], yooKassaID)
  {
    FirstIs(payments + [p], yooKassaID, FirstPayment(payments, yooKassaID));
  }

  lemma {:induction false} FirstAfterMark(payments: seq<Payment>, other: string, yooKassaID: string)
    requires FirstPayment(payments, yooKassaID) < |payments|
    ensures FirstPayment(Marked(payments, other), yooKassaID) == FirstPayment(payments, yooKassaID)
    ensures IsPaid(payments, yooKassaID) || other == yooKassaID ==> IsPaid(Marked(payments, other), yooKassaID)
  {
    var k := FirstPayment(payments, yooKassaID);
    assert forall i :: 0 <= i < |payments| ==> Marked(payments, other)[i].yooKassaID == payments[i].yooKassaID;
    FirstIs(Marked(payments, other), yooKassaID, k);
  }

  lemma {:induction false} NotificationPays(b: Books, yooKassaID: string, at: int)
    requires FirstPayment(b.payments, yooKassaID) < |b.payments|
    ensures IsPaid(Notified(b, yooKassaID, at).payments, yooKassaID)
  {
    FirstAfterMark(b.payments, yooKassaID, yooKassaID);
  }

  lemma {:induction false} StepKeepsPaid(b: Books, step: Step, yooKassaID: string)
    requires IsPaid(b.payments, yooKassaID)
    ensures IsPaid(Apply(b, step).payments, yooKassaID)
  {
    match step
    case Initiates(userID, amount, gateway) =>
      if gateway.Some? {
        PaidAfterMore(b.payments, Payment(gateway.value, userID, amount, PaymentPending), yooKassaID);
      }
    case Notifies(other, at) => FirstAfterMark(b.payments, other, yooKassaID);
    case Collects(listing, tick) => CollectTouchesNoTopUp(b, listing, tick, "");
    case _ =>
  }

  lemma {:induction false} PaidStaysPaid(steps: seq<Step>, i: nat, yooKassaID: string)
    requires i <= |steps| && IsPaid(After(steps[..i]).payments, yooKassaID)
    ensures IsPaid(After(steps).payments, yooKassaID)
    decreases |steps|
  {
    if i < |steps| {
      var front := steps[..|steps| - 1];
      assert front[..i] == steps[..i];
      PaidStaysPaid(front, i, yooKassaID);
      StepKeepsPaid(After(front), steps[|steps| - 1], yooKassaID);
    } else {
      assert steps[..i] == steps;
    }
  }

  /**
   Once a run has heard of a payment's success another notification of it changes nothing, whenever it comes and whatever
   has happened in between; nor does a notification of an unknown payment.
   */
  lemma {:induction false} NotificationIsIdempotent(steps: seq<Step>, i: nat, yooKassaID: string, at: int, later: int)
    requires i < |steps| && steps[i] == Notifies(yooKassaID, at)
    ensures var b := After(steps[..i]);
      if FirstPayment(b.payments, yooKassaID) < |b.payments| then Notified(After(steps), yooKassaID, later) == After(steps)
      else After(steps[..i + 1]) == b
  {
    assert steps[..i + 1][..i] == steps[..i];
    if FirstPayment(After(steps[..i]).payments, yooKassaID) < |After(steps[..i]).payments| {
      NotificationPays(After(steps[..i]), yooKassaID, at);
      PaidStaysPaid(steps, i + 1, yooKassaID);
    }
  }

  /** Credits and payments of one user agree. */
  ghost predicate PaidUp(b: Books, direct: real, userID: string) {
    Sum(b.txs, TopUpsOf(userID)) == direct + SucceededSum(b.payments, userID)
  }

  /**
   A notification marks the payment before it credits the balance. The credit matches the mark exactly if the
   payer exists and the amount is positive; otherwise the payment stays marked and its money is not credited.
   */
  lemma NotificationCreditsIff(b: Books, yooKassaID: string, at: int, direct: real, userID: string)
    requires PaidUp(b, direct, userID)
    ensures var k := FirstPayment(b.payments, yooKassaID);
      PaidUp(Notified(b, yooKassaID, at), direct, userID)
      <==> (k < |b.payments| && b.payments[k].status != PaymentSucceeded && b.payments[k].userID == userID ==>
              (userID in b.users.byID && b.payments[k].amount > 0.0) || b.payments[k].amount == 0.0)
  {
    var k := FirstPayment(b.payments, yooKassaID);
    if k < |b.payments| && b.payments[k].status != PaymentSucceeded {
      SucceededAfterMark(b.payments, k, userID);
      SumOneMore(b.txs, Transaction(b.payments[k].userID, "", TopUp, b.payments[k].amount, at), TopUpsOf(userID));
    }
  }

  ghost predicate SoundPayments(b: Books) {
    forall i :: 0 <= i < |b.payments| ==> b.payments[i].userID in b.users.byID && b.payments[i].amount >= 1.0
  }

  lemma {:induction false} CollectTouchesNoTopUp(b: Books, listing: seq<Project>, tick: Tick, userID: string)
    ensures var b' := CollectedAll(b, listing, tick);
      && b'.payments == b.payments && b'.users.byID.Keys == b.users.byID.Keys
      && Sum(b'.txs, TopUpsOf(userID)) == Sum(b.txs, TopUpsOf(userID))
  {
    if listing != [] {
      var mid, p := CollectedAll(b, listing[..|listing| - 1], tick), listing[|listing| - 1];
      CollectTouchesNoTopUp(b, listing[..|listing| - 1], tick, userID);
      if IsMetered(p, tick) {
        var cost := ComputeUsageCost(tick.tariff, UsageIn(p, tick));
        SumOneMore(mid.txs, Transaction(p.owner, p.id, Charge, -cost, tick.end), TopUpsOf(userID));
      }
    }
  }

  lemma TopUpKeepsPaidUp(b: Books, id: string, amount: real, at: int, direct: real, userID: string)
    requires PaidUp(b, direct, userID) && SoundPayments(b)
    ensures var more := if id == userID && TopUpAdmitted(b, id, amount) then amount else 0.0;
      PaidUp(ToppedUp(b, id, amount, at), direct + more, userID) && SoundPayments(ToppedUp(b, id, amount, at))
  {
    SumOneMore(b.txs, Transaction(id, "", TopUp, amount, at), TopUpsOf(userID));
  }

  lemma InitiateKeepsPaidUp(b: Books, id: string, amount: real, gateway: Option<string>, direct: real, userID: string)
    requires PaidUp(b, direct, userID) && SoundPayments(b) && id in b.users.byID
    ensures PaidUp(Initiated(b, id, amount, gateway), direct, userID) && SoundPayments(Initiated(b, id, amount, gateway))
  {
    if gateway.Some? {
      SucceededOneMore(b.payments, Payment(gateway.value, id, amount, PaymentPending), userID);
    }
  }

  lemma NotifyKeepsPaidUp(b: Books, yooKassaID: string, at: int, direct: real, userID: string)
    requires PaidUp(b, direct, userID) && SoundPayments(b)
    ensures PaidUp(Notified(b, yooKassaID, at), direct, userID) && SoundPayments(Notified(b, yooKassaID, at))
  {
    NotificationCreditsIff(b, yooKassaID, at, direct, userID);
  }

  lemma StepKeepsPaidUp(b: Books, step: Step, direct: real, userID: string)
    requires PaidUp(b, direct, userID) && SoundPayments(b)
    requires step.Initiates? ==> step.userID in b.users.byID
    ensures PaidUp(Apply(b, step), direct + PaidDirectly(b, step, userID), userID) && SoundPayments(Apply(b, step))
  {
    match step
    case Registers(user, password) =>
    case TopsUp(id, amount, at) => TopUpKeepsPaidUp(b, id, amount, at, direct, userID);
    case Initiates(id, amount, gateway) => InitiateKeepsPaidUp(b, id, amount, gateway, direct, userID);
    case Notifies(yooKassaID, at) => NotifyKeepsPaidUp(b, yooKassaID, at, direct, userID);
    case Collects(listing, tick) => CollectTouchesNoTopUp(b, listing, tick, userID);
  }

  /**
   Exactly-once crediting over every run, with duplicated, reordered and unknown notifications, and even with
   gateway ids that repeat: what a user was credited is what was paid in directly plus the payments marked succeeded.
   */
  lemma {:induction false} CreditedExactlyOnce(steps: seq<Step>, userID: string)
    requires KnownPayers(steps)
    ensures PaidUp(After(steps), Direct(steps, userID), userID) && SoundPayments(After(steps))
  {
    if steps != [] {
      var front, step := steps[..|steps| - 1], steps[|steps| - 1];
      CreditedExactlyOnce(front, userID);
      StepKeepsPaidUp(After(front), step, Direct(front, userID), userID);
    }
  }

  lemma {:induction false} JournalSplits(txs: seq<Transaction>, userID: string)
    requires forall i :: 0 <= i < |txs| ==> txs[i].kind == TopUp || txs[i].kind == Charge
    ensures Sum(txs, OfUser(userID)) == Sum(txs, TopUpsOf(userID)) + Sum(txs, ChargesOf(userID))
  {
    if txs != [] {
      JournalSplits(txs[..|txs| - 1], userID);
    }
  }

  /** Both results in one equation for the balance. */
  lemma WhereTheMoneyIs(steps: seq<Step>, defaultBalance: real, userID: string)
    requires FreshUsers(steps, defaultBalance) && KnownPayers(steps) && userID in After(steps).users.byID
    ensures After(steps).users.byID[userID].balance
         == defaultBalance + Direct(steps, userID) + SucceededSum(After(steps).payments, userID)
          + Sum(After(steps).txs, ChargesOf(userID))
  {
    LedgerIsConserved(steps, defaultBalance);
    CreditedExactlyOnce(steps, userID);
    JournalSplits(After(steps).txs, userID);
    assert BalanceConserved(After(steps), defaultBalance, userID);
  }

  function RefundsOf(userID: string): Transaction -> bool {
    (tx: Transaction) => tx.userID == userID && tx.kind == Refund && tx.amount > 0.0
  }

  lemma {:induction false} NoRefundsNoSum(txs: seq<Transaction>, userID: string)
    requires forall i :: 0 <= i < |txs| ==> txs[i].kind != Refund
    ensures Sum(txs, RefundsOf(userID)) == 0.0
  {
    if txs != [] {
      NoRefundsNoSum(txs[..|txs| - 1], userID);
    }
  }

  /** No operation here books a refund, so the refund term that the guard adds to a balance is always zero. */
  lemma RefundTermIsZero(steps: seq<Step>, defaultBalance: real, userID: string)
    requires FreshUsers(steps, defaultBalance)
    ensures Sum(After(steps).txs, RefundsOf(userID)) == 0.0
  {
    LedgerIsConserved(steps, defaultBalance);
    NoRefundsNoSum(After(steps).txs, userID);
  }

  /**
   The failing case as a run: somebody whom the user store does not know starts a payment, and the gateway reports it
   paid. The payment is marked succeeded and nobody is credited, then or by any notification after any further steps.
   */
  lemma {:induction false} LostPayment(userID: string, amount: real, yooKassaID: string, at: int, more: seq<Step>, later: int)
    requires amount >= 1.0
    ensures var steps := [Initiates(userID, amount, Some(yooKassaID)), Notifies(yooKassaID, at)]; var b := After(steps);
      && b.payments == [Payment(yooKassaID, userID, amount, PaymentSucceeded)] && b.txs == []
      && SucceededSum(b.payments, userID) == amount && !PaidUp(b, 0.0, userID)
      && Notified(After(steps + more), yooKassaID, later) == After(steps + more)
  {
    var steps := [Initiates(userID, amount, Some(yooKassaID)), Notifies(yooKassaID, at)];
    LostAtOnce(userID, amount, yooKassaID, at);
    assert (steps + more)[..2] == steps;
    PaidStaysPaid(steps + more, 2, yooKassaID);
  }

  lemma {:induction false} LostAtOnce(userID: string, amount: real, yooKassaID: string, at: int)
    requires amount >= 1.0
    ensures var b := After([Initiates(userID, amount, Some(yooKassaID)), Notifies(yooKassaID, at)]);
      && b.payments == [Payment(yooKassaID, userID, amount, PaymentSucceeded)] && b.txs == [] && IsPaid(b.payments, yooKassaID)
      && SucceededSum(b.payments, userID) == amount && !PaidUp(b, 0.0, userID)
  {
    var initiate, notify := Initiates(userID, amount, Some(yooKassaID)), Notifies(yooKassaID, at);
    assert [initiate, notify][..1] == [initiate] && [initiate][..0] == [];
    var pending := Payment(yooKassaID, userID, amount, PaymentPending);
    assert After([initiate]) == NOTHING.(payments := [pending]);
    assert [pending][..0] == [] && FirstPayment([pending], yooKassaID) == 0;
  }

  // ---------------------------------------------------------------- charges over a month

  /** A metering tick whose window lies between the two times. */
  predicate Inside(step: Step, from: int, to: int) {
    step.Collects? && from <= step.tick.start && step.tick.end <= to
  }

  /** What a project is charged from one state of the journal to the next. */
  function Taken(b: Books, b': Books, projectID: string): real {
    Sum(b.txs, ChargesFor(projectID)) - Sum(b'.txs, ChargesFor(projectID))
  }

  function Debit(b: Books, step: Step, projectID: string): real {
    Taken(b, Apply(b, step), projectID)
  }

  /** What a project is charged for the windows between two times. */
  function ChargedIn(steps: seq<Step>, projectID: string, from: int, to: int): real {
    if steps == [] then 0.0
    else
      var front, last := steps[..|steps| - 1], steps[|steps| - 1];
      ChargedIn(front, projectID, from, to) + if Inside(last, from, to) then Debit(After(front), last, projectID) else 0.0
  }

  /** Nonnegative prices and readings, and every project listed once. */
  ghost predicate CleanTick(listing: seq<Project>, tick: Tick) {
    && NonnegativeTariff(tick.tariff) && tick.start <= tick.end
    && (forall id :: id in tick.snapshots ==>
          var s := tick.snapshots[id]; s.cpuCores >= 0.0 && s.memoryGB >= 0.0 && s.storageGB >= 0.0 && s.egressGBDelta >= 0.0)
    && forall i, j :: 0 <= i < j < |listing| ==> listing[i].id != listing[j].id
  }

  /** The tick's window is disjoint from the earlier ones between the two times. */
  ghost predicate ApartFrom(steps: seq<Step>, tick: Tick, from: int, to: int) {
    forall i :: 0 <= i < |steps| && Inside(steps[i], from, to) ==> steps[i].tick.end <= tick.start || tick.end <= steps[i].tick.start
  }

  /** Between the two times: one tariff, clean ticks, and windows that are disjoint. Before and after, anything. */
  ghost predicate CleanMonth(steps: seq<Step>, tariff: Tariff, from: int, to: int) {
    steps != [] ==>
      var front, last := steps[..|steps| - 1], steps[|steps| - 1];
      && CleanMonth(front, tariff, from, to)
      && (Inside(last, from, to) ==>
            last.tick.tariff == tariff && CleanTick(last.listing, last.tick) && ApartFrom(front, last.tick, from, to))
  }

  function RecordsIn(b: Books, projectID: string, from: int, to: int): seq<Usage> {
    Filter(b.usage, InWindow(projectID, from, to))
  }

  /** The record of one project among others of the same tick: at most one is written. */
  function Entry(listing: seq<Project>, tick: Tick, projectID: string): seq<Usage> {
    if listing == [] then []
    else
      var p := listing[|listing| - 1];
      Entry(listing[..|listing| - 1], tick, projectID)
      + if IsMetered(p, tick) && p.id == projectID then [UsageIn(p, tick)] else []
  }

  lemma FilterAppends(us: seq<Usage>, u: Usage, keep: Usage -> bool)
    ensures Filter(us + [u], keep) == Filter(us, keep) + if keep(u) then [u] else []
  {
    assert (us + [u])[..|us|] == us;
  }

  lemma {:induction false} CostSumAppends(t: Tariff, a: seq<Usage>, b: seq<Usage>)
    ensures CostSum(t, a + b) == CostSum(t, a) + CostSum(t, b)
  {
    if b == [] {
      assert a + b == a;
    } else {
      var last := b[|b| - 1];
      CostSumAppends(t, a, b[..|b| - 1]);
      assert (a + b)[..|a + b| - 1] == a + b[..|b| - 1];
    }
  }

  predicate OwnersKnown(b: Books, listing: seq<Project>) {
    forall i :: 0 <= i < |listing| ==> listing[i].owner in b.users.byID
  }

  /** A project gained these records and was charged at most their cost; exactly their cost if `known`. */
  ghost predicate Adds(
    rs: seq<Usage>, rs': seq<Usage>, charged: real, t: Tariff, entry: seq<Usage>, known: bool)
  {
    rs' == rs + entry && charged <= CostSum(t, entry) && (known ==> charged == CostSum(t, entry))
  }

  lemma AddsThenAdds(
    rs: seq<Usage>, mid: seq<Usage>, rs': seq<Usage>, charged: real, charged': real, t: Tariff, e: seq<Usage>, e': seq<Usage>, known: bool)
    requires Adds(rs, mid, charged, t, e, known) && Adds(mid, rs', charged', t, e', known)
    ensures Adds(rs, rs', charged + charged', t, e + e', known)
  {
    CostSumAppends(t, e, e');
  }

  lemma OneEntry(p: Project, tick: Tick, projectID: string)
    ensures Entry([p], tick, projectID) == if IsMetered(p, tick) && p.id == projectID then [UsageIn(p, tick)] else []
  {
    assert [p][..0] == [] && Entry([], tick, projectID) == [];
  }

  lemma CostOfList(t: Tariff, u: Usage)
    ensures CostSum(t, [u]) == ComputeUsageCost(t, u) && CostSum(t, []) == 0.0
  {
    assert [u][..0] == [];
  }

  /** The record of one iteration. */
  lemma RecordOfCollect(b: Books, p: Project, tick: Tick, projectID: string, from: int, to: int)
    requires from <= tick.start && tick.end <= to
    ensures RecordsIn(Collected(b, p, tick), projectID, from, to) == RecordsIn(b, projectID, from, to) + Entry([p], tick, projectID)
  {
    OneEntry(p, tick, projectID);
    if IsMetered(p, tick) {
      FilterAppends(b.usage, UsageIn(p, tick), InWindow(projectID, from, to));
    }
  }

  /** The charge of one iteration: the cost, or nothing if it is not positive or nobody can pay it. */
  lemma ChargeOfCollect(b: Books, p: Project, tick: Tick, projectID: string)
    requires IsMetered(p, tick)
    ensures var cost := ComputeUsageCost(tick.tariff, UsageIn(p, tick));
      Taken(b, Collected(b, p, tick), projectID) == if p.id == projectID && cost > 0.0 && p.owner in b.users.byID then cost else 0.0
  {
    var cost := ComputeUsageCost(tick.tariff, UsageIn(p, tick));
    SumOneMore(b.txs, Transaction(p.owner, p.id, Charge, -cost, tick.end), ChargesFor(projectID));
  }

  lemma OneCollect(b: Books, p: Project, tick: Tick, projectID: string, from: int, to: int)
    requires CleanTick([p], tick) && from <= tick.start && tick.end <= to
    ensures var b' := Collected(b, p, tick);
      Adds(RecordsIn(b, projectID, from, to), RecordsIn(b', projectID, from, to), Taken(b, b', projectID), tick.tariff,
           Entry([p], tick, projectID), p.owner in b.users.byID)
  {
    RecordOfCollect(b, p, tick, projectID, from, to);
    OneEntry(p, tick, projectID);
    if IsMetered(p, tick) {
      ChargeOfCollect(b, p, tick, projectID);
      CostOfList(tick.tariff, UsageIn(p, tick));
      UsageIsNonnegative(p, tick.snapshots[p.id], tick.start, tick.end);
      CostIsNonnegative(tick.tariff, UsageIn(p, tick));
    }
  }

  lemma EntrySplits(front: seq<Project>, p: Project, tick: Tick, projectID: string)
    ensures Entry(front + [p], tick, projectID) == Entry(front, tick, projectID) + Entry([p], tick, projectID)
  {
    assert (front + [p])[..|front|] == front;
    assert [p][..0] == [];
  }

  lemma {:induction false} CollectKeepsUsers(b: Books, listing: seq<Project>, tick: Tick)
    ensures CollectedAll(b, listing, tick).users.byID.Keys == b.users.byID.Keys
  {
    if listing != [] {
      CollectKeepsUsers(b, listing[..|listing| - 1], tick);
    }
  }

  lemma {:induction false} TickAdds(b: Books, listing: seq<Project>, tick: Tick, projectID: string, from: int, to: int, known: bool)
    requires CleanTick(listing, tick) && from <= tick.start && tick.end <= to && (known ==> OwnersKnown(b, listing))
    ensures var b' := CollectedAll(b, listing, tick);
      Adds(RecordsIn(b, projectID, from, to), RecordsIn(b', projectID, from, to), Taken(b, b', projectID), tick.tariff,
           Entry(listing, tick, projectID), known)
  {
    if listing != [] {
      var front, p := listing[..|listing| - 1], listing[|listing| - 1];
      assert listing == front + [p];
      TickAdds(b, front, tick, projectID, from, to, known);
      var mid := CollectedAll(b, front, tick);
      CollectKeepsUsers(b, front, tick);
      OneCollect(mid, p, tick, projectID, from, to);
      EntrySplits(front, p, tick, projectID);
      AddsThenAdds(RecordsIn(b, projectID, from, to), RecordsIn(mid, projectID, from, to),
                   RecordsIn(Collected(mid, p, tick), projectID, from, to), Taken(b, mid, projectID),
                   Taken(mid, Collected(mid, p, tick), projectID), tick.tariff, Entry(front, tick, projectID), Entry([p], tick, projectID), known);
    }
  }

  lemma UsageIsNonnegative(p: Project, s: ResourceSnapshot, start: int, end: int)
    requires start <= end && s.cpuCores >= 0.0 && s.memoryGB >= 0.0 && s.storageGB >= 0.0 && s.egressGBDelta >= 0.0
    ensures NonnegativeUsage(UsageOf(p, s, start, end))
  {
    var h := Hours(end - start);
    assert s.cpuCores * h >= 0.0 && s.memoryGB * h >= 0.0;
  }

  lemma CostIsNonnegative(t: Tariff, u: Usage)
    requires NonnegativeTariff(t) && NonnegativeUsage(u)
    ensures ComputeUsageCost(t, u) >= 0.0
  {
    var m := Months(u.periodEnd - u.periodStart);
    assert u.storageGB * t.storageGBMonth >= 0.0;
    assert u.storageGB * t.storageGBMonth * m >= 0.0;
  }

  lemma {:induction false} AtMostOneEntry(listing: seq<Project>, tick: Tick, projectID: string)
    requires forall i, j :: 0 <= i < j < |listing| ==> listing[i].id != listing[j].id
    ensures |Entry(listing, tick, projectID)| <= 1
    ensures (forall i :: 0 <= i < |listing| ==> listing[i].id != projectID) ==> Entry(listing, tick, projectID) == []
  {
    if listing != [] {
      AtMostOneEntry(listing[..|listing| - 1], tick, projectID);
    }
  }

  /** The record is what a tick read about the project. */
  ghost predicate ReadBy(u: Usage, listing: seq<Project>, tick: Tick, projectID: string) {
    exists k :: 0 <= k < |listing| && IsMetered(listing[k], tick) && listing[k].id == projectID && u == UsageIn(listing[k], tick)
  }

  lemma {:induction false} EntryIsRead(listing: seq<Project>, tick: Tick, projectID: string, u: Usage)
    requires u in Entry(listing, tick, projectID)
    ensures ReadBy(u, listing, tick, projectID)
  {
    var front, p := listing[..|listing| - 1], listing[|listing| - 1];
    if u in Entry(front, tick, projectID) {
      EntryIsRead(front, tick, projectID, u);
      var k :| 0 <= k < |front| && IsMetered(front[k], tick) && front[k].id == projectID && u == UsageIn(front[k], tick);
      assert listing[k] == front[k];
    }
  }

  /** The record comes from a tick of the run, with its window. */
  ghost predicate FromTick(u: Usage, steps: seq<Step>, projectID: string, from: int, to: int) {
    exists i :: 0 <= i < |steps| && Inside(steps[i], from, to) && ReadBy(u, steps[i].listing, steps[i].tick, projectID)
  }

  ghost predicate FromTicks(rs: seq<Usage>, steps: seq<Step>, projectID: string, from: int, to: int) {
    forall u :: u in rs ==> NonnegativeUsage(u) && Within(u, from, to) && FromTick(u, steps, projectID, from, to)
  }

  lemma FromEarlierTick(u: Usage, front: seq<Step>, step: Step, projectID: string, from: int, to: int)
    requires FromTick(u, front, projectID, from, to)
    ensures FromTick(u, front + [step], projectID, from, to)
  {
    var i :| 0 <= i < |front| && Inside(front[i], from, to) && ReadBy(u, front[i].listing, front[i].tick, projectID);
    assert (front + [step])[i] == front[i];
  }

  lemma MoreTicks(rs: seq<Usage>, front: seq<Step>, step: Step, projectID: string, from: int, to: int)
    requires FromTicks(rs, front, projectID, from, to)
    ensures FromTicks(rs, front + [step], projectID, from, to)
  {
    forall u | u in rs
      ensures FromTick(u, front + [step], projectID, from, to)
    {
      FromEarlierTick(u, front, step, projectID, from, to);
    }
  }

  lemma EntryFromTick(u: Usage, front: seq<Step>, step: Step, projectID: string, from: int, to: int)
    requires Inside(step, from, to) && CleanTick(step.listing, step.tick) && u in Entry(step.listing, step.tick, projectID)
    ensures NonnegativeUsage(u) && u.periodStart == step.tick.start && u.periodEnd == step.tick.end
    ensures FromTick(u, front + [step], projectID, from, to)
  {
    EntryIsRead(step.listing, step.tick, projectID, u);
    var k :| 0 <= k < |step.listing| && IsMetered(step.listing[k], step.tick) && u == UsageIn(step.listing[k], step.tick);
    UsageIsNonnegative(step.listing[k], step.tick.snapshots[step.listing[k].id], step.tick.start, step.tick.end);
    assert (front + [step])[|front|] == step;
  }

  lemma EarlierIsApart(u: Usage, front: seq<Step>, tick: Tick, projectID: string, from: int, to: int)
    requires FromTick(u, front, projectID, from, to) && ApartFrom(front, tick, from, to)
    ensures u.periodEnd <= tick.start || tick.end <= u.periodStart
  {
    var i :| 0 <= i < |front| && Inside(front[i], from, to) && ReadBy(u, front[i].listing, front[i].tick, projectID);
  }

  lemma OneMoreIsApart(rs: seq<Usage>, u: Usage, front: seq<Step>, tick: Tick, projectID: string, from: int, to: int)
    requires PairwiseApart(rs) && FromTicks(rs, front, projectID, from, to) && ApartFrom(front, tick, from, to)
    requires u.periodStart == tick.start && u.periodEnd == tick.end
    ensures PairwiseApart(rs + [u])
  {
    assert (rs + [u])[..|rs|] == rs;
    forall i | 0 <= i < |rs|
      ensures Apart(rs[i], u)
    {
      assert rs[i] in rs;
      EarlierIsApart(rs[i], front, tick, projectID, from, to);
    }
  }

  lemma OneMoreFromTick(rs: seq<Usage>, u: Usage, steps: seq<Step>, projectID: string, from: int, to: int)
    requires FromTicks(rs, steps, projectID, from, to)
    requires NonnegativeUsage(u) && Within(u, from, to) && FromTick(u, steps, projectID, from, to)
    ensures FromTicks(rs + [u], steps, projectID, from, to)
  {
    assert forall x :: x in rs + [u] ==> x in rs || x == u;
  }

  lemma OneMoreRecord(rs: seq<Usage>, front: seq<Step>, step: Step, projectID: string, from: int, to: int)
    requires PairwiseApart(rs) && FromTicks(rs, front, projectID, from, to)
    requires Inside(step, from, to) && CleanTick(step.listing, step.tick) && ApartFrom(front, step.tick, from, to)
    ensures var entry := Entry(step.listing, step.tick, projectID);
      PairwiseApart(rs + entry) && FromTicks(rs + entry, front + [step], projectID, from, to)
  {
    var entry := Entry(step.listing, step.tick, projectID);
    AtMostOneEntry(step.listing, step.tick, projectID);
    MoreTicks(rs, front, step, projectID, from, to);
    if entry == [] {
      assert rs + entry == rs;
    } else {
      var u := entry[0];
      assert entry == [u] && u in entry;
      EntryFromTick(u, front, step, projectID, from, to);
      OneMoreIsApart(rs, u, front, step.tick, projectID, from, to);
      OneMoreFromTick(rs, u, front + [step], projectID, from, to);
    }
  }

  /** Every owner that a tick between the two times meets exists. */
  predicate KnownOwners(steps: seq<Step>, from: int, to: int) {
    steps != [] ==>
      var front, last := steps[..|steps| - 1], steps[|steps| - 1];
      KnownOwners(front, from, to) && (Inside(last, from, to) ==> OwnersKnown(After(front), last.listing))
  }

  /** The records between the two times come from ticks; the charges for them are their cost (at most, unless `known`). */
  ghost predicate Metered(rs: seq<Usage>, charged: real, steps: seq<Step>, tariff: Tariff, projectID: string, from: int, to: int, known: bool) {
    && PairwiseApart(rs) && FromTicks(rs, steps, projectID, from, to)
    && charged <= CostSum(tariff, rs) && (known ==> charged == CostSum(tariff, rs))
  }

  lemma {:induction false} OutsideTickAddsNothing(b: Books, listing: seq<Project>, tick: Tick, projectID: string, from: int, to: int)
    requires !(from <= tick.start && tick.end <= to)
    ensures RecordsIn(CollectedAll(b, listing, tick), projectID, from, to) == RecordsIn(b, projectID, from, to)
  {
    if listing != [] {
      var front, p := listing[..|listing| - 1], listing[|listing| - 1];
      OutsideTickAddsNothing(b, front, tick, projectID, from, to);
      if IsMetered(p, tick) {
        FilterAppends(CollectedAll(b, front, tick).usage, UsageIn(p, tick), InWindow(projectID, from, to));
      }
    }
  }

  lemma OutsideStepAddsNothing(b: Books, step: Step, projectID: string, from: int, to: int)
    requires !Inside(step, from, to)
    ensures RecordsIn(Apply(b, step), projectID, from, to) == RecordsIn(b, projectID, from, to)
  {
    if step.Collects? {
      OutsideTickAddsNothing(b, step.listing, step.tick, projectID, from, to);
    }
  }

  lemma CollectKeepsMetered(
    b: Books, charged: real, front: seq<Step>, step: Step, projectID: string, from: int, to: int, known: bool)
    requires Inside(step, from, to) && CleanTick(step.listing, step.tick) && ApartFrom(front, step.tick, from, to)
    requires Metered(RecordsIn(b, projectID, from, to), charged, front, step.tick.tariff, projectID, from, to, known)
    requires known ==> OwnersKnown(b, step.listing)
    ensures Metered(RecordsIn(Apply(b, step), projectID, from, to), charged + Debit(b, step, projectID), front + [step], step.tick.tariff,
                    projectID, from, to, known)
  {
    TickAdds(b, step.listing, step.tick, projectID, from, to, known);
    OneMoreRecord(RecordsIn(b, projectID, from, to), front, step, projectID, from, to);
    CostSumAppends(step.tick.tariff, RecordsIn(b, projectID, from, to), Entry(step.listing, step.tick, projectID));
  }

  lemma OutsideKeepsMetered(
    b: Books, charged: real, front: seq<Step>, step: Step, tariff: Tariff, projectID: string, from: int, to: int, known: bool)
    requires !Inside(step, from, to)
    requires Metered(RecordsIn(b, projectID, from, to), charged, front, tariff, projectID, from, to, known)
    ensures Metered(RecordsIn(Apply(b, step), projectID, from, to), charged, front + [step], tariff, projectID, from, to, known)
  {
    OutsideStepAddsNothing(b, step, projectID, from, to);
    MoreTicks(RecordsIn(b, projectID, from, to), front, step, projectID, from, to);
  }

  lemma NothingIsMetered(tariff: Tariff, projectID: string, from: int, to: int, known: bool)
    ensures Metered([], 0.0, [], tariff, projectID, from, to, known)
  {
  }

  lemma LastStepKeepsMetered(
    b: Books, charged: real, steps: seq<Step>, tariff: Tariff, projectID: string, from: int, to: int, known: bool)
    requires steps != [] && CleanMonth(steps, tariff, from, to)
    requires known && Inside(steps[|steps| - 1], from, to) ==> OwnersKnown(b, steps[|steps| - 1].listing)
    requires Metered(RecordsIn(b, projectID, from, to), charged, steps[..|steps| - 1], tariff, projectID, from, to, known)
    ensures var step := steps[|steps| - 1];
      Metered(RecordsIn(Apply(b, step), projectID, from, to),
              charged + if Inside(step, from, to) then Debit(b, step, projectID) else 0.0, steps, tariff, projectID, from, to, known)
  {
    var front, step := steps[..|steps| - 1], steps[|steps| - 1];
    assert front + [step] == steps;
    if Inside(step, from, to) {
      CollectKeepsMetered(b, charged, front, step, projectID, from, to, known);
    } else {
      OutsideKeepsMetered(b, charged, front, step, tariff, projectID, from, to, known);
    }
  }

  /** Over every run: the records between the two times come from its ticks, and the charges for them follow their cost. */
  lemma {:induction false} ChargesFollowRecords(steps: seq<Step>, tariff: Tariff, projectID: string, from: int, to: int, known: bool)
    requires CleanMonth(steps, tariff, from, to) && (known ==> KnownOwners(steps, from, to))
    ensures Metered(RecordsIn(After(steps), projectID, from, to), ChargedIn(steps, projectID, from, to), steps, tariff, projectID, from, to, known)
  {
    if steps == [] {
      NothingIsMetered(tariff, projectID, from, to, known);
    } else {
      var front := steps[..|steps| - 1];
      ChargesFollowRecords(front, tariff, projectID, from, to, known);
      LastStepKeepsMetered(After(front), ChargedIn(front, projectID, from, to), steps, tariff, projectID, from, to, known);
    }
  }

  /**
   Over runs of any length: what a project is charged for the windows of a month so far is at most its bill for that
   month (with the SQL aggregate). If every owner was known the two agree exactly when storage is free or was
   constant over periods that tile the month so far.
   */
  lemma ChargesNeverExceedTheBill(steps: seq<Step>, tariff: Tariff, projectID: string, from: int, to: int)
    requires CleanMonth(steps, tariff, from, to) && NonnegativeTariff(tariff) && from <= to
    ensures ChargedIn(steps, projectID, from, to) <= Bill(tariff, SqlAggregate(After(steps).usage, projectID, from, to), from, to)
    ensures KnownOwners(steps, from, to) ==>
      (ChargedIn(steps, projectID, from, to) == Bill(tariff, SqlAggregate(After(steps).usage, projectID, from, to), from, to)
       <==> tariff.storageGBMonth == 0.0 || ExactlyTiled(RecordsIn(After(steps), projectID, from, to), from, to))
  {
    ChargesFollowRecords(steps, tariff, projectID, from, to, false);
    if KnownOwners(steps, from, to) {
      ChargesFollowRecords(steps, tariff, projectID, from, to, true);
    }
    BillCoversCharges(tariff, RecordsIn(After(steps), projectID, from, to), from, to);
  }

  // ---------------------------------------------------------------- the in-memory bill

  /** The project had no dedicated load balancer in any window between the two times. */
  ghost predicate NoBalancer(steps: seq<Step>, projectID: string, from: int, to: int) {
    forall i, k :: 0 <= i < |steps| && Inside(steps[i], from, to) && 0 <= k < |steps[i].listing| && steps[i].listing[k].id == projectID ==>
      !UsesBalancer(steps[i].listing[k])
  }

  /**
   Over the same runs, with the in-memory aggregate: the bill covers the charges exactly if the load-balancer hours,
   which that aggregate drops, cost no more than storage is billed above its charges.
   */
  lemma MemoryBillCoversIff(steps: seq<Step>, tariff: Tariff, projectID: string, from: int, to: int)
    requires CleanMonth(steps, tariff, from, to) && KnownOwners(steps, from, to)
    ensures ChargedIn(steps, projectID, from, to) <= Bill(tariff, MemoryAggregate(After(steps).usage, projectID, from, to), from, to)
       <==> BalancerCost(tariff, RecordsIn(After(steps), projectID, from, to))
              <= StorageSlack(tariff, RecordsIn(After(steps), projectID, from, to), to - from)
  {
    ChargesAreCosts(steps, tariff, projectID, from, to);
    MemoryCoversRecordsIff(tariff, After(steps).usage, projectID, from, to, ChargedIn(steps, projectID, from, to));
  }

  lemma ChargesAreCosts(steps: seq<Step>, tariff: Tariff, projectID: string, from: int, to: int)
    requires CleanMonth(steps, tariff, from, to) && KnownOwners(steps, from, to)
    ensures ChargedIn(steps, projectID, from, to) == CostSum(tariff, RecordsIn(After(steps), projectID, from, to))
  {
    ChargesFollowRecords(steps, tariff, projectID, from, to, true);
  }

  /** So it covers them whenever the project had no dedicated load balancer, whether or not the owners were known. */
  lemma WithoutBalancerMemoryBillCovers(steps: seq<Step>, tariff: Tariff, projectID: string, from: int, to: int)
    requires CleanMonth(steps, tariff, from, to) && NonnegativeTariff(tariff) && from <= to && NoBalancer(steps, projectID, from, to)
    ensures ChargedIn(steps, projectID, from, to) <= Bill(tariff, MemoryAggregate(After(steps).usage, projectID, from, to), from, to)
  {
    var rs := RecordsIn(After(steps), projectID, from, to);
    ChargesNeverExceedTheBill(steps, tariff, projectID, from, to);
    ChargesFollowRecords(steps, tariff, projectID, from, to, false);
    forall u | u in rs
      ensures u.dedicatedLBHours == 0.0
    {
      WithoutBalancerNoHours(u, steps, projectID, from, to);
    }
    NoHoursNoSum(rs);
    MemoryBillMissesLoadBalancer(tariff, After(steps).usage, projectID, from, to);
  }

  lemma WithoutBalancerNoHours(u: Usage, steps: seq<Step>, projectID: string, from: int, to: int)
    requires FromTick(u, steps, projectID, from, to) && NoBalancer(steps, projectID, from, to)
    ensures u.dedicatedLBHours == 0.0
  {
    var i :| 0 <= i < |steps| && Inside(steps[i], from, to) && ReadBy(u, steps[i].listing, steps[i].tick, projectID);
    var k :| 0 <= k < |steps[i].listing| && IsMetered(steps[i].listing[k], steps[i].tick) && steps[i].listing[k].id == projectID
             && u == UsageIn(steps[i].listing[k], steps[i].tick);
  }

  // ---------------------------------------------------------------- runs with one tick

  function OneTick(user: User, password: string, p: Project, tick: Tick): seq<Step> {
    [Registers(user, password), Collects([p], tick)]
  }

  lemma {:induction false} AfterTwo(first: Step, second: Step)
    ensures After([first, second][..1]) == Apply(NOTHING, first)
    ensures After([first, second]) == Apply(Apply(NOTHING, first), second)
  {
    assert [first, second][..1] == [first] && [first][..0] == [];
    assert After([]) == NOTHING;
    assert After([first]) == Apply(NOTHING, first);
  }

  lemma {:induction false} CollectedOne(b: Books, p: Project, tick: Tick)
    ensures CollectedAll(b, [p], tick) == Collected(b, p, tick)
  {
    assert [p][..0] == [] && CollectedAll(b, [], tick) == b;
  }

  predicate Payable(user: User, password: string, p: Project, tick: Tick) {
    && !IsBlank(user.email) && !IsBlank(password) && p.owner == user.id && IsMetered(p, tick)
    && ComputeUsageCost(tick.tariff, UsageIn(p, tick)) > 0.0
  }

  /** A user registers, and a tick meters the user's only project. */
  lemma {:induction false} AfterOneTick(user: User, password: string, p: Project, tick: Tick)
    requires Payable(user, password, p, tick)
    ensures After(OneTick(user, password, p, tick)).usage == [UsageIn(p, tick)]
    ensures Debit(After(OneTick(user, password, p, tick)[..1]), Collects([p], tick), p.id) == ComputeUsageCost(tick.tariff, UsageIn(p, tick))
  {
    var register := Registers(user, password);
    AfterTwo(register, Collects([p], tick));
    var b1 := Registered(NOTHING, user, password);
    CollectedOne(b1, p, tick);
    ChargeOfCollect(b1, p, tick, p.id);
    assert OneTick(user, password, p, tick)[..1] == [register] && [register][..0] == [];
  }

  lemma {:induction false} RecordsOfOneTick(user: User, password: string, p: Project, tick: Tick, from: int, to: int)
    requires Payable(user, password, p, tick)
    ensures RecordsIn(After(OneTick(user, password, p, tick)), p.id, from, to)
         == if from <= tick.start && tick.end <= to then [UsageIn(p, tick)] else []
  {
    AfterOneTick(user, password, p, tick);
    FilterAppends([], UsageIn(p, tick), InWindow(p.id, from, to));
    assert [] + [UsageIn(p, tick)] == [UsageIn(p, tick)];
  }

  lemma {:induction false} ChargedInTwo(first: Step, second: Step, projectID: string, from: int, to: int)
    requires !first.Collects?
    ensures ChargedIn([first, second], projectID, from, to)
         == if Inside(second, from, to) then Debit(After([first, second][..1]), second, projectID) else 0.0
  {
    assert [first, second][..1] == [first] && [first][..0] == [];
    assert ChargedIn([], projectID, from, to) == 0.0;
    assert ChargedIn([first], projectID, from, to) == 0.0;
  }

  lemma {:induction false} ChargedInOneTick(user: User, password: string, p: Project, tick: Tick, from: int, to: int)
    requires Payable(user, password, p, tick)
    ensures ChargedIn(OneTick(user, password, p, tick), p.id, from, to)
         == if from <= tick.start && tick.end <= to then ComputeUsageCost(tick.tariff, UsageIn(p, tick)) else 0.0
  {
    AfterOneTick(user, password, p, tick);
    ChargedInTwo(Registers(user, password), Collects([p], tick), p.id, from, to);
  }

  /** The project's only use is its dedicated load balancer. */
  predicate OnlyBalances(p: Project, tick: Tick) {
    && p.status == Active && UsesBalancer(p) && tick.start < tick.end && tick.tariff.dedicatedLBHour > 0.0
    && tick.snapshots == map[p.id := ResourceSnapshot(0.0, 0.0, 0.0, 0.0)]
  }

  lemma {:induction false} BalancerUsage(p: Project, tick: Tick)
    requires OnlyBalances(p, tick)
    ensures IsMetered(p, tick)
    ensures UsageIn(p, tick) == Usage(p.id, tick.start, tick.end, 0.0, 0.0, 0.0, 0.0, Hours(tick.end - tick.start))
  {
  }

  lemma PricedHours(t: Tariff, u: Usage)
    requires u == Usage(u.projectID, u.periodStart, u.periodEnd, 0.0, 0.0, 0.0, 0.0, Hours(u.periodEnd - u.periodStart))
    requires u.periodStart < u.periodEnd && t.dedicatedLBHour > 0.0
    ensures ComputeUsageCost(t, u) > 0.0
  {
    SignOfProduct(u.dedicatedLBHours, t.dedicatedLBHour);
  }

  lemma {:induction false} PayableIsCharged(user: User, password: string, p: Project, tick: Tick)
    requires Payable(user, password, p, tick)
    ensures ChargedIn(OneTick(user, password, p, tick), p.id, tick.start, tick.end) > 0.0
  {
    ChargedInOneTick(user, password, p, tick, tick.start, tick.end);
  }

  lemma {:induction false} BalancerIsPayable(user: User, password: string, p: Project, tick: Tick)
    requires !IsBlank(user.email) && !IsBlank(password) && p.owner == user.id && OnlyBalances(p, tick)
    ensures Payable(user, password, p, tick)
  {
    BalancerUsage(p, tick);
    PricedHours(tick.tariff, UsageIn(p, tick));
  }

  lemma {:induction false} BalancerBill(user: User, password: string, p: Project, tick: Tick)
    requires OnlyBalances(p, tick) && Payable(user, password, p, tick)
    ensures Bill(tick.tariff, MemoryAggregate(After(OneTick(user, password, p, tick)).usage, p.id, tick.start, tick.end), tick.start, tick.end) == 0.0
  {
    BalancerUsage(p, tick);
    RecordsOfOneTick(user, password, p, tick, tick.start, tick.end);
    BilledAtNothing(tick.tariff, After(OneTick(user, password, p, tick)).usage, UsageIn(p, tick));
  }

  /** A run that charges a project for nothing but its dedicated load balancer, and memory bills nothing for it. */
  lemma {:induction false} BalancerIsNotBilled(user: User, password: string, p: Project, tick: Tick)
    requires !IsBlank(user.email) && !IsBlank(password) && p.owner == user.id && OnlyBalances(p, tick)
    ensures var steps := OneTick(user, password, p, tick);
      && ChargedIn(steps, p.id, tick.start, tick.end) > 0.0
      && Bill(tick.tariff, MemoryAggregate(After(steps).usage, p.id, tick.start, tick.end), tick.start, tick.end) == 0.0
  {
    BalancerIsPayable(user, password, p, tick);
    PayableIsCharged(user, password, p, tick);
    BalancerBill(user, password, p, tick);
  }

  /** A window over the turn of the month is charged, and is in neither month's bill. */
  lemma {:induction false} StraddlingWindowIsNotBilled(user: User, password: string, p: Project, tick: Tick, from: int, turn: int, to: int)
    requires Payable(user, password, p, tick) && from <= tick.start < turn < tick.end <= to
    ensures var steps := OneTick(user, password, p, tick); var usage := After(steps).usage;
      && ChargedIn(steps, p.id, from, to) > 0.0
      && Bill(tick.tariff, SqlAggregate(usage, p.id, from, turn), from, turn) == 0.0
      && Bill(tick.tariff, SqlAggregate(usage, p.id, turn, to), turn, to) == 0.0
  {
    ChargedInOneTick(user, password, p, tick, from, to);
    RecordsOfOneTick(user, password, p, tick, from, turn);
    RecordsOfOneTick(user, password, p, tick, turn, to);
  }

  // ---------------------------------------------------------------- charges of two months

  predicate Straddles(step: Step, from: int, turn: int, to: int) {
    Inside(step, from, to) && step.tick.start < turn < step.tick.end
  }

  /** What a project is charged for windows over the turn of the month. */
  function ChargedAcross(steps: seq<Step>, projectID: string, from: int, turn: int, to: int): real {
    if steps == [] then 0.0
    else
      var front, last := steps[..|steps| - 1], steps[|steps| - 1];
      ChargedAcross(front, projectID, from, turn, to) + if Straddles(last, from, turn, to) then Debit(After(front), last, projectID) else 0.0
  }

  /** The interval between ticks is positive. */
  predicate ProperWindows(steps: seq<Step>) {
    forall i :: 0 <= i < |steps| && steps[i].Collects? ==> steps[i].tick.start < steps[i].tick.end
  }

  /** The charges of two months are those of each, and those over the turn between them. */
  lemma {:induction false} TwoMonthsSplit(steps: seq<Step>, projectID: string, from: int, turn: int, to: int)
    requires from <= turn <= to && ProperWindows(steps)
    ensures ChargedIn(steps, projectID, from, to)
         == ChargedIn(steps, projectID, from, turn) + ChargedIn(steps, projectID, turn, to) + ChargedAcross(steps, projectID, from, turn, to)
  {
    if steps != [] {
      var front := steps[..|steps| - 1];
      assert forall i :: 0 <= i < |front| ==> front[i] == steps[i];
      TwoMonthsSplit(front, projectID, from, turn, to);
      assert steps[|steps| - 1].Collects? ==> steps[|steps| - 1].tick.start < steps[|steps| - 1].tick.end;
    }
  }

  /**
   Two months together are covered by their bills exactly if the charges over the turn are no more than what both
   months bill for storage above its charges.
   */
  lemma TwoBillsCoverIff(steps: seq<Step>, tariff: Tariff, projectID: string, from: int, turn: int, to: int)
    requires from <= turn <= to && ProperWindows(steps)
    requires CleanMonth(steps, tariff, from, turn) && CleanMonth(steps, tariff, turn, to)
    requires KnownOwners(steps, from, turn) && KnownOwners(steps, turn, to)
    ensures ChargedIn(steps, projectID, from, to)
              <= Bill(tariff, SqlAggregate(After(steps).usage, projectID, from, turn), from, turn)
               + Bill(tariff, SqlAggregate(After(steps).usage, projectID, turn, to), turn, to)
       <==> ChargedAcross(steps, projectID, from, turn, to)
              <= StorageSlack(tariff, RecordsIn(After(steps), projectID, from, turn), turn - from)
               + StorageSlack(tariff, RecordsIn(After(steps), projectID, turn, to), to - turn)
  {
    TwoMonthsSplit(steps, projectID, from, turn, to);
    ChargesAreCosts(steps, tariff, projectID, from, turn);
    ChargesAreCosts(steps, tariff, projectID, turn, to);
    OnlyStorageDiffers(tariff, RecordsIn(After(steps), projectID, from, turn), from, turn);
    OnlyStorageDiffers(tariff, RecordsIn(After(steps), projectID, turn, to), turn, to);
  }

  // ---------------------------------------------------------------- charges and the journal

  lemma OtherStepsTakeNothing(b: Books, step: Step, projectID: string)
    requires !step.Collects? && projectID != ""
    ensures Debit(b, step, projectID) == 0.0
  {
    match step
    case TopsUp(id, amount, at) => SumOneMore(b.txs, Transaction(id, "", TopUp, amount, at), ChargesFor(projectID));
    case Notifies(yooKassaID, at) =>
      var k := FirstPayment(b.payments, yooKassaID);
      if k < |b.payments| {
        SumOneMore(b.txs, Transaction(b.payments[k].userID, "", TopUp, b.payments[k].amount, at), ChargesFor(projectID));
      }
    case _ =>
  }

  /** When all windows lie between the two times the charges are all that the journal holds against the project. */
  lemma {:induction false} JournalIsCharged(steps: seq<Step>, projectID: string, from: int, to: int)
    requires projectID != "" && forall i :: 0 <= i < |steps| && steps[i].Collects? ==> Inside(steps[i], from, to)
    ensures ChargedIn(steps, projectID, from, to) == -Sum(After(steps).txs, ChargesFor(projectID))
  {
    if steps != [] {
      var front, last := steps[..|steps| - 1], steps[|steps| - 1];
      assert forall i :: 0 <= i < |front| ==> front[i] == steps[i];
      JournalIsCharged(front, projectID, from, to);
      if !last.Collects? {
        OtherStepsTakeNothing(After(front), last, projectID);
      }
    }
  }
}
