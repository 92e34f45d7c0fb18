/** The stores of money and the services that move it, as they run. */
module LedgerService {
  import opened Wrappers
  import opened Sequences
  import opened Text
  import opened Users
  import opened Projects
  import opened Metering
  import opened Ledger
  import opened Charging

  class BillingTransactionStore {
    var records: seq<Transaction>

    constructor ()
      ensures records == []
    {
      records := [];
    }

    method Record(tx: Transaction)
      modifies this
      ensures records == old(records) + [tx]
    {
      records := records + [tx];
    }

    method ListByUser(userID: string) returns (result: seq<Transaction>)
      ensures result == Filter(records, OfUser(userID))
    {
      result := [];
      for i := 0 to |records|
        invariant result == Filter(records[..i], OfUser(userID))
      {
        FilterStep(records, i, OfUser(userID));
        if records[i].userID == userID {
          result := result + [records[i]];
        }
      }
      assert records[..|records|] == records;
    }
  }

  /** The loop of calculateUserRefunds over the user's transactions. */
  method CalculateUserRefunds(txStore: BillingTransactionStore, userID: string) returns (refund: real)
    ensures refund == Sum(txStore.records, RefundsOf(userID))
  {
    var txs := txStore.ListByUser(userID);
    refund := 0.0;
    for i := 0 to |txs|
      invariant refund == Sum(txs[..i], RefundsOf(userID))
    {
      assert txs[..i + 1][..i] == txs[..i];
      FilterKeeps(txStore.records, OfUser(userID));
      assert txs[i] in txs;
      if txs[i].kind == Refund && txs[i].amount > 0.0 {
        refund := refund + txs[i].amount;
      }
    }
    assert txs[..|txs|] == txs;
    SumOverFilter(txStore.records, OfUser(userID), RefundsOf(userID));
  }

  /** What one more entry adds to the refunds of a user: its amount if it is a refund of that user, and positive. */
  lemma RefundOneMore(txs: seq<Transaction>, tx: Transaction, userID: string)
    ensures Sum([], RefundsOf(userID)) == 0.0
    ensures Sum(txs + [tx], RefundsOf(userID))
         == Sum(txs, RefundsOf(userID)) + if tx.userID == userID && tx.kind == Refund && tx.amount > 0.0 then tx.amount else 0.0
  {
    SumOneMore(txs, tx, RefundsOf(userID));
  }

  lemma {:induction false} SumOverFilter(txs: seq<Transaction>, keep: Transaction -> bool, which: Transaction -> bool)
    requires forall tx: Transaction :: which(tx) ==> keep(tx)
    ensures Sum(Filter(txs, keep), which) == Sum(txs, which)
  {
    if txs != [] {
      var front, last := txs[..|txs| - 1], txs[|txs| - 1];
      SumOverFilter(front, keep, which);
      SumOneMore(Filter(front, keep), last, which);
    }
  }

  class YooKassaPaymentStore {
    var payments: seq<Payment>

    constructor ()
      ensures payments == []
    {
      payments := [];
    }

    method Create(p: Payment)
      modifies this
      ensures payments == old(payments) + [p]
    {
      payments := payments + [p];
    }

    method GetByYooKassaID(yooKassaID: string) returns (payment: Option<Payment>)
      ensures var k := FirstPayment(payments, yooKassaID);
        payment == if k < |payments| then Some(payments[k]) else None
    {
      for i := 0 to |payments|
        invariant i <= FirstPayment(payments, yooKassaID)
      {
        if payments[i].yooKassaID == yooKassaID {
          return Some(payments[i]);
        }
      }
      payment := None;
    }

    method MarkSucceeded(yooKassaID: string)
      modifies this
      ensures payments == Marked(old(payments), yooKassaID)
    {
      for i := 0 to |payments|
        invariant payments == old(payments)
        invariant i <= FirstPayment(payments, yooKassaID)
      {
        if payments[i].yooKassaID == yooKassaID {
          payments := payments[i := payments[i].(status := PaymentSucceeded)];
          return;
        }
      }
    }
  }

  class MoneyService {
    const users: UserStore
    const txStore: BillingTransactionStore
    const paymentStore: YooKassaPaymentStore
    const usageStore: UsageStore

    constructor (users: UserStore, txStore: BillingTransactionStore, paymentStore: YooKassaPaymentStore, usageStore: UsageStore)
      ensures this.users == users && this.txStore == txStore
      ensures this.paymentStore == paymentStore && this.usageStore == usageStore
    {
      this.users, this.txStore, this.paymentStore, this.usageStore := users, txStore, paymentStore, usageStore;
    }

    ghost function View(): Books
      reads this, users, txStore, paymentStore, usageStore
    {
      Books(users.View(), txStore.records, paymentStore.payments, usageStore.records)
    }

    /** `user` is the record that the service builds, with a new id and the default balance. */
    method Register(user: User, password: string) returns (ok: bool)
      modifies users
      ensures View() == Registered(old(View()), user, password)
      ensures ok <==> !IsBlank(user.email) && !IsBlank(password) && user.email !in old(users.byEmail)
      ensures users.byID == if ok then old(users.byID)[user.id := user] else old(users.byID)
      ensures users.byEmail == if ok then old(users.byEmail)[user.email := user] else old(users.byEmail)
    {
      if IsBlank(user.email) || IsBlank(password) {
        return false;
      }
      var existing := users.GetByEmail(user.email);
      if existing.Some? {
        return false;
      }
      ok := users.Create(user);
    }

    method TopUpBalance(userID: string, amount: real, now: int) returns (ok: bool)
      modifies users, txStore
      ensures View() == ToppedUp(old(View()), userID, amount, now)
      ensures ok == TopUpAdmitted(old(View()), userID, amount)
      ensures ok <==> amount > 0.0 && userID in old(users.byID)
      ensures users.byID == if ok then old(users.byID)[userID := old(users.byID)[userID].(balance := old(users.byID)[userID].balance + amount)]
                            else old(users.byID)
      ensures txStore.records == old(txStore.records) + (if ok then [Transaction(userID, "", TopUp, amount, now)] else [])
    {
      if amount <= 0.0 {
        return false;
      }
      var user := users.GetByID(userID);
      if user.None? {
        return false;
      }
      ok := users.UpdateBalance(userID, user.value.balance + amount);
      txStore.Record(Transaction(userID, "", TopUp, amount, now));
    }

    /** `gateway` is the answer of the payment gateway: the id of the created payment, or a failure. */
    method InitiateTopUp(userID: string, amount: real, gateway: Option<string>) returns (ok: bool)
      modifies paymentStore
      ensures View() == Initiated(old(View()), userID, amount, gateway)
      ensures ok <==> amount >= 1.0 && gateway.Some?
      ensures paymentStore.payments == old(paymentStore.payments) + (if ok then [Payment(gateway.value, userID, amount, PaymentPending)] else [])
    {
      if amount < 1.0 {
        return false;
      }
      if gateway.None? {
        return false;
      }
      paymentStore.Create(Payment(gateway.value, userID, amount, PaymentPending));
      ok := true;
    }

    method HandleYooKassaWebhook(yooKassaID: string, now: int) returns (ok: bool)
      modifies users, txStore, paymentStore
      ensures View() == Notified(old(View()), yooKassaID, now)
      ensures var k := FirstPayment(old(paymentStore.payments), yooKassaID);
        ok <==> (k < |paymentStore.payments| && old(paymentStore.payments)[k].status != PaymentSucceeded ==>
                   TopUpAdmitted(old(View()), old(paymentStore.payments)[k].userID, old(paymentStore.payments)[k].amount))
    {
      var payment := paymentStore.GetByYooKassaID(yooKassaID);
      if payment.None? {
        return true;
      }
      if payment.value.status == PaymentSucceeded {
        return true;
      }
      paymentStore.MarkSucceeded(yooKassaID);
      ok := TopUpBalance(payment.value.userID, payment.value.amount, now);
    }

    /** The loop of collectAndStoreUsage over one listing of the project store. */
    method CollectAndStoreUsage(store: ProjectStore, tick: Tick) returns (ghost listing: seq<Project>)
      requires Keyed(store.projects)
      modifies users, txStore, usageStore
      ensures IsListing(listing, store.projects)
      ensures View() == CollectedAll(old(View()), listing, tick)
      ensures forall u :: u in old(users.byID) ==>
        u in users.byID && users.byID[u] == old(users.byID)[u].(balance := old(users.byID)[u].balance - DueFrom(u, listing, tick))
    {
      ghost var start := View();
      var projects := store.List();
      listing := projects;
      for i := 0 to |projects|
        invariant View() == CollectedAll(start, projects[..i], tick)
      {
        var p := projects[i];
        assert projects[..i + 1][..i] == projects[..i];
        if p.status != Active {
          continue;
        }
        if p.id !in tick.snapshots {
          continue;
        }
        Charge(p, tick);
      }
      assert projects[..|projects|] == projects;
      forall u | u in start.users.byID
        ensures u in users.byID && users.byID[u] == start.users.byID[u].(balance := start.users.byID[u].balance - DueFrom(u, listing, tick))
      {
        TickTakes(start, listing, tick, u);
      }
    }

    method Charge(p: Project, tick: Tick)
      requires IsMetered(p, tick)
      modifies users, txStore, usageStore
      ensures View() == Collected(old(View()), p, tick)
      ensures p.owner in old(users.byID) ==>
        p.owner in users.byID && users.byID[p.owner].balance == old(users.byID)[p.owner].balance - Due(p, tick)
      ensures txStore.records == old(txStore.records)
        + (if Due(p, tick) > 0.0 && p.owner in old(users.byID)
           then [Transaction(p.owner, p.id, TransactionType.Charge, -Due(p, tick), tick.end)] else [])
    {
      ProjectIsCharged(View(), p, tick);
      var usage := UsageIn(p, tick);
      usageStore.Record(usage);
      var cost := ComputeUsageCost(tick.tariff, usage);
      if cost <= 0.0 {
        return;
      }
      var user := users.GetByID(p.owner);
      if user.None? {
        return;
      }
      var updated := users.UpdateBalance(p.owner, user.value.balance - cost);
      txStore.Record(Transaction(p.owner, p.id, TransactionType.Charge, -cost, tick.end));
    }
  }
}
