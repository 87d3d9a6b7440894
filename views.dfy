/**
 * The three record-changing request handlers the model covers: activating a
 * service, verifying a building manager and paying a subscription. Each handler is
 * given as a step function on a snapshot of the tables it touches, and the
 * `Store` class runs the same steps on mutable state.
 */
module Views {
  import opened Wrappers
  import opened Records
  import opened Payments
  import Wallets

  /** The subscriptions table, which none of these handlers writes. */
  type Subscriptions = map<SubscriptionId, Subscription>

  /** The tables the handlers write. */
  datatype Db = Db(
    payments: seq<Payment>,
    services: map<ServiceId, Service>,
    managers: map<ManagerId, BuildingManager>)

  /** A request, with the fields each handler reads from it. */
  datatype Request =
    | ActivateService(service: ServiceId)
    | VerifyManager(manager: ManagerId, isPost: bool)
    | PaySubscription(user: UserId, subscription: SubscriptionId, receipt: string, isPost: bool)

  datatype Response =
    | ServiceActivated
    | ManagerVerified
    | SubscriptionPaid
      /** The handler rendered its form instead of acting (a request that is not a POST). */
    | FormPage
      /** `get_object_or_404` found no row. */
    | Http404
      /** `Subscription.objects.get` raised `DoesNotExist`. */
    | SubscriptionMissing
      /** The unique constraint on `receipt_number` refused the insert. */
    | DuplicateReceipt
  {
    predicate Succeeded() {
      ServiceActivated? || ManagerVerified? || SubscriptionPaid?
    }
  }

  datatype Outcome = Outcome(db: Db, response: Response)

  /** `activate_service`: sets the flag whatever the request method. */
  function ActivateServiceStep(db: Db, id: ServiceId): Outcome {
    if id !in db.services then Outcome(db, Http404)
    else
      var s := db.services[id];
      Outcome(db.(services := db.services[id := s.(isActive := true)]), ServiceActivated)
  }

  /** `verify_manager`: the lookup comes first, then only a POST sets the flag. */
  function VerifyManagerStep(db: Db, id: ManagerId, isPost: bool): Outcome {
    if id !in db.managers then Outcome(db, Http404)
    else if !isPost then Outcome(db, FormPage)
    else
      var m := db.managers[id];
      Outcome(db.(managers := db.managers[id := m.(verified := true)]), ManagerVerified)
  }

  /**
   * `pay_subscription`: on a POST, looks the subscription up and records a
   * payment of its amount for the requesting user under the given receipt.
   */
  function PaySubscriptionStep(subs: Subscriptions, db: Db, user: UserId,
                               sid: SubscriptionId, receipt: string, isPost: bool): Outcome {
    if !isPost then Outcome(db, FormPage)
    else if sid !in subs then Outcome(db, SubscriptionMissing)
    else
      match Insert(db.payments, Payment(user, subs[sid].amount, receipt))
      case None => Outcome(db, DuplicateReceipt)
      case Some(rows) => Outcome(db.(payments := rows), SubscriptionPaid)
  }

  /** A payment whose amount is the amount of some subscription. */
  ghost predicate PaidForSubscription(subs: Subscriptions, p: Payment) {
    exists sid :: sid in subs && subs[sid].amount == p.amount
  }

  /** A service either untouched or with only its active flag set. */
  ghost predicate ActivatedOrSame(s: Service, t: Service) {
    t == s || t == s.(isActive := true)
  }

  /** A manager either untouched or with only its verified flag set. */
  ghost predicate VerifiedOrSame(m: BuildingManager, n: BuildingManager) {
    n == m || n == m.(verified := true)
  }

  /**
   * How the handlers can move the tables from `a` to `b`: payments are only
   * appended, each new one for the amount of some subscription; no service or
   * manager is created or removed; a service only gains `isActive` and a
   * manager only gains `verified`, every other field staying as it was.
   */
  ghost predicate Evolves(subs: Subscriptions, a: Db, b: Db) {
    && a.payments <= b.payments
    && (forall i :: |a.payments| <= i < |b.payments| ==> PaidForSubscription(subs, b.payments[i]))
    && a.services.Keys == b.services.Keys
    && (forall id :: id in a.services ==> ActivatedOrSame(a.services[id], b.services[id]))
    && a.managers.Keys == b.managers.Keys
    && (forall id :: id in a.managers ==> VerifiedOrSame(a.managers[id], b.managers[id]))
  }

  /**
   * One request: every response other than a success leaves the tables as
   * they were, every step is an evolution, and receipts stay unique.
   */
  function Handle(subs: Subscriptions, db: Db, req: Request): (o: Outcome)
    ensures !o.response.Succeeded() ==> o.db == db
    ensures Evolves(subs, db, o.db)
    ensures UniqueReceipts(db.payments) ==> UniqueReceipts(o.db.payments)
  {
    match req
    case ActivateService(id) => ActivateServiceStep(db, id)
    case VerifyManager(id, isPost) => VerifyManagerStep(db, id, isPost)
    case PaySubscription(user, sid, receipt, isPost) =>
      PaySubscriptionStep(subs, db, user, sid, receipt, isPost)
  }

  /** The tables after serving the requests one after another. */
  function Replay(subs: Subscriptions, db: Db, reqs: seq<Request>): Db
    decreases |reqs|
  {
    if reqs == [] then db else Replay(subs, Handle(subs, db, reqs[0]).db, reqs[1..])
  }

  lemma EvolvesTransitive(subs: Subscriptions, a: Db, b: Db, c: Db)
    requires Evolves(subs, a, b) && Evolves(subs, b, c)
    ensures Evolves(subs, a, c)
  {
  }

  /**
   * Whatever requests are served, in whatever order, the tables only evolve
   * and the receipt numbers stay unique.
   */
  lemma {:induction false} ReplayEvolves(subs: Subscriptions, db: Db, reqs: seq<Request>)
    ensures Evolves(subs, db, Replay(subs, db, reqs))
    ensures UniqueReceipts(db.payments) ==> UniqueReceipts(Replay(subs, db, reqs).payments)
    decreases |reqs|
  {
    if reqs != [] {
      var next := Handle(subs, db, reqs[0]).db;
      ReplayEvolves(subs, next, reqs[1..]);
      EvolvesTransitive(subs, db, next, Replay(subs, next, reqs[1..]));
    }
  }

  /**
   * With a known subscription and an unused receipt, paying appends exactly
   * one payment, of the subscription's amount, for the requesting user, and
   * changes nothing else.
   */
  lemma PaySubscriptionRecordsPayment(subs: Subscriptions, db: Db, user: UserId,
                                      sid: SubscriptionId, receipt: string)
    requires sid in subs && receipt !in Receipts(db.payments)
    ensures Handle(subs, db, PaySubscription(user, sid, receipt, true))
         == Outcome(db.(payments := db.payments + [Payment(user, subs[sid].amount, receipt)]),
                    SubscriptionPaid)
  {
  }

  /** Paying under a receipt number already in use fails and adds nothing. */
  lemma PaySubscriptionDuplicateReceipt(subs: Subscriptions, db: Db, user: UserId,
                                        sid: SubscriptionId, receipt: string)
    requires sid in subs && receipt in Receipts(db.payments)
    ensures Handle(subs, db, PaySubscription(user, sid, receipt, true)) == Outcome(db, DuplicateReceipt)
  {
  }

  /**
   * Nothing records that a subscription was paid: paying it twice under two
   * fresh receipts succeeds twice and leaves two separate payments.
   */
  lemma PaySameSubscriptionTwice(subs: Subscriptions, db: Db, user: UserId,
                                 sid: SubscriptionId, r1: string, r2: string)
    requires sid in subs && r1 != r2
    requires r1 !in Receipts(db.payments) && r2 !in Receipts(db.payments)
    ensures var first := Handle(subs, db, PaySubscription(user, sid, r1, true));
            var second := Handle(subs, first.db, PaySubscription(user, sid, r2, true));
            && first.response == SubscriptionPaid && second.response == SubscriptionPaid
            && second.db.payments
               == db.payments + [Payment(user, subs[sid].amount, r1), Payment(user, subs[sid].amount, r2)]
  {
  }

  /**
   * Activating a known service sets its flag, leaves its other fields, the
   * other services and the other tables alone, and doing it again changes
   * nothing further.
   */
  lemma ActivateServiceIdempotent(subs: Subscriptions, db: Db, id: ServiceId)
    requires id in db.services
    ensures var o := Handle(subs, db, ActivateService(id));
            && o.response == ServiceActivated
            && o.db.services == db.services[id := db.services[id].(isActive := true)]
            && o.db.payments == db.payments && o.db.managers == db.managers
            && Handle(subs, o.db, ActivateService(id)) == o
  {
  }

  /**
   * A POST to `verify_manager` sets `verified` on that manager only, keeping
   * its user, its building and its administrator approval.
   */
  lemma VerifyManagerKeepsApproval(subs: Subscriptions, db: Db, id: ManagerId)
    requires id in db.managers
    ensures var o := Handle(subs, db, VerifyManager(id, true));
            && o.response == ManagerVerified
            && o.db.managers[id].verified
            && o.db.managers[id].approvedByAdmin == db.managers[id].approvedByAdmin
            && o.db.managers[id].building == db.managers[id].building
            && o.db.managers[id].user == db.managers[id].user
            && (forall other :: other in db.managers && other != id ==> o.db.managers[other] == db.managers[other])
            && o.db.payments == db.payments && o.db.services == db.services
  {
  }

  /** The application's stored state, updated in place by the handlers. */
  class Store {
    const subscriptions: Subscriptions
    const wallets: map<UserId, Wallets.Wallet>
    const ledger: PaymentLedger
    var services: map<ServiceId, Service>
    var managers: map<ManagerId, BuildingManager>

    ghost predicate Valid()
      reads this, ledger
    {
      ledger.Valid()
    }

    /** The tables the handlers write, as a value. */
    function Snapshot(): Db
      reads this, ledger
    {
      Db(ledger.rows, services, managers)
    }

    constructor (subscriptions: Subscriptions, wallets: map<UserId, Wallets.Wallet>,
                 payments: seq<Payment>, services: map<ServiceId, Service>,
                 managers: map<ManagerId, BuildingManager>)
      requires UniqueReceipts(payments)
      ensures Valid() && fresh(ledger)
      ensures this.subscriptions == subscriptions && this.wallets == wallets
      ensures Snapshot() == Db(payments, services, managers)
    {
      this.subscriptions := subscriptions;
      this.wallets := wallets;
      this.ledger := new PaymentLedger(payments);
      this.services := services;
      this.managers := managers;
    }

    method ActivateService(id: ServiceId) returns (response: Response)
      requires Valid()
      modifies this`services
      ensures Valid()
      ensures Outcome(Snapshot(), response) == Handle(subscriptions, old(Snapshot()), Request.ActivateService(id))
      ensures id in old(services) ==>
                response == ServiceActivated
                && services == old(services)[id := old(services)[id].(isActive := true)]
      ensures id !in old(services) ==> response == Http404 && services == old(services)
    {
      if id !in services {
        return Http404;
      }
      var service := services[id];
      services := services[id := service.(isActive := true)];
      response := ServiceActivated;
    }

    method VerifyManager(id: ManagerId, isPost: bool) returns (response: Response)
      requires Valid()
      modifies this`managers
      ensures Valid()
      ensures Outcome(Snapshot(), response) == Handle(subscriptions, old(Snapshot()), Request.VerifyManager(id, isPost))
      ensures id in old(managers) && isPost ==>
                response == ManagerVerified
                && managers == old(managers)[id := old(managers)[id].(verified := true)]
      ensures !(id in old(managers) && isPost) ==> managers == old(managers)
    {
      if id !in managers {
        return Http404;
      }
      if !isPost {
        return FormPage;
      }
      var manager := managers[id];
      managers := managers[id := manager.(verified := true)];
      response := ManagerVerified;
    }

    method PaySubscription(user: UserId, sid: SubscriptionId, receipt: string, isPost: bool)
      returns (response: Response)
      requires Valid()
      modifies ledger
      ensures Valid()
      ensures Outcome(Snapshot(), response)
           == Handle(subscriptions, old(Snapshot()), Request.PaySubscription(user, sid, receipt, isPost))
      ensures response == SubscriptionPaid <==>
                isPost && sid in subscriptions && receipt !in old(Receipts(ledger.rows))
      ensures response == SubscriptionPaid ==>
                ledger.rows == old(ledger.rows) + [Payment(user, subscriptions[sid].amount, receipt)]
      ensures response != SubscriptionPaid ==> ledger.rows == old(ledger.rows)
      ensures forall u :: u in wallets ==>
                wallets[u].balance == old(wallets[u].balance) && wallets[u].isLocked == old(wallets[u].isLocked)
    {
      if !isPost {
        return FormPage;
      }
      if sid !in subscriptions {
        return SubscriptionMissing;
      }
      var subscription := subscriptions[sid];
      var ok := ledger.Create(Payment(user, subscription.amount, receipt));
      response := if ok then SubscriptionPaid else DuplicateReceipt;
    }
  }
}
