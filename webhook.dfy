/**
 * The payment-event receiver: it checks that the store is available, checks
 * the provider's signature when signing keys are configured, and dispatches
 * the event by type to one of four handlers that update a `users` row and
 * append to `transactions`.
 */
module Webhook {
  import opened Wrappers
  import opened Ledger

  /** A `PLANS` entry: the credit grant and the tier it sets. */
  datatype Plan = Plan(credits: int, tier: string)

  /** The grant value that marks a plan as unlimited. */
  const UNLIMITED := -1

  /** The balance an unlimited plan stores instead of a real count. */
  const UNLIMITED_BALANCE := 999999

  /** `PLANS[key]`: exactly the keys "premium" and "vip" resolve. */
  function PlanNamed(key: Option<string>): (p: Option<Plan>)
    ensures p.Some? <==> key == Some("premium") || key == Some("vip")
    ensures p.Some? ==> p.value.tier == key.value
    ensures p == Some(Plan(UNLIMITED, "vip")) <==> key == Some("vip")
    ensures key == Some("premium") ==> p == Some(Plan(50, "premium"))
  {
    if key == Some("premium") then Some(Plan(50, "premium"))
    else if key == Some("vip") then Some(Plan(UNLIMITED, "vip"))
    else None
  }

  /** A string field that JavaScript treats as true: present and non-empty. */
  predicate Present(s: Option<string>) {
    s.Some? && s.value != ""
  }

  /** Session metadata as the handler reads it: `credits` is the result of `parseInt`, `None` for NaN. */
  datatype Metadata = Metadata(planId: Option<string>, credits: Option<int>)

  /** The fields of a checkout session the handler reads; absent metadata is `Metadata(None, None)`. */
  datatype Session = Session(
    id: string,
    metadata: Metadata,
    customerEmail: Option<string>,
    detailsEmail: Option<string>,
    customer: Option<string>,
    amountTotal: int,
    currency: Option<string>)

  /** A subscription object; `periodEnd` is `current_period_end` in seconds, `None` when absent. */
  datatype Subscription = Subscription(customer: string, status: string, periodEnd: Option<int>)

  datatype Invoice = Invoice(id: string, billingReason: string, customer: string, amountPaid: int, currency: string)

  /**
   * A parsed event. The constructor, not a string, carries the event's
   * `type`: the four handled types have their own constructors, and
   * `OtherEvent(kind)` stands for a type outside `HANDLED_TYPES`.
   */
  datatype Event =
    | CheckoutEvent(session: Session)                      // "checkout.session.completed"
    | SubscriptionUpdatedEvent(subscription: Subscription) // "customer.subscription.updated"
    | SubscriptionDeletedEvent(subscription: Subscription) // "customer.subscription.deleted"
    | InvoicePaidEvent(invoice: Invoice)                   // "invoice.paid"
    | OtherEvent(kind: string)                             // any other type

  /** The `case` labels of the route's `switch (event.type)`. */
  const HANDLED_TYPES: set<string> :=
    {"checkout.session.completed", "customer.subscription.updated", "customer.subscription.deleted", "invoice.paid"}

  /** `customer_email || customer_details?.email`, and nothing when both are missing or empty. */
  function CustomerEmail(s: Session): (e: Option<string>)
    ensures e.Some? <==> Present(s.customerEmail) || Present(s.detailsEmail)
    ensures e.Some? ==> e.value != "" && (e == s.customerEmail || e == s.detailsEmail)
    ensures Present(s.customerEmail) ==> e == s.customerEmail
  {
    if Present(s.customerEmail) then s.customerEmail
    else if Present(s.detailsEmail) then s.detailsEmail
    else None
  }

  /** `PLANS[planId] || { credits: parseInt(credits) || 0, tier: 'free' }`. */
  function ResolvePlan(md: Metadata): (p: Plan)
    ensures PlanNamed(md.planId).Some? ==> p == PlanNamed(md.planId).value
    ensures PlanNamed(md.planId).None? ==> p == Plan(md.credits.GetOr(0), "free")
  {
    match PlanNamed(md.planId)
    case Some(plan) => plan
    case None => Plan(md.credits.GetOr(0), "free")
  }

  /** The balance after a grant: unlimited plans store the sentinel, others add to the old balance. */
  function NewBalance(balance: int, p: Plan): int {
    if p.credits == UNLIMITED then UNLIMITED_BALANCE else balance + p.credits
  }

  /** The `credits_purchased` column: unlimited grants are recorded as 0. */
  function Purchased(p: Plan): int {
    if p.credits == UNLIMITED then 0 else p.credits
  }

  /** `session.currency || 'usd'`. */
  function SessionCurrency(s: Session): string {
    if Present(s.currency) then s.currency.value else "usd"
  }

  /** The columns a completed checkout writes. */
  function Activated(u: User, p: Plan, customer: Option<string>): User {
    u.(tier := p.tier, status := "active", customerId := customer, credits := NewBalance(u.credits, p))
  }

  /** The user a checkout applies to: the single user with the session's email. */
  ghost function CheckoutUser(d: Db, s: Session): (r: Option<UserId>)
    ensures r.None? <==> CustomerEmail(s).None? || |WithEmail(d.users, CustomerEmail(s).value)| != 1
    ensures r.Some? ==> r.value in d.users && Some(d.users[r.value].email) == CustomerEmail(s)
  {
    var email := CustomerEmail(s);
    if email.None? then None else Single(WithEmail(d.users, email.value))
  }

  /** `handleCheckoutComplete`. */
  ghost function CheckoutCompleted(d: Db, s: Session): Db {
    match CheckoutUser(d, s)
    case None => d
    case Some(id) =>
      var p := ResolvePlan(s.metadata);
      d.(users := d.users[id := Activated(d.users[id], p, s.customer)],
         transactions := d.transactions
           + [Transaction(id, s.amountTotal, SessionCurrency(s), Purchased(p), s.id, "completed")])
  }

  /** What a handler yields: the new store, or an exception that ends the request with 500. */
  datatype Outcome = Done(db: Db) | Threw

  /** The largest `current_period_end`, in seconds, whose `Date` can still be formatted (8.64e15 ms). */
  const MAX_TIME_SECONDS := 8_640_000_000_000

  /** `new Date(t * 1000).toISOString()` succeeds: the field is present and within the time range. */
  predicate Formattable(t: Option<int>) {
    t.Some? && -MAX_TIME_SECONDS <= t.value <= MAX_TIME_SECONDS
  }

  /** `handleSubscriptionUpdate`: the formatting of the expiry throws before anything is written. */
  ghost function SubscriptionUpdated(d: Db, sub: Subscription): Outcome {
    match Single(WithCustomer(d.users, sub.customer))
    case None => Done(d)
    case Some(id) =>
      if !Formattable(sub.periodEnd) then Threw
      else Done(d.(users := d.users[id := d.users[id].(status := sub.status, expiresAt := sub.periodEnd)]))
  }

  /** `handleSubscriptionCanceled`. */
  ghost function SubscriptionDeleted(d: Db, sub: Subscription): Db {
    match Single(WithCustomer(d.users, sub.customer))
    case None => d
    case Some(id) => d.(users := d.users[id := d.users[id].(tier := "free", status := "canceled")])
  }

  /** `handleInvoicePaid`. */
  ghost function InvoicePaid(d: Db, inv: Invoice): Db {
    if inv.billingReason != "subscription_cycle" then d
    else match Single(WithCustomer(d.users, inv.customer))
    case None => d
    case Some(id) =>
      match PlanNamed(Some(d.users[id].tier))
      case None => d
      case Some(p) =>
        d.(users := if p.credits > 0 then d.users[id := d.users[id].(credits := p.credits)] else d.users,
           transactions := d.transactions
             + [Transaction(id, inv.amountPaid, inv.currency, Purchased(p), inv.id, "completed")])
  }

  /** The `switch` on the event type. */
  ghost function Dispatch(d: Db, e: Event): Outcome {
    match e
    case CheckoutEvent(s) => Done(CheckoutCompleted(d, s))
    case SubscriptionUpdatedEvent(sub) => SubscriptionUpdated(d, sub)
    case SubscriptionDeletedEvent(sub) => Done(SubscriptionDeleted(d, sub))
    case InvoicePaidEvent(inv) => Done(InvoicePaid(d, inv))
    case OtherEvent(_) => Done(d)
  }

  /**
   * Only a subscription update for a matched user with an unformattable
   * period end throws; an unhandled type changes nothing; no handler
   * removes or rewrites a recorded transaction, or adds or drops a user.
   */
  lemma DispatchOutcomes(d: Db, e: Event)
    ensures Dispatch(d, e).Threw? <==>
            e.SubscriptionUpdatedEvent?
            && Single(WithCustomer(d.users, e.subscription.customer)).Some?
            && !Formattable(e.subscription.periodEnd)
    ensures e.OtherEvent? ==> Dispatch(d, e) == Done(d)
    ensures Dispatch(d, e).Done? ==>
            d.transactions <= Dispatch(d, e).db.transactions && Dispatch(d, e).db.users.Keys == d.users.Keys
  {
    match e
    case CheckoutEvent(s) =>
      if CheckoutUser(d, s).Some? {
        CheckoutAppendsOneTransaction(d, s, CheckoutUser(d, s).value);
      }
    case SubscriptionUpdatedEvent(sub) =>
      SubscriptionUpdateTouchesStatusOnly(d, sub);
    case SubscriptionDeletedEvent(sub) =>
    case InvoicePaidEvent(inv) =>
    case OtherEvent(_) =>
  }

  /**
   * The store-availability check at the top of the route. `GuardMissing` is
   * the code as written against src/lib/supabaseClient.js, which exports no
   * `isSupabaseConfigured`, so the call throws; `GuardReady(b)` is the check
   * as intended, `b` being whether the store is configured.
   */
  datatype StoreGuard = GuardMissing | GuardReady(configured: bool)

  /**
   * `secretKey` and `webhookSecret` say whether the two signing variables are
   * set; `stripeLoads` whether `import('stripe')` and `new Stripe(...)`,
   * reached only when both are set, succeed.
   */
  datatype Config = Config(guard: StoreGuard, secretKey: bool, webhookSecret: bool, stripeLoads: bool)

  datatype Response = Received | BadSignature | Unavailable | ServerError {
    function Status(): int {
      match this
      case Received => 200
      case BadSignature => 400
      case Unavailable => 503
      case ServerError => 500
    }
  }

  /**
   * The route `POST`. `signatureValid` is the abstract verdict of the
   * provider's signature check; `body` is the parsed event, `None` when the
   * body does not parse.
   */
  ghost function Receive(d: Db, cfg: Config, signatureValid: bool, body: Option<Event>): (Response, Db) {
    match cfg.guard
    case GuardMissing => (ServerError, d)
    case GuardReady(configured) =>
      if !configured then (Unavailable, d)
      else if cfg.secretKey && cfg.webhookSecret && !cfg.stripeLoads then (ServerError, d)
      else if cfg.secretKey && cfg.webhookSecret && (!signatureValid || body.None?) then (BadSignature, d)
      else if body.None? then (ServerError, d)
      else match Dispatch(d, body.value)
        case Done(d') => (Received, d')
        case Threw => (ServerError, d)
  }

  method HandleCheckoutComplete(store: Store, s: Session)
    modifies store
    ensures store.Snapshot() == CheckoutCompleted(old(store.Snapshot()), s)
  {
    var email := CustomerEmail(s);
    if email.None? {
      return;
    }
    var user := store.FindByEmail(email.value);
    if user.None? {
      return;
    }
    var id := user.value;
    var p := ResolvePlan(s.metadata);
    store.Update(id, (u: User) => Activated(u, p, s.customer));
    store.InsertTransaction(Transaction(id, s.amountTotal, SessionCurrency(s), Purchased(p), s.id, "completed"));
  }

  method HandleSubscriptionUpdate(store: Store, sub: Subscription) returns (threw: bool)
    modifies store
    ensures SubscriptionUpdated(old(store.Snapshot()), sub) == if threw then Threw else Done(store.Snapshot())
    ensures threw ==> store.Snapshot() == old(store.Snapshot())
  {
    threw := false;
    var user := store.FindByCustomer(sub.customer);
    if user.None? {
      return;
    }
    if !Formattable(sub.periodEnd) {
      threw := true;
      return;
    }
    store.Update(user.value, (u: User) => u.(status := sub.status, expiresAt := sub.periodEnd));
  }

  method HandleSubscriptionCanceled(store: Store, sub: Subscription)
    modifies store
    ensures store.Snapshot() == SubscriptionDeleted(old(store.Snapshot()), sub)
  {
    var user := store.FindByCustomer(sub.customer);
    if user.None? {
      return;
    }
    store.Update(user.value, (u: User) => u.(tier := "free", status := "canceled"));
  }

  method HandleInvoicePaid(store: Store, inv: Invoice)
    modifies store
    ensures store.Snapshot() == InvoicePaid(old(store.Snapshot()), inv)
  {
    if inv.billingReason != "subscription_cycle" {
      return;
    }
    var user := store.FindByCustomer(inv.customer);
    if user.None? {
      return;
    }
    var id := user.value;
    var plan := PlanNamed(Some(store.users[id].tier));
    if plan.None? {
      return;
    }
    var p := plan.value;
    if p.credits > 0 {
      store.Update(id, (u: User) => u.(credits := p.credits));
    }
    store.InsertTransaction(Transaction(id, inv.amountPaid, inv.currency, Purchased(p), inv.id, "completed"));
  }

  method Post(store: Store, cfg: Config, signatureValid: bool, body: Option<Event>) returns (r: Response)
    modifies store
    ensures (r, store.Snapshot()) == Receive(old(store.Snapshot()), cfg, signatureValid, body)
  {
    if cfg.guard.GuardMissing? {
      return ServerError;
    }
    if !cfg.guard.configured {
      return Unavailable;
    }
    if cfg.secretKey && cfg.webhookSecret {
      if !cfg.stripeLoads {
        return ServerError;
      }
      if !signatureValid || body.None? {
        return BadSignature;
      }
    } else if body.None? {
      return ServerError;
    }
    match body.value {
      case CheckoutEvent(s) =>
        HandleCheckoutComplete(store, s);
      case SubscriptionUpdatedEvent(sub) =>
        var threw := HandleSubscriptionUpdate(store, sub);
        if threw {
          return ServerError;
        }
      case SubscriptionDeletedEvent(sub) =>
        HandleSubscriptionCanceled(store, sub);
      case InvoicePaidEvent(inv) =>
        HandleInvoicePaid(store, inv);
      case OtherEvent(_) =>
    }
    r := Received;
  }

  // Properties of the handlers

  /** A premium checkout for a matched user adds 50 credits and activates the premium tier. */
  lemma CheckoutGrantsPremium(d: Db, s: Session, id: UserId)
    requires CheckoutUser(d, s) == Some(id) && s.metadata.planId == Some("premium")
    ensures id in d.users
    ensures var u := d.users[id];
      CheckoutCompleted(d, s) == d.(
        users := d.users[id := u.(credits := u.credits + 50, tier := "premium", status := "active", customerId := s.customer)],
        transactions := d.transactions + [Transaction(id, s.amountTotal, SessionCurrency(s), 50, s.id, "completed")])
  {
  }

  /** A vip checkout stores the unlimited balance whatever the old one was, and records 0 credits purchased. */
  lemma CheckoutGrantsVip(d: Db, s: Session, id: UserId)
    requires CheckoutUser(d, s) == Some(id) && s.metadata.planId == Some("vip")
    ensures id in d.users
    ensures var d' := CheckoutCompleted(d, s);
      && id in d'.users
      && d'.users[id].credits == UNLIMITED_BALANCE
      && d'.users[id].tier == "vip" && d'.users[id].status == "active"
      && d'.transactions == d.transactions + [Transaction(id, s.amountTotal, SessionCurrency(s), 0, s.id, "completed")]
  {
  }

  /** A checkout without a usable email, or whose email matches no single user, changes nothing. */
  lemma CheckoutUnmatchedIsNoop(d: Db, s: Session)
    requires (!Present(s.customerEmail) && !Present(s.detailsEmail))
          || |WithEmail(d.users, CustomerEmail(s).value)| != 1
    ensures CheckoutCompleted(d, s) == d
  {
  }

  /**
   * An unknown plan id falls back to tier "free" with the metadata credits
   * (0 when they do not parse). A metadata value of -1 still counts as
   * unlimited, because the handler tests the grant, not the plan.
   */
  lemma CheckoutFallbackPlan(d: Db, s: Session, id: UserId)
    requires CheckoutUser(d, s) == Some(id)
    requires s.metadata.planId != Some("premium") && s.metadata.planId != Some("vip")
    ensures id in d.users
    ensures var d', grant := CheckoutCompleted(d, s), s.metadata.credits.GetOr(0);
      && id in d'.users
      && d'.users[id].tier == "free"
      && d'.users[id].credits == (if grant == UNLIMITED then UNLIMITED_BALANCE else d.users[id].credits + grant)
      && d'.transactions[|d.transactions|].creditsPurchased == (if grant == UNLIMITED then 0 else grant)
  {
  }

  /**
   * A matched checkout appends exactly one completed transaction carrying
   * the session id, touches only the matched user and keeps every email.
   */
  lemma CheckoutAppendsOneTransaction(d: Db, s: Session, id: UserId)
    requires CheckoutUser(d, s) == Some(id)
    ensures var d' := CheckoutCompleted(d, s);
      && |d'.transactions| == |d.transactions| + 1
      && d'.transactions[..|d.transactions|] == d.transactions
      && d'.transactions[|d.transactions|].paymentId == s.id
      && d'.transactions[|d.transactions|].status == "completed"
      && d'.transactions[|d.transactions|].userId == id
      && d'.users.Keys == d.users.Keys
      && (forall other :: other in d.users && other != id ==> d'.users[other] == d.users[other])
      && d'.consultations == d.consultations
  {
  }

  /** Handlers never change which users exist or their emails. */
  ghost predicate SameAccounts(d: Db, d': Db) {
    d'.users.Keys == d.users.Keys && forall id :: id in d.users ==> d'.users[id].email == d.users[id].email
  }

  lemma SameAccountsSameMatches(d: Db, d': Db, email: string)
    requires SameAccounts(d, d')
    ensures WithEmail(d'.users, email) == WithEmail(d.users, email)
  {
  }

  /**
   * The handler keeps no record of processed payment ids: delivering the
   * same premium checkout twice grants twice and records two transactions
   * with the same payment id.
   */
  lemma CheckoutReplayGrantsTwice(d: Db, s: Session, id: UserId)
    requires CheckoutUser(d, s) == Some(id) && s.metadata.planId == Some("premium")
    ensures id in d.users
    ensures var d2 := CheckoutCompleted(CheckoutCompleted(d, s), s);
      && id in d2.users
      && d2.users[id].credits == d.users[id].credits + 100
      && |d2.transactions| == |d.transactions| + 2
      && d2.transactions[|d.transactions|].paymentId == s.id
      && d2.transactions[|d.transactions| + 1].paymentId == s.id
  {
    var d1 := CheckoutCompleted(d, s);
    assert SameAccounts(d, d1);
    SameAccountsSameMatches(d, d1, CustomerEmail(s).value);
    assert CheckoutUser(d1, s) == Some(id);
  }

  /** Whether a completed transaction already carries this payment id. */
  ghost predicate Recorded(d: Db, paymentId: string) {
    exists i :: 0 <= i < |d.transactions| && d.transactions[i].paymentId == paymentId
  }

  /**
   * A refinement that is not in the source: a checkout whose session id is
   * already recorded is acknowledged without effect.
   */
  ghost function CheckoutCompletedOnce(d: Db, s: Session): Db {
    if Recorded(d, s.id) then d else CheckoutCompleted(d, s)
  }

  /** With the refinement, redelivering a checkout has the effect of delivering it once. */
  lemma CheckoutCompletedOnceIdempotent(d: Db, s: Session)
    ensures CheckoutCompletedOnce(CheckoutCompletedOnce(d, s), s) == CheckoutCompletedOnce(d, s)
  {
    var d1 := CheckoutCompletedOnce(d, s);
    if !Recorded(d, s.id) && CheckoutUser(d, s).Some? {
      assert d1.transactions[|d.transactions|].paymentId == s.id;
      assert Recorded(d1, s.id);
    }
  }

  /** A subscription update writes only the status and expiry of the user with that customer id. */
  lemma SubscriptionUpdateTouchesStatusOnly(d: Db, sub: Subscription)
    ensures SubscriptionUpdated(d, sub).Threw? <==>
            Single(WithCustomer(d.users, sub.customer)).Some? && !Formattable(sub.periodEnd)
    ensures match SubscriptionUpdated(d, sub)
      case Threw => Single(WithCustomer(d.users, sub.customer)).Some? && !Formattable(sub.periodEnd)
      case Done(d') =>
        && d'.transactions == d.transactions && d'.consultations == d.consultations
        && d'.users.Keys == d.users.Keys
        && (Single(WithCustomer(d.users, sub.customer)).None? ==> d' == d)
        && forall id :: id in d.users ==>
             var u, u' := d.users[id], d'.users[id];
             u'.credits == u.credits && u'.tier == u.tier && u'.email == u.email && u'.customerId == u.customerId
             && (Single(WithCustomer(d.users, sub.customer)) == Some(id) ==>
                   u'.status == sub.status && u'.expiresAt == sub.periodEnd)
             && (Single(WithCustomer(d.users, sub.customer)) != Some(id) ==> u' == u)
  {
  }

  /** Cancellation downgrades to "free" and "canceled" and keeps the balance. */
  lemma SubscriptionDeletedKeepsCredits(d: Db, sub: Subscription, id: UserId)
    requires Single(WithCustomer(d.users, sub.customer)) == Some(id)
    ensures id in d.users
    ensures var d' := SubscriptionDeleted(d, sub);
      && d'.users == d.users[id := d.users[id].(tier := "free", status := "canceled")]
      && d'.users[id].credits == d.users[id].credits
      && d'.transactions == d.transactions
  {
  }

  /** Cancellation with no user for the customer id changes nothing. */
  lemma SubscriptionDeletedUnmatchedIsNoop(d: Db, sub: Subscription)
    requires Single(WithCustomer(d.users, sub.customer)).None?
    ensures SubscriptionDeleted(d, sub) == d
  {
  }

  /** A renewal of a premium user replaces the balance by 50 (a balance of 3 becomes 50, not 53). */
  lemma InvoiceRenewsPremium(d: Db, inv: Invoice, id: UserId)
    requires inv.billingReason == "subscription_cycle"
    requires Single(WithCustomer(d.users, inv.customer)) == Some(id) && d.users[id].tier == "premium"
    ensures var d' := InvoicePaid(d, inv);
      && d'.users == d.users[id := d.users[id].(credits := 50)]
      && d'.transactions == d.transactions + [Transaction(id, inv.amountPaid, inv.currency, 50, inv.id, "completed")]
  {
  }

  /** A renewal of a vip user keeps the balance but still records a transaction with 0 credits. */
  lemma InvoiceRenewsVip(d: Db, inv: Invoice, id: UserId)
    requires inv.billingReason == "subscription_cycle"
    requires Single(WithCustomer(d.users, inv.customer)) == Some(id) && d.users[id].tier == "vip"
    ensures var d' := InvoicePaid(d, inv);
      && d'.users == d.users
      && d'.transactions == d.transactions + [Transaction(id, inv.amountPaid, inv.currency, 0, inv.id, "completed")]
  {
  }

  /** An invoice that is not a renewal, has no single user, or whose user's tier is not a plan, changes nothing. */
  lemma InvoiceNoop(d: Db, inv: Invoice)
    requires var found := Single(WithCustomer(d.users, inv.customer));
      || inv.billingReason != "subscription_cycle"
      || found.None?
      || (d.users[found.value].tier != "premium" && d.users[found.value].tier != "vip")
    ensures InvoicePaid(d, inv) == d
  {
  }

  /** An unconfigured store answers 503 before the body or signature are looked at. */
  lemma ReceiveUnavailable(d: Db, cfg: Config, signatureValid: bool, body: Option<Event>)
    requires cfg.guard == GuardReady(false)
    ensures Receive(d, cfg, signatureValid, body) == (Unavailable, d)
  {
  }

  /** With signing configured, a failed signature check answers 400 and changes nothing. */
  lemma ReceiveBadSignature(d: Db, cfg: Config, body: Option<Event>)
    requires cfg.guard == GuardReady(true) && cfg.secretKey && cfg.webhookSecret && cfg.stripeLoads
    ensures Receive(d, cfg, false, body) == (BadSignature, d)
    ensures Receive(d, cfg, false, body).0.Status() == 400
  {
  }

  /** An event type without a handler is acknowledged and changes nothing. */
  lemma ReceiveUnhandled(d: Db, cfg: Config, signatureValid: bool, kind: string)
    requires kind !in HANDLED_TYPES
    requires cfg.guard == GuardReady(true)
    requires cfg.secretKey && cfg.webhookSecret ==> signatureValid && cfg.stripeLoads
    ensures Receive(d, cfg, signatureValid, Some(OtherEvent(kind))) == (Received, d)
  {
  }

  /** With signing configured, a provider library that fails to load answers 500, whatever the signature or body. */
  lemma ReceiveStripeLoadFails(d: Db, cfg: Config, signatureValid: bool, body: Option<Event>)
    requires cfg.guard == GuardReady(true) && cfg.secretKey && cfg.webhookSecret && !cfg.stripeLoads
    ensures Receive(d, cfg, signatureValid, body) == (ServerError, d)
    ensures Receive(d, cfg, signatureValid, body).0.Status() == 500
  {
  }

  /** As written (no `isSupabaseConfigured` export), every request fails with 500 and changes nothing. */
  lemma ReceiveWithMissingGuardFails(d: Db, cfg: Config, signatureValid: bool, body: Option<Event>)
    requires cfg.guard == GuardMissing
    ensures Receive(d, cfg, signatureValid, body) == (ServerError, d)
    ensures Receive(d, cfg, signatureValid, body).0.Status() == 500
  {
  }

  /** With the guard as intended, a trusted checkout for a matched user is applied and acknowledged. */
  lemma ReceiveAppliesCheckout(d: Db, cfg: Config, s: Session)
    requires cfg.guard == GuardReady(true)
    requires cfg.secretKey && cfg.webhookSecret ==> cfg.stripeLoads
    ensures Receive(d, cfg, true, Some(CheckoutEvent(s))) == (Received, CheckoutCompleted(d, s))
  {
  }

  /**
   * Every request keeps the accounts and their emails, and keeps every
   * transaction and consultation row pointing at an existing user.
   */
  lemma ReceivePreservesConsistency(d: Db, cfg: Config, signatureValid: bool, body: Option<Event>)
    requires Consistent(d)
    ensures var d' := Receive(d, cfg, signatureValid, body).1;
      SameAccounts(d, d') && Consistent(d') && d.transactions <= d'.transactions
  {
    var d' := Receive(d, cfg, signatureValid, body).1;
    if d' != d {
      match body.value
      case CheckoutEvent(s) =>
        var id := CheckoutUser(d, s).value;
        assert d'.transactions[|d.transactions|].userId == id;
      case SubscriptionUpdatedEvent(_) =>
      case SubscriptionDeletedEvent(_) =>
      case InvoicePaidEvent(inv) =>
      case OtherEvent(_) =>
    }
  }
}
