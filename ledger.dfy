/**
 * The hosted store the API routes read and write: a `users` table keyed by
 * user id, and the append-only `transactions` and `consultations` tables.
 * Queries become methods of `Store`; every write is assumed to reach the
 * store unless a caller passes an explicit failure outcome.
 */
module Ledger {
  import opened Wrappers

  type UserId = string

  /**
   * A `users` row. A NULL `current_credits` is read as 0 by every handler
   * (`|| 0` in the webhook, `null < 5` in the consultation route), so it is
   * represented as 0. `expiresAt` holds the period end in seconds.
   */
  datatype User = User(
    email: string,
    credits: int,
    tier: string,
    status: string,
    customerId: Option<string>,
    expiresAt: Option<int>)

  /** A `transactions` row; `amountCents` is the provider's integer amount, before the source's division by 100. */
  datatype Transaction = Transaction(
    userId: UserId,
    amountCents: int,
    currency: string,
    creditsPurchased: int,
    paymentId: string,
    status: string)

  /** A `consultations` row. */
  datatype Consultation = Consultation(userId: UserId, question: string, answer: string, model: string)

  /** The whole store as a value, the state the specification functions map to new states. */
  datatype Db = Db(users: map<UserId, User>, transactions: seq<Transaction>, consultations: seq<Consultation>)

  /** Referential integrity: every audit row names a user that exists. */
  ghost predicate Consistent(d: Db) {
    && (forall i :: 0 <= i < |d.transactions| ==> d.transactions[i].userId in d.users)
    && (forall i :: 0 <= i < |d.consultations| ==> d.consultations[i].userId in d.users)
  }

  /** The users whose `email` column equals `email`. */
  ghost function WithEmail(users: map<UserId, User>, email: string): set<UserId> {
    set id | id in users && users[id].email == email
  }

  /** The users whose `stripe_customer_id` column equals `customer`. */
  ghost function WithCustomer(users: map<UserId, User>, customer: string): set<UserId> {
    set id | id in users && users[id].customerId == Some(customer)
  }

  lemma SingletonHasOnlyMember(ids: set<UserId>, id: UserId)
    requires |ids| == 1 && id in ids
    ensures ids == {id}
  {
    assert |ids - {id}| == 0;
  }

  /** What `.single()` yields: the one matching row, and nothing when zero or several rows match. */
  ghost function Single(ids: set<UserId>): (r: Option<UserId>)
    ensures r.Some? <==> |ids| == 1
    ensures r.Some? ==> ids == {r.value}
  {
    if |ids| == 1 then
      assert ids != {};
      var id :| id in ids;
      SingletonHasOnlyMember(ids, id);
      Some(id)
    else None
  }

  class Store {
    var users: map<UserId, User>
    var transactions: seq<Transaction>
    var consultations: seq<Consultation>

    constructor (d: Db)
      ensures Snapshot() == d
    {
      users, transactions, consultations := d.users, d.transactions, d.consultations;
    }

    function Snapshot(): Db
      reads this
    {
      Db(users, transactions, consultations)
    }

    method SelectSingle(ids: set<UserId>) returns (r: Option<UserId>)
      ensures r == Single(ids)
    {
      if |ids| == 1 {
        var id :| id in ids;
        SingletonHasOnlyMember(ids, id);
        r := Some(id);
      } else {
        r := None;
      }
    }

    /** `select ... eq('email', email).single()`. */
    method FindByEmail(email: string) returns (r: Option<UserId>)
      ensures r == Single(WithEmail(users, email))
      ensures r.Some? ==> r.value in users && users[r.value].email == email
    {
      var ids := set id | id in users && users[id].email == email;
      r := SelectSingle(ids);
    }

    /** `select ... eq('stripe_customer_id', customer).single()`. */
    method FindByCustomer(customer: string) returns (r: Option<UserId>)
      ensures r == Single(WithCustomer(users, customer))
      ensures r.Some? ==> r.value in users && users[r.value].customerId == Some(customer)
    {
      var ids := set id | id in users && users[id].customerId == Some(customer);
      r := SelectSingle(ids);
    }

    /** `users.update(...).eq('id', id)`: the row with that id, if any, gets the edited columns. */
    method Update(id: UserId, edit: User -> User)
      modifies this
      ensures users == if id in old(users) then old(users)[id := edit(old(users)[id])] else old(users)
      ensures transactions == old(transactions) && consultations == old(consultations)
    {
      if id in users {
        users := users[id := edit(users[id])];
      }
    }

    /** `transactions.insert(t)`. */
    method InsertTransaction(t: Transaction)
      modifies this
      ensures transactions == old(transactions) + [t]
      ensures users == old(users) && consultations == old(consultations)
    {
      transactions := transactions + [t];
    }

    /** `consultations.insert(c)`. */
    method InsertConsultation(c: Consultation)
      modifies this
      ensures consultations == old(consultations) + [c]
      ensures users == old(users) && transactions == old(transactions)
    {
      consultations := consultations + [c];
    }
  }
}
