/**
 * The consultation route: it checks the user id, loads the balance, refuses
 * balances below the cost, asks the external generator for an answer, then
 * debits the cost and logs the exchange, in that order.
 */
module Consultation {
  import opened Wrappers
  import opened Ledger
  import Esoteric

  /** Credits charged per consultation, whatever the tier. */
  const COST := 5

  /** The `model_used` column. */
  const MODEL := "llama3-8b-8192"

  /** The answer used when the completion has no text. */
  const FALLBACK := "El cosmos está nublado hoy..."

  datatype BirthDate = BirthDate(year: int, month: int, day: int)

  /** The JSON body; `userId` is `None` when the field is missing. */
  datatype Request = Request(userId: Option<string>, question: string, userName: string, birthDate: BirthDate)

  /** What the prompt tells the generator about the user. */
  datatype Profile = Profile(name: string, zodiac: string, lifePath: int)

  /** The generator's behaviour: it throws, or yields text ("" when there is no choice or no content). */
  datatype Completion = Failed | Text(content: string)

  datatype Response =
    | Answered(answer: string, creditsRemaining: int, zodiac: string, lifePath: int)
    | MissingUserId       // 400
    | UserNotFound        // 404
    | InsufficientCredits // 403
    | InternalError       // 500
  {
    function Status(): int {
      match this
      case Answered(_, _, _, _) => 200
      case MissingUserId => 400
      case UserNotFound => 404
      case InsufficientCredits => 403
      case InternalError => 500
    }
  }

  /** The profile the prompt is built from. */
  function ProfileOf(req: Request): Profile {
    Profile(req.userName,
            Esoteric.ZodiacSign(req.birthDate.month, req.birthDate.day),
            Esoteric.LifePath(req.birthDate.year, req.birthDate.month, req.birthDate.day))
  }

  /** `completion.choices[0]?.message?.content || fallback`. */
  function AnswerText(content: string): (answer: string)
    ensures answer != ""
    ensures content != "" ==> answer == content
    ensures content == "" ==> answer == FALLBACK
  {
    if content == "" then FALLBACK else content
  }

  /**
   * The route `POST` on a store value. `body` is `None` when the request
   * body does not parse; `generate` stands for the completion call;
   * `debitOk` and `insertOk` are the outcomes of the two writes.
   */
  ghost function Consult(d: Db, body: Option<Request>, generate: (Profile, string) -> Completion,
                         debitOk: bool, insertOk: bool): (Response, Db)
  {
    if body.None? then (InternalError, d)
    else
      var req := body.value;
      if !(req.userId.Some? && req.userId.value != "") then (MissingUserId, d)
      else
        var id := req.userId.value;
        if id !in d.users then (UserNotFound, d)
        else if d.users[id].credits < COST then (InsufficientCredits, d)
        else Served(d, id, req, generate, debitOk, insertOk)
  }

  /** Steps 2 to 6, for a user that passed the checks: profile, generation, debit and log. */
  ghost function Served(d: Db, id: UserId, req: Request, generate: (Profile, string) -> Completion,
                        debitOk: bool, insertOk: bool): (Response, Db)
    requires id in d.users
  {
    var profile := ProfileOf(req);
    match generate(profile, req.question)
    case Failed => (InternalError, d)
    case Text(content) =>
      var answer, remaining := AnswerText(content), d.users[id].credits - COST;
      (Answered(answer, remaining, profile.zodiac, profile.lifePath),
       Charged(d, id, remaining, Consultation(id, req.question, answer, MODEL), debitOk, insertOk))
  }

  method Serve(store: Store, id: UserId, req: Request, generate: (Profile, string) -> Completion,
               debitOk: bool, insertOk: bool) returns (r: Response)
    requires id in store.users
    modifies store
    ensures (r, store.Snapshot()) == Served(old(store.Snapshot()), id, req, generate, debitOk, insertOk)
  {
    var zodiac := Esoteric.ZodiacSign(req.birthDate.month, req.birthDate.day);
    var lifePath := Esoteric.LifePathNumber(req.birthDate.year, req.birthDate.month, req.birthDate.day);
    var completion := generate(Profile(req.userName, zodiac, lifePath), req.question);
    if completion.Failed? {
      return InternalError;
    }
    var answer := AnswerText(completion.content);
    var newCredits := store.users[id].credits - COST;
    Charge(store, id, newCredits, Consultation(id, req.question, answer, MODEL), debitOk, insertOk);
    r := Answered(answer, newCredits, zodiac, lifePath);
  }

  /** Steps 5 and 6: the debit write, then the log insert, each applied only when it succeeds. */
  ghost function Charged(d: Db, id: UserId, remaining: int, c: Consultation, debitOk: bool, insertOk: bool): Db
    requires id in d.users
  {
    d.(users := if debitOk then d.users[id := d.users[id].(credits := remaining)] else d.users,
       consultations := if insertOk then d.consultations + [c] else d.consultations)
  }

  method Charge(store: Store, id: UserId, remaining: int, c: Consultation, debitOk: bool, insertOk: bool)
    requires id in store.users
    modifies store
    ensures store.Snapshot() == Charged(old(store.Snapshot()), id, remaining, c, debitOk, insertOk)
  {
    if debitOk {
      store.Update(id, (u: User) => u.(credits := remaining));
    }
    if insertOk {
      store.InsertConsultation(c);
    }
  }

  method Post(store: Store, body: Option<Request>, generate: (Profile, string) -> Completion,
              debitOk: bool, insertOk: bool) returns (r: Response)
    modifies store
    ensures (r, store.Snapshot()) == Consult(old(store.Snapshot()), body, generate, debitOk, insertOk)
  {
    if body.None? {
      return InternalError;
    }
    var req := body.value;
    if !(req.userId.Some? && req.userId.value != "") {
      return MissingUserId;
    }
    var id := req.userId.value;
    if id !in store.users {
      return UserNotFound;
    }
    if store.users[id].credits < COST {
      return InsufficientCredits;
    }
    r := Serve(store, id, req, generate, debitOk, insertOk);
  }

  // Properties of the route

  /** A missing or empty user id answers 400 and changes nothing. */
  lemma MissingUserIdIsRejected(d: Db, req: Request, generate: (Profile, string) -> Completion, debitOk: bool, insertOk: bool)
    requires req.userId.None? || req.userId == Some("")
    ensures Consult(d, Some(req), generate, debitOk, insertOk) == (MissingUserId, d)
  {
  }

  /** An unknown user answers 404 and changes nothing. */
  lemma UnknownUserIsRejected(d: Db, req: Request, generate: (Profile, string) -> Completion, debitOk: bool, insertOk: bool)
    requires req.userId.Some? && req.userId.value != "" && req.userId.value !in d.users
    ensures Consult(d, Some(req), generate, debitOk, insertOk) == (UserNotFound, d)
  {
  }

  /**
   * A balance below the cost answers 403 and changes nothing, and the
   * answer does not depend on the generator: it is never consulted.
   */
  lemma InsufficientCreditsIsRejected(d: Db, req: Request, g1: (Profile, string) -> Completion,
                                      g2: (Profile, string) -> Completion, debitOk: bool, insertOk: bool)
    requires req.userId.Some? && req.userId.value != ""
    requires req.userId.value in d.users && d.users[req.userId.value].credits < COST
    ensures Consult(d, Some(req), g1, debitOk, insertOk) == (InsufficientCredits, d)
    ensures Consult(d, Some(req), g1, debitOk, insertOk) == Consult(d, Some(req), g2, debitOk, insertOk)
  {
  }

  /** A generator failure answers 500 with no debit and no consultation row. */
  lemma GeneratorFailureIsFree(d: Db, req: Request, generate: (Profile, string) -> Completion, debitOk: bool, insertOk: bool)
    requires req.userId.Some? && req.userId.value != ""
    requires req.userId.value in d.users && d.users[req.userId.value].credits >= COST
    requires generate(ProfileOf(req), req.question) == Failed
    ensures Consult(d, Some(req), generate, debitOk, insertOk) == (InternalError, d)
  {
  }

  /** The user and the new balance of a request that gets through the checks, with a generator that answers. */
  ghost predicate Answerable(d: Db, req: Request, generate: (Profile, string) -> Completion) {
    && req.userId.Some? && req.userId.value != ""
    && req.userId.value in d.users
    && d.users[req.userId.value].credits >= COST
    && generate(ProfileOf(req), req.question).Text?
  }

  /**
   * A successful consultation debits exactly 5, reports the new balance
   * (never negative) and appends exactly one consultation row.
   */
  lemma SuccessDebitsAndRecords(d: Db, req: Request, generate: (Profile, string) -> Completion)
    requires Answerable(d, req, generate)
    ensures var id, old_ := req.userId.value, d.users[req.userId.value].credits;
      var (r, d') := Consult(d, Some(req), generate, true, true);
      && r.Answered? && r.creditsRemaining == old_ - COST && r.creditsRemaining >= 0
      && d'.users == d.users[id := d.users[id].(credits := old_ - COST)]
      && d'.consultations == d.consultations
           + [Consultation(id, req.question, AnswerText(generate(ProfileOf(req), req.question).content), MODEL)]
      && d'.transactions == d.transactions
  {
  }

  /** An empty completion is answered with the fallback text, and is billed and logged like any other. */
  lemma EmptyCompletionUsesFallback(d: Db, req: Request, generate: (Profile, string) -> Completion)
    requires Answerable(d, req, generate) && generate(ProfileOf(req), req.question) == Text("")
    ensures var (r, d') := Consult(d, Some(req), generate, true, true);
      && r.Answered? && r.answer == FALLBACK
      && d'.users[req.userId.value].credits == d.users[req.userId.value].credits - COST
      && d'.consultations[|d.consultations|].answer == FALLBACK
  {
  }

  /** The debit does not spare unlimited accounts: a vip balance of 999999 becomes 999994. */
  lemma VipIsDebitedToo(d: Db, req: Request, generate: (Profile, string) -> Completion)
    requires Answerable(d, req, generate) && d.users[req.userId.value].credits == 999999
    ensures Consult(d, Some(req), generate, true, true).1.users[req.userId.value].credits == 999994
  {
  }

  /**
   * When the debit write fails the balance stays, yet the response reports
   * the debited value and the consultation is still logged.
   */
  lemma FailedDebitStillReported(d: Db, req: Request, generate: (Profile, string) -> Completion)
    requires Answerable(d, req, generate)
    ensures var (r, d') := Consult(d, Some(req), generate, false, true);
      && d'.users == d.users
      && r.Answered? && r.creditsRemaining == d.users[req.userId.value].credits - COST
      && |d'.consultations| == |d.consultations| + 1
  {
  }

  /** Successful consultations for the requests of `reqs`, applied one after another. */
  ghost function Repeated(d: Db, reqs: seq<Request>, generate: (Profile, string) -> Completion): Db
    decreases |reqs|
  {
    if reqs == [] then d else Repeated(Consult(d, Some(reqs[0]), generate, true, true).1, reqs[1..], generate)
  }

  /** The consultation row logged for a request that is answered. */
  ghost function LoggedRow(id: UserId, req: Request, generate: (Profile, string) -> Completion): Consultation
    requires generate(ProfileOf(req), req.question).Text?
  {
    Consultation(id, req.question, AnswerText(generate(ProfileOf(req), req.question).content), MODEL)
  }

  /** Every request of `reqs` comes from `id` and is answered by the generator. */
  ghost predicate AllAnswered(id: UserId, reqs: seq<Request>, generate: (Profile, string) -> Completion) {
    forall k :: 0 <= k < |reqs| ==>
      reqs[k].userId == Some(id) && generate(ProfileOf(reqs[k]), reqs[k].question).Text?
  }

  /** The rows logged for `reqs`, in order. */
  ghost function Rows(id: UserId, reqs: seq<Request>, generate: (Profile, string) -> Completion): seq<Consultation>
    requires AllAnswered(id, reqs, generate)
    decreases |reqs|
  {
    if reqs == [] then []
    else
      assert AllAnswered(id, reqs[1..], generate) by {
        forall k | 0 <= k < |reqs| - 1 ensures reqs[1..][k] == reqs[k + 1] { }
      }
      [LoggedRow(id, reqs[0], generate)] + Rows(id, reqs[1..], generate)
  }

  /** One row per request, and row `k` is the one logged for request `k`. */
  lemma {:induction false} RowsAreLogged(id: UserId, reqs: seq<Request>, generate: (Profile, string) -> Completion)
    requires AllAnswered(id, reqs, generate)
    ensures |Rows(id, reqs, generate)| == |reqs|
    ensures forall k :: 0 <= k < |reqs| ==> Rows(id, reqs, generate)[k] == LoggedRow(id, reqs[k], generate)
    decreases |reqs|
  {
    if reqs != [] {
      var rest := reqs[1..];
      assert AllAnswered(id, rest, generate) by {
        forall k | 0 <= k < |rest| ensures rest[k] == reqs[k + 1] { }
      }
      RowsAreLogged(id, rest, generate);
      forall k | 0 <= k < |reqs|
        ensures Rows(id, reqs, generate)[k] == LoggedRow(id, reqs[k], generate)
      {
        if k > 0 {
          assert rest[k - 1] == reqs[k];
        }
      }
    }
  }

  /**
   * Sequentially (no concurrent requests), N answered consultations of one
   * user with enough balance lower the balance by exactly 5 * N and append
   * one row per request, in order, leaving other users and the
   * transactions untouched.
   */
  lemma {:induction false} RepeatedConsultations(d: Db, id: UserId, reqs: seq<Request>,
                                                 generate: (Profile, string) -> Completion)
    requires id != "" && id in d.users
    requires AllAnswered(id, reqs, generate)
    requires d.users[id].credits >= COST * |reqs|
    ensures var d' := Repeated(d, reqs, generate);
      && d'.users.Keys == d.users.Keys
      && d'.users[id].credits == d.users[id].credits - COST * |reqs|
      && d'.users[id].credits >= 0
      && d'.transactions == d.transactions
      && d'.consultations == d.consultations + Rows(id, reqs, generate)
      && (forall other :: other in d.users && other != id ==> d'.users[other] == d.users[other])
    decreases |reqs|
  {
    if reqs != [] {
      var rest := reqs[1..];
      RowsUnfold(id, reqs, generate);
      assert Answerable(d, reqs[0], generate);
      SuccessDebitsAndRecords(d, reqs[0], generate);
      var d1 := Consult(d, Some(reqs[0]), generate, true, true).1;
      RepeatedConsultations(d1, id, rest, generate);
      AppendAssociates(d.consultations, [LoggedRow(id, reqs[0], generate)], Rows(id, rest, generate));
    }
  }

  /** The first row, then the rows of the remaining requests. */
  lemma RowsUnfold(id: UserId, reqs: seq<Request>, generate: (Profile, string) -> Completion)
    requires reqs != [] && AllAnswered(id, reqs, generate)
    ensures AllAnswered(id, reqs[1..], generate)
    ensures Rows(id, reqs, generate) == [LoggedRow(id, reqs[0], generate)] + Rows(id, reqs[1..], generate)
  {
    assert AllAnswered(id, reqs[1..], generate) by {
      forall k | 0 <= k < |reqs| - 1 ensures reqs[1..][k] == reqs[k + 1] { }
    }
  }

  lemma AppendAssociates<T>(a: seq<T>, b: seq<T>, c: seq<T>)
    ensures (a + b) + c == a + (b + c)
  {
  }

  /** A consultation keeps the accounts and emails, and logs only for an existing user. */
  lemma ConsultPreservesConsistency(d: Db, body: Option<Request>, generate: (Profile, string) -> Completion,
                                    debitOk: bool, insertOk: bool)
    requires Consistent(d)
    ensures var d' := Consult(d, body, generate, debitOk, insertOk).1;
      && Consistent(d') && d'.users.Keys == d.users.Keys && d'.transactions == d.transactions
      && forall id :: id in d.users ==> d'.users[id].email == d.users[id].email && d'.users[id].tier == d.users[id].tier
  {
  }
}
