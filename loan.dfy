/**
 * POST /api/loan: records a loan between two people and, when an account is
 * named, moves that account's balance by the amount if exactly one side of
 * the loan is the user's own person.
 */
module LoanRoute {
  import opened Wrappers
  import opened Js
  import opened Store

  /**
   * The fields of the request body. `amount` is `None` when the body has no
   * amount or a null one; the other fields are taken as sent.
   */
  datatype Request = Request(
    lender: JsValue,
    borrower: JsValue,
    amount: Option<real>,
    date: JsValue,
    notes: JsValue,
    settled: JsValue,
    account: JsValue,
    expense: JsValue)

  datatype Error =
    | MissingFields    // 400: lender, borrower, amount or date is falsy
    | PersonNotFound   // 404: lender or borrower is not a person
    | AccountNotFound  // 404: the named account is not the user's

  /** `!lender || !borrower || !amount || !date` fails: each of the four is truthy (an amount of 0 is not). */
  predicate HasRequired(req: Request) {
    Truthy(req.lender) && Truthy(req.borrower) && req.amount.Some? && req.amount.value != 0.0 && Truthy(req.date)
  }

  /** `person.isUser && person.user.equals(userId)`: the person stands for the user. */
  predicate IsSelf(p: Person, user: Id) {
    p.isUser && p.user == user
  }

  /** The account a request names, as loaded. */
  datatype Target = Target(id: Id, account: Account)

  /** Everything the handler knows before it writes. */
  datatype Plan = Plan(req: Request, user: Id, lender: Id, borrower: Id, lenderPerson: Person,
                       borrowerPerson: Person, amount: real, target: Option<Target>)

  /** The checks and lookups, in the handler's order; nothing is written before they all pass. */
  function Prepare(s: State, req: Request, user: Id): (r: Result<Plan, Error>)
    ensures r.Success? ==> r.value.req == req && r.value.user == user && HasRequired(req)
    ensures r.Success? ==> r.value.lender in s.people && r.value.lenderPerson == s.people[r.value.lender]
    ensures r.Success? ==> r.value.borrower in s.people && r.value.borrowerPerson == s.people[r.value.borrower]
    ensures r.Success? ==> (r.value.target.Some? <==> Truthy(req.account))
  {
    if !HasRequired(req) then Failure(MissingFields)
    else
      var lender := FindPerson(s.people, req.lender);
      var borrower := FindPerson(s.people, req.borrower);
      if lender.None? || borrower.None? then Failure(PersonNotFound)
      else
        var target :-
          if !Truthy(req.account) then Success(None)
          else if !req.account.Str? then Failure(AccountNotFound)
          else match FindOwned(s.accounts, AccountOwner, req.account.s, user)
               case None => Failure(AccountNotFound)
               case Some(a) => Success(Some(Target(req.account.s, a)));
        Success(Plan(req, user, req.lender.s, req.borrower.s, lender.value, borrower.value, req.amount.value, target))
  }

  /**
   * The balance after the loan: lowered by the amount when only the lender
   * is the user, raised by it when only the borrower is, otherwise as it was.
   */
  function Adjusted(p: Plan, balance: real): real {
    var lenderIsUser := IsSelf(p.lenderPerson, p.user);
    var borrowerIsUser := IsSelf(p.borrowerPerson, p.user);
    if lenderIsUser && !borrowerIsUser then balance - p.amount
    else if borrowerIsUser && !lenderIsUser then balance + p.amount
    else balance
  }

  /** `Loan.create(...)`: `settled || false`, `account || null`, `expense || null`. */
  function LoanRecord(p: Plan): Loan {
    Loan(p.lender, p.borrower, p.amount, p.req.date, p.req.notes,
         if Truthy(p.req.settled) then p.req.settled else Bool(false),
         if p.target.Some? then Some(p.target.value.id) else None,
         if Truthy(p.req.expense) then p.req.expense else Null,
         p.user)
  }

  /** The writes: the account saved with its adjusted balance, if one was named, then the loan. */
  function Record(s: State, p: Plan): Outcome<Loan, Error> {
    var accounts :=
      match p.target
      case None => s.accounts
      case Some(t) => s.accounts[t.id := t.account.(balance := Adjusted(p, t.account.balance))];
    Outcome(Success(LoanRecord(p)), s.(accounts := accounts, loans := s.loans + [LoanRecord(p)]))
  }

  /** POST /api/loan as a transition of the database. */
  function LoanPost(s: State, req: Request, user: Id): Outcome<Loan, Error> {
    match Prepare(s, req, user)
    case Failure(e) => Outcome(Failure(e), s)
    case Success(p) => Record(s, p)
  }

  method PreparePlan(db: Db, req: Request, user: Id) returns (r: Result<Plan, Error>)
    ensures r == Prepare(db.Snapshot(), req, user)
  {
    if !HasRequired(req) {
      return Failure(MissingFields);
    }
    var lender := FindPerson(db.people, req.lender);
    var borrower := FindPerson(db.people, req.borrower);
    if lender.None? || borrower.None? {
      return Failure(PersonNotFound);
    }
    var target: Option<Target> := None;
    if Truthy(req.account) {
      if !req.account.Str? {
        return Failure(AccountNotFound);
      }
      var acc := FindOwned(db.accounts, AccountOwner, req.account.s, user);
      if acc.None? {
        return Failure(AccountNotFound);
      }
      target := Some(Target(req.account.s, acc.value));
    }
    r := Success(Plan(req, user, req.lender.s, req.borrower.s, lender.value, borrower.value, req.amount.value, target));
  }

  /** The writes, with the balance moved in place on the loaded account. */
  method Commit(db: Db, p: Plan) returns (r: Result<Loan, Error>)
    modifies db
    ensures Outcome(r, db.Snapshot()) == Record(old(db.Snapshot()), p)
  {
    if p.target.Some? {
      var acc := p.target.value.account;
      var isLenderUser := p.lenderPerson.isUser && p.lenderPerson.user == p.user;
      var isBorrowerUser := p.borrowerPerson.isUser && p.borrowerPerson.user == p.user;
      if isLenderUser && !isBorrowerUser {
        acc := acc.(balance := acc.balance - p.amount);
      } else if isBorrowerUser && !isLenderUser {
        acc := acc.(balance := acc.balance + p.amount);
      }
      db.accounts := db.accounts[p.target.value.id := acc];
    }
    var loan := LoanRecord(p);
    db.loans := db.loans + [loan];
    r := Success(loan);
  }

  /** The handler: the checks, then the writes. */
  method Post(db: Db, req: Request, user: Id) returns (r: Result<Loan, Error>)
    modifies db
    ensures Outcome(r, db.Snapshot()) == LoanPost(old(db.Snapshot()), req, user)
  {
    var plan := PreparePlan(db, req, user);
    if plan.Failure? {
      return Failure(plan.error);
    }
    r := Commit(db, plan.value);
  }

  // ---------------------------------------------------------------------------
  // What the handler promises
  // ---------------------------------------------------------------------------

  /** The id `v` names a person who stands for the user. */
  predicate SelfParty(s: State, v: JsValue, user: Id) {
    v.Str? && v.s in s.people && IsSelf(s.people[v.s], user)
  }

  /** The account id `v` names one of the user's accounts. */
  predicate OwnedAccount(s: State, v: JsValue, user: Id) {
    v.Str? && v.s in s.accounts && s.accounts[v.s].user == user
  }

  /**
   * The error a request gets, in the handler's order: missing fields, then an
   * unknown lender or borrower, then an account that is not the user's; a
   * request passing all three is accepted. A refused request writes nothing.
   */
  lemma Refusals(s: State, req: Request, user: Id)
    ensures var o := LoanPost(s, req, user);
            && (o.response == Failure(MissingFields) <==> !HasRequired(req))
            && (o.response == Failure(PersonNotFound)
                <==> HasRequired(req) && !(req.lender.Str? && req.lender.s in s.people && req.borrower.Str? && req.borrower.s in s.people))
            && (o.response == Failure(AccountNotFound)
                <==> HasRequired(req) && req.lender.Str? && req.lender.s in s.people && req.borrower.Str? && req.borrower.s in s.people
                     && Truthy(req.account) && !OwnedAccount(s, req.account, user))
            && (o.response.Failure? ==> o.state == s)
  {
  }

  /**
   * The balance rule for a named account: it falls by the amount when only
   * the lender is the user, rises by it when only the borrower is, and stays
   * when both or neither are; no other account changes.
   */
  lemma BalanceRule(s: State, req: Request, user: Id)
    requires LoanPost(s, req, user).response.Success? && Truthy(req.account)
    ensures OwnedAccount(s, req.account, user) && req.amount.Some?
    ensures var a, amount, after := req.account.s, req.amount.value, LoanPost(s, req, user).state.accounts;
            var lenderIsUser, borrowerIsUser := SelfParty(s, req.lender, user), SelfParty(s, req.borrower, user);
            && (lenderIsUser && !borrowerIsUser ==> after == s.accounts[a := s.accounts[a].(balance := s.accounts[a].balance - amount)])
            && (borrowerIsUser && !lenderIsUser ==> after == s.accounts[a := s.accounts[a].(balance := s.accounts[a].balance + amount)])
            && (lenderIsUser == borrowerIsUser ==> after == s.accounts)
  {
    var p := Prepare(s, req, user).value;
    var a := req.account.s;
    if SelfParty(s, req.lender, user) == SelfParty(s, req.borrower, user) {
      assert s.accounts[a := s.accounts[a]] == s.accounts;
    }
  }

  /**
   * Without an account nothing but the loan is written: no balance moves,
   * the loan's account is null, and `settled` is false unless the request
   * set it.
   */
  lemma WithoutAccount(s: State, req: Request, user: Id)
    requires LoanPost(s, req, user).response.Success? && !Truthy(req.account)
    ensures var o := LoanPost(s, req, user);
            && o.state == s.(loans := s.loans + [o.response.value])
            && o.response.value.account == None
            && (!Truthy(req.settled) ==> o.response.value.settled == Bool(false))
  {
  }

  /**
   * An accepted loan is appended to the loans with the request's people,
   * amount, date and notes, the user as its owner, and the named account.
   */
  lemma LoanRecorded(s: State, req: Request, user: Id)
    requires LoanPost(s, req, user).response.Success?
    ensures var o := LoanPost(s, req, user);
            var loan := o.response.value;
            && o.state.loans == s.loans + [loan]
            && req.lender == Str(loan.lender) && req.borrower == Str(loan.borrower)
            && req.amount == Some(loan.amount) && loan.amount != 0.0
            && loan.date == req.date && loan.notes == req.notes && loan.user == user
            && (loan.account.Some? <==> Truthy(req.account))
            && (loan.account.Some? ==> req.account == Str(loan.account.value))
            && loan.settled == (if Truthy(req.settled) then req.settled else Bool(false))
            && (loan.expense == if Truthy(req.expense) then req.expense else Null)
  {
  }
}
