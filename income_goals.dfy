/**
 * POST /api/incomeGoals: a fixed sequence of checks on the request body; the
 * first that fails decides the error, and a body passing all of them creates
 * one IncomeGoal for one of the user's accounts.
 */
module IncomeGoalRoute {
  import opened Wrappers
  import opened Js
  import opened Store
  import IncomeRoute

  /** The fields of the request body, as sent. */
  datatype Request = Request(
    name: JsValue,
    targetAmount: JsValue,
    targetDate: JsValue,
    balance: JsValue,
    allocationRate: JsValue,
    account: JsValue)

  datatype Error =
    | NameInvalid        // 400: name is not a string with a non-blank character
    | RateInvalid        // 400: allocationRate is not a number >= 0
    | TargetInvalid      // 400: targetAmount is not a number >= 0
    | AccountInvalid     // 400: account is not a string with a non-blank character
    | DateInvalid        // 400: targetDate is given and does not parse
    | AccountNotFound    // 404: the account is not the user's

  /** `typeof v === 'number' && !isNaN(v) && v >= 0`; a JSON number is never NaN. */
  predicate NonNegativeNumber(v: JsValue) {
    v.Num? && v.n >= 0.0
  }

  /** The body once the checks on its own fields have passed. */
  datatype Checked = Checked(name: string, rate: real, target: real, account: Id)

  /**
   * The checks of step 1, in the handler's order. `dateParses` stands for
   * `!isNaN(Date.parse(targetDate))`, which is only consulted when the date
   * is given.
   */
  function Validate(req: Request, dateParses: bool): (r: Result<Checked, Error>)
    ensures r.Success? ==> req.name.Str? && r.value.name == Trim(req.name.s) && r.value.name != []
    ensures r.Success? ==> req.allocationRate == Num(r.value.rate) && r.value.rate >= 0.0
    ensures r.Success? ==> req.targetAmount == Num(r.value.target) && r.value.target >= 0.0
    ensures r.Success? ==> req.account == Str(r.value.account) && Trim(r.value.account) != []
  {
    var name :- RequireText(req.name, NameInvalid, NameInvalid);
    if !NonNegativeNumber(req.allocationRate) then Failure(RateInvalid)
    else if !NonNegativeNumber(req.targetAmount) then Failure(TargetInvalid)
    else
      var account :- RequireText(req.account, AccountInvalid, AccountInvalid);
      if Truthy(req.targetDate) && !dateParses then Failure(DateInvalid)
      else
        TrimIdempotent(name);
        Success(Checked(Trim(name), req.allocationRate.n, req.targetAmount.n, account))
  }

  /** The goal `IncomeGoal.create` stores: a missing date stays unset and a balance that is not a number becomes 0. */
  function NewGoal(req: Request, c: Checked, user: Id): IncomeGoal {
    IncomeGoal(user, c.name, Some(c.target),
               if Truthy(req.targetDate) then Some(req.targetDate) else None,
               Some(if req.balance.Num? then req.balance.n else 0.0),
               Some(c.rate), c.account)
  }

  /**
   * POST /api/incomeGoals as a transition of the database: the checks, the
   * ownership of the account, then the new goal under the fresh id `newId`.
   */
  function GoalPost(s: State, req: Request, user: Id, newId: Id, dateParses: bool): Outcome<IncomeGoal, Error> {
    match Validate(req, dateParses)
    case Failure(e) => Outcome(Failure(e), s)
    case Success(c) =>
      if FindOwned(s.accounts, AccountOwner, c.account, user).None? then Outcome(Failure(AccountNotFound), s)
      else
        var goal := NewGoal(req, c, user);
        Outcome(Success(goal), s.(goals := s.goals[newId := goal]))
  }

  // ---------------------------------------------------------------------------
  // What the handler promises
  // ---------------------------------------------------------------------------

  predicate NameOk(req: Request) { req.name.Str? && Trim(req.name.s) != [] }
  predicate AccountOk(req: Request) { req.account.Str? && Trim(req.account.s) != [] }
  predicate DateOk(req: Request, dateParses: bool) { !Truthy(req.targetDate) || dateParses }

  /**
   * The first failing check decides the error: name, then allocationRate,
   * then targetAmount, then the account id, then the date, then the
   * account's owner. Each error is given exactly when every earlier check
   * passed and its own failed.
   */
  lemma FirstFailureDecides(s: State, req: Request, user: Id, newId: Id, dateParses: bool)
    ensures var r := GoalPost(s, req, user, newId, dateParses).response;
            && (r == Failure(NameInvalid) <==> !NameOk(req))
            && (r == Failure(RateInvalid) <==> NameOk(req) && !NonNegativeNumber(req.allocationRate))
            && (r == Failure(TargetInvalid)
                <==> NameOk(req) && NonNegativeNumber(req.allocationRate) && !NonNegativeNumber(req.targetAmount))
            && (r == Failure(AccountInvalid)
                <==> NameOk(req) && NonNegativeNumber(req.allocationRate) && NonNegativeNumber(req.targetAmount)
                     && !AccountOk(req))
            && (r == Failure(DateInvalid)
                <==> NameOk(req) && NonNegativeNumber(req.allocationRate) && NonNegativeNumber(req.targetAmount)
                     && AccountOk(req) && !DateOk(req, dateParses))
            && (r == Failure(AccountNotFound)
                <==> NameOk(req) && NonNegativeNumber(req.allocationRate) && NonNegativeNumber(req.targetAmount)
                     && AccountOk(req) && DateOk(req, dateParses)
                     && !(req.account.s in s.accounts && s.accounts[req.account.s].user == user))
  {
    RequireTextOk(req.name, NameInvalid);
    RequireTextOk(req.account, AccountInvalid);
  }

  /** `RequireText` with one error for every refusal succeeds exactly on a string with a non-blank character. */
  lemma RequireTextOk(v: JsValue, e: Error)
    ensures RequireText(v, e, e).Success? <==> v.Str? && Trim(v.s) != []
    ensures RequireText(v, e, e).Failure? ==> RequireText(v, e, e) == Failure(e)
  {
  }

  /** A refused request creates nothing and changes nothing. */
  lemma RefusalKeepsState(s: State, req: Request, user: Id, newId: Id, dateParses: bool)
    ensures GoalPost(s, req, user, newId, dateParses).response.Failure?
            ==> GoalPost(s, req, user, newId, dateParses).state == s
  {
  }

  /**
   * An accepted request adds exactly one goal, under the fresh id, and
   * nothing else: it belongs to the user and to one of the user's accounts,
   * carries the trimmed, non-blank name, the non-negative rate and target as
   * sent, the date if one was given, and the balance as sent or 0.
   */
  lemma GoalCreated(s: State, req: Request, user: Id, newId: Id, dateParses: bool)
    requires newId !in s.goals
    requires GoalPost(s, req, user, newId, dateParses).response.Success?
    ensures var o := GoalPost(s, req, user, newId, dateParses);
            var g := o.response.value;
            && o.state == s.(goals := s.goals[newId := g])
            && |o.state.goals| == |s.goals| + 1
            && g.user == user && g.account in s.accounts && s.accounts[g.account].user == user
            && req.name.Str? && g.name == Trim(req.name.s) && g.name != [] && Trim(g.name) == g.name
            && req.allocationRate.Num? && g.allocationRate == Some(req.allocationRate.n) && req.allocationRate.n >= 0.0
            && req.targetAmount.Num? && g.targetAmount == Some(req.targetAmount.n) && req.targetAmount.n >= 0.0
            && (g.targetDate.Some? <==> Truthy(req.targetDate))
            && g.balance == Some(if req.balance.Num? then req.balance.n else 0.0)
  {
    var c := Validate(req, dateParses).value;
    TrimIdempotent(req.name.s);
  }

  /**
   * What the income engine relies on: a goal this route creates has a
   * non-negative allocation rate, so every income allocates it a whole,
   * non-negative amount of at most `amount * rate / 100`.
   */
  lemma CreatedGoalAllocates(s: State, req: Request, user: Id, newId: Id, dateParses: bool, amount: real)
    requires GoalPost(s, req, user, newId, dateParses).response.Success?
    requires amount >= 0.0
    ensures var g := GoalPost(s, req, user, newId, dateParses).response.value;
            && IncomeRoute.Rate(g) >= 0.0
            && 0 <= IncomeRoute.Allocation(amount, g)
            && IncomeRoute.Allocation(amount, g) as real <= amount * IncomeRoute.Rate(g) / 100.0
  {
    var g := GoalPost(s, req, user, newId, dateParses).response.value;
    assert IncomeRoute.Rate(g) >= 0.0;
    IncomeRoute.AllocationBounds(amount, g);
  }
}
