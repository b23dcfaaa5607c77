/**
 * What POST /api/incomes promises, stated on the transition `IncomePost`:
 * which requests are refused (with nothing written), the exact credit to the
 * destination account, which goals are credited and by how much, and the
 * allocation records that account for those credits.
 */
module IncomeLaws {
  import opened Wrappers
  import opened Js
  import opened Store
  import opened IncomeRoute
  import Tally

  /** What a successful `Prepare` found: a valid body, the user's source and account, and one goal per listed id. */
  lemma PreparedPlan(s: State, req: Request, user: Id, p: Plan)
    requires Prepare(s, req, user) == Success(p)
    ensures Validate(req) == Success(p.req)
    ensures p.req.sourceId in s.sources && s.sources[p.req.sourceId].user == user
    ensures p.req.accountId in s.accounts && s.accounts[p.req.accountId].user == user
    ensures p.account == s.accounts[p.req.accountId]
    ensures p.goals == FoundGoals(s.goals, p.req.goalIds, user)
    ensures |p.goals| == |p.req.goalIds|
  {
  }

  /** An accepted request is its plan's `Record`, and the plan's fields are the request's. */
  lemma Accepted(s: State, req: Request, user: Id) returns (p: Plan)
    requires IncomePost(s, req, user).response.Success?
    ensures Prepare(s, req, user) == Success(p)
    ensures forall g :: g in p.goals ==> g in s.goals
    ensures IncomePost(s, req, user) == Record(s, p)
    ensures req.amount == Num(p.req.amount) && req.allocations == Some(p.req.goalIds)
    ensures req.source == Str(p.req.sourceId) && req.destAccount == Str(p.req.accountId)
    ensures req.name.Str? && p.req.name == Trim(req.name.s)
    ensures p.req.sourceId in s.sources && s.sources[p.req.sourceId].user == user
    ensures p.req.accountId in s.accounts && s.accounts[p.req.accountId].user == user
    ensures p.account == s.accounts[p.req.accountId] && p.user == user
    ensures p.goals == FoundGoals(s.goals, p.req.goalIds, user)
    ensures |p.goals| == |p.req.goalIds|
  {
    p := Prepare(s, req, user).value;
    PreparedPlan(s, req, user, p);
  }

  /** When every listed id was found, the found goals are exactly the goals the list names. */
  lemma ListedIsFound(goals: map<Id, IncomeGoal>, ids: seq<JsValue>, user: Id)
    requires |FoundGoals(goals, ids, user)| == |ids|
    ensures forall g :: g in FoundGoals(goals, ids, user) <==> Str(g) in ids
  {
    FoundGoalsFacts(goals, ids, user);
    FoundAllOnlyIf(goals, ids, user);
  }

  /** The goals of an accepted plan, one key at a time. */
  lemma RecordGoalsAt(s: State, p: Plan, k: Id, listed: bool)
    requires forall g :: g in p.goals ==> g in s.goals
    requires listed <==> k in p.goals
    ensures Record(s, p).state.goals.Keys == s.goals.Keys
    ensures k in s.goals ==>
      Record(s, p).state.goals[k]
      == if listed && Allocation(p.req.amount, s.goals[k]) > 0 then Credited(s.goals[k], Allocation(p.req.amount, s.goals[k]))
         else s.goals[k]
  {
    AllocatedGoalsAt(s.goals, p.goals, p.req.amount, k);
  }

  /** Each allocation record of a plan with distinct goals raises its goal's balance by its amount. */
  lemma RecordAllocations(s: State, p: Plan)
    requires forall g :: g in p.goals ==> g in s.goals
    requires Tally.Distinct(p.goals)
    ensures var o := Record(s, p);
            var recs := AllocationRecords(s.goals, p.goals, p.req.amount, |s.incomes|);
            && o.state.incomeAllocations == s.incomeAllocations + recs
            && (forall r :: r in recs ==>
                  && r.goal in s.goals && r.goal in o.state.goals
                  && BalanceOrZero(o.state.goals[r.goal].balance) == BalanceOrZero(s.goals[r.goal].balance) + r.amount as real)
  {
    var o := Record(s, p);
    var recs := AllocationRecords(s.goals, p.goals, p.req.amount, |s.incomes|);
    AllocationRecordsFacts(s.goals, p.goals, p.req.amount, |s.incomes|);
    forall r | r in recs
      ensures r.goal in s.goals && r.goal in o.state.goals
      ensures BalanceOrZero(o.state.goals[r.goal].balance) == BalanceOrZero(s.goals[r.goal].balance) + r.amount as real
    {
      AllocatedGoalsAt(s.goals, p.goals, p.req.amount, r.goal);
    }
  }

  /**
   * Nothing is written unless every check passes: a refused request leaves
   * the database as it was, and a request is refused exactly when `Prepare`
   * refuses it.
   */
  lemma RefusalKeepsState(s: State, req: Request, user: Id)
    ensures IncomePost(s, req, user).response.Failure? <==> Prepare(s, req, user).Failure?
    ensures IncomePost(s, req, user).response.Failure? ==> IncomePost(s, req, user).state == s
  {
  }

  /**
   * An accepted request had a non-blank string name, a positive numeric
   * amount, a truthy date, a non-empty array of goal ids naming distinct
   * goals that are all the user's, and non-blank ids of an income source and
   * a destination account the user owns. Any request lacking one of
   * these is refused, and by `RefusalKeepsState` changes nothing.
   */
  lemma AcceptedOnlyIf(s: State, req: Request, user: Id)
    requires IncomePost(s, req, user).response.Success?
    ensures req.name.Str? && Trim(req.name.s) != []
    ensures req.amount.Num? && req.amount.n > 0.0
    ensures Truthy(req.date)
    ensures req.allocations.Some? && req.allocations.value != []
    ensures DistinctIds(req.allocations.value)
    ensures forall i :: 0 <= i < |req.allocations.value| ==> Owned(s.goals, req.allocations.value[i], user)
    ensures req.source.Str? && Trim(req.source.s) != [] && req.destAccount.Str? && Trim(req.destAccount.s) != []
    ensures req.source.Str? && req.source.s in s.sources && s.sources[req.source.s].user == user
    ensures req.destAccount.Str? && req.destAccount.s in s.accounts && s.accounts[req.destAccount.s].user == user
  {
    var p := Accepted(s, req, user);
    FoundAll(s.goals, p.req.goalIds, user);
  }

  /**
   * An accepted income is appended with its trimmed name, and the destination
   * account's balance grows by exactly the full amount, whatever is
   * allocated; no other account changes.
   */
  lemma AccountCredited(s: State, req: Request, user: Id)
    requires IncomePost(s, req, user).response.Success?
    ensures req.amount.Num? && req.destAccount.Str? && req.destAccount.s in s.accounts
    ensures var a := req.destAccount.s;
            IncomePost(s, req, user).state.accounts
            == s.accounts[a := s.accounts[a].(balance := s.accounts[a].balance + req.amount.n)]
    ensures var o := IncomePost(s, req, user);
            && o.state.incomes == s.incomes + [o.response.value]
            && o.response.value.amount == req.amount.n
            && o.response.value.name == Trim(req.name.s)
  {
    var p := Accepted(s, req, user);
  }

  /**
   * The goals after an accepted income: a goal the request lists whose
   * allocation `floor(amount * rate / 100)` is positive has its balance
   * (absent counting as 0) raised by exactly that allocation; every other
   * goal, listed or not, is unchanged, and no goal is added or removed.
   */
  lemma GoalsCredited(s: State, req: Request, user: Id, k: Id)
    requires IncomePost(s, req, user).response.Success?
    ensures req.amount.Num? && req.allocations.Some?
    ensures IncomePost(s, req, user).state.goals.Keys == s.goals.Keys
    ensures k in s.goals ==>
      var amount, listed := req.amount.n, Str(k) in req.allocations.value;
      IncomePost(s, req, user).state.goals[k]
      == if listed && Allocation(amount, s.goals[k]) > 0 then Credited(s.goals[k], Allocation(amount, s.goals[k]))
         else s.goals[k]
  {
    var p := Accepted(s, req, user);
    ListedIsFound(s.goals, p.req.goalIds, user);
    RecordGoalsAt(s, p, k, Str(k) in req.allocations.value);
  }

  /**
   * The allocation records of an accepted income: appended after the
   * existing ones, one for each listed goal with a positive allocation and no
   * other, at most one per goal, each carrying the new income's
   * position and exactly the amount by which that goal's balance grew.
   */
  lemma AllocationsRecorded(s: State, req: Request, user: Id)
    requires IncomePost(s, req, user).response.Success?
    ensures req.amount.Num? && req.allocations.Some?
    ensures var o := IncomePost(s, req, user);
            && |o.state.incomeAllocations| >= |s.incomeAllocations|
            && o.state.incomeAllocations[..|s.incomeAllocations|] == s.incomeAllocations
    ensures var o := IncomePost(s, req, user);
            var recs := o.state.incomeAllocations[|s.incomeAllocations|..];
            && (forall r :: r in recs ==>
                  && r.income == |s.incomes|
                  && Str(r.goal) in req.allocations.value && r.goal in s.goals && r.goal in o.state.goals
                  && r.amount == Allocation(req.amount.n, s.goals[r.goal]) > 0
                  && BalanceOrZero(o.state.goals[r.goal].balance) == BalanceOrZero(s.goals[r.goal].balance) + r.amount as real)
            && (forall g :: g in s.goals && Str(g) in req.allocations.value && Allocation(req.amount.n, s.goals[g]) > 0
                  ==> IncomeAllocation(|s.incomes|, g, Allocation(req.amount.n, s.goals[g])) in recs)
            && (forall i, j :: 0 <= i < j < |recs| ==> recs[i].goal != recs[j].goal)
  {
    var p := Accepted(s, req, user);
    ListedIsFound(s.goals, p.req.goalIds, user);
    FoundGoalsFacts(s.goals, p.req.goalIds, user);
    var recs := AllocationRecords(s.goals, p.goals, p.req.amount, |s.incomes|);
    RecordAllocations(s, p);
    AllocationRecordsFacts(s.goals, p.goals, p.req.amount, |s.incomes|);
    var o := IncomePost(s, req, user);
    assert o.state.incomeAllocations[|s.incomeAllocations|..] == recs;
    assert o.state.incomeAllocations[..|s.incomeAllocations|] == s.incomeAllocations;
  }

  /**
   * With non-negative rates on the listed goals, an accepted income
   * allocates in total at most the sum over those goals of
   * `amount * rate / 100` (which `QuotaSumScales` shows to be
   * `amount * (sum of their rates) / 100`), and so no more than the income
   * itself when those rates add up to 100 or less.
   */
  lemma AllocatedWithinIncome(s: State, req: Request, user: Id)
    requires IncomePost(s, req, user).response.Success?
    requires req.allocations.Some?
    requires forall g :: g in s.goals && Str(g) in req.allocations.value ==> Rate(s.goals[g]) >= 0.0
    ensures var p := Prepare(s, req, user).value;
            var added := TotalAllocated(IncomePost(s, req, user).state.incomeAllocations[|s.incomeAllocations|..]);
            && added as real <= QuotaSum(s.goals, p.goals, p.req.amount)
            && (RateSum(s.goals, p.goals) <= 100.0 ==> added as real <= p.req.amount)
  {
    var p := Accepted(s, req, user);
    FoundGoalsFacts(s.goals, p.req.goalIds, user);
    var recs := AllocationRecords(s.goals, p.goals, p.req.amount, |s.incomes|);
    assert IncomePost(s, req, user).state.incomeAllocations[|s.incomeAllocations|..] == recs;
    AllocatedAtMostQuota(s.goals, p.goals, p.req.amount, |s.incomes|);
    if RateSum(s.goals, p.goals) <= 100.0 {
      AllocatedAtMostIncome(s.goals, p.goals, p.req.amount, |s.incomes|);
    }
  }
}
