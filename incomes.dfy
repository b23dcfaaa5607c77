/**
 * POST /api/incomes: records an income, credits its full amount to the
 * destination account, and funds each goal the request lists with
 * `floor(amount * allocationRate / 100)`, writing one allocation record per
 * goal that receives something.
 */
module IncomeRoute {
  import opened Wrappers
  import opened Js
  import opened Money
  import opened Store
  import Tally

  /** The request body; `allocations` is `None` when it is not an array. */
  datatype Request = Request(
    name: JsValue,
    amount: JsValue,
    source: JsValue,
    date: JsValue,
    notes: JsValue,
    destAccount: JsValue,
    allocations: Option<seq<JsValue>>)

  datatype Error =
    | NameRequired
    | AmountNotPositive
    | SourceRequired
    | DateRequired
    | DestAccountRequired
    | GoalsRequired
    | SourceNotFound
    | AccountNotFound
    | GoalsNotFound
      /** `.trim()` called on a value that is not a string */
    | TypeError

  /** The request once the basic checks have passed. */
  datatype Checked = Checked(name: string, amount: real, sourceId: Id, date: JsValue, accountId: Id, goalIds: seq<JsValue>)

  /** The checks of the request body, in the order the handler makes them. */
  function Validate(req: Request): (r: Result<Checked, Error>)
    ensures r.Success? ==> r.value.amount > 0.0 && r.value.goalIds != []
    ensures r.Success? ==> req.amount == Num(r.value.amount) && req.allocations == Some(r.value.goalIds)
    ensures r.Success? ==> req.source == Str(r.value.sourceId) && req.destAccount == Str(r.value.accountId)
    ensures r.Success? ==> req.name.Str? && r.value.name == Trim(req.name.s) && r.value.name != []
    ensures r.Success? ==> Trim(r.value.sourceId) != [] && Trim(r.value.accountId) != []
    ensures r.Success? ==> Truthy(req.date) && r.value.date == req.date
  {
    var name :- RequireText(req.name, NameRequired, TypeError);
    if !(req.amount.Num? && req.amount.n > 0.0) then Failure(AmountNotPositive)
    else
      var sourceId :- RequireText(req.source, SourceRequired, TypeError);
      if !Truthy(req.date) then Failure(DateRequired)
      else
        var accountId :- RequireText(req.destAccount, DestAccountRequired, TypeError);
        if req.allocations.None? || req.allocations.value == [] then Failure(GoalsRequired)
        else Success(Checked(Trim(name), req.amount.n, sourceId, req.date, accountId, req.allocations.value))
  }

  // ---------------------------------------------------------------------------
  // The goals a request names
  // ---------------------------------------------------------------------------

  /** The goal `v` names, if it is one of `user`'s goals. */
  predicate Owned(goals: map<Id, IncomeGoal>, v: JsValue, user: Id) {
    v.Str? && v.s in goals && goals[v.s].user == user
  }

  /**
   * `IncomeGoal.find({ _id: { $in: goalIds }, user })`: the user's goals the
   * list names, each once, in the order the list first names them.
   */
  function FoundGoals(goals: map<Id, IncomeGoal>, ids: seq<JsValue>, user: Id): seq<Id> {
    if ids == [] then []
    else
      var found := FoundGoals(goals, ids[..|ids| - 1], user);
      var v := ids[|ids| - 1];
      found + (if Owned(goals, v, user) && v.s !in found then [v.s] else [])
  }

  /** The ids of `ids` are distinct strings. */
  predicate DistinctIds(ids: seq<JsValue>) {
    forall i, j :: 0 <= i < j < |ids| ==> ids[i] != ids[j]
  }

  /**
   * What `find` returns: distinct goals, each owned by the user and named by
   * the list, every owned goal the list names, and never more goals than ids.
   */
  lemma {:induction false} FoundGoalsFacts(goals: map<Id, IncomeGoal>, ids: seq<JsValue>, user: Id)
    ensures var found := FoundGoals(goals, ids, user);
            && Tally.Distinct(found)
            && |found| <= |ids|
            && (forall g :: g in found <==> Str(g) in ids && g in goals && goals[g].user == user)
  {
    if ids != [] {
      var init := ids[..|ids| - 1];
      var v := ids[|ids| - 1];
      FoundGoalsFacts(goals, init, user);
      var found := FoundGoals(goals, init, user);
      assert ids == init + [v];
      var r := FoundGoals(goals, ids, user);
      if Owned(goals, v, user) && v.s !in found {
        forall i, j | 0 <= i < j < |r| ensures r[i] != r[j] {
          if j == |found| {
            assert r[i] == found[i];
          }
        }
      }
    }
  }

  /** A list whose every id names a distinct goal of the user's finds one goal per id. */
  lemma {:induction false} FoundAllIf(goals: map<Id, IncomeGoal>, ids: seq<JsValue>, user: Id)
    requires DistinctIds(ids) && forall i :: 0 <= i < |ids| ==> Owned(goals, ids[i], user)
    ensures |FoundGoals(goals, ids, user)| == |ids|
  {
    if ids != [] {
      var init := ids[..|ids| - 1];
      var v := ids[|ids| - 1];
      assert forall i :: 0 <= i < |init| ==> init[i] == ids[i];
      FoundAllIf(goals, init, user);
      FoundGoalsFacts(goals, init, user);
      assert v !in init;
      assert Owned(goals, v, user);
      assert v == Str(v.s);
    }
  }

  /** A list that finds one goal per id names distinct goals, all of them the user's. */
  lemma {:induction false} FoundAllOnlyIf(goals: map<Id, IncomeGoal>, ids: seq<JsValue>, user: Id)
    requires |FoundGoals(goals, ids, user)| == |ids|
    ensures DistinctIds(ids) && forall i :: 0 <= i < |ids| ==> Owned(goals, ids[i], user)
  {
    if ids != [] {
      var init := ids[..|ids| - 1];
      var v := ids[|ids| - 1];
      FoundGoalsFacts(goals, init, user);
      var found := FoundGoals(goals, init, user);
      assert Owned(goals, v, user) && v.s !in found;
      FoundAllOnlyIf(goals, init, user);
      assert forall i :: 0 <= i < |init| ==> init[i] == ids[i];
      assert v !in init;
    }
  }

  /**
   * The count check `goals.length !== goalIds.length` passes exactly when the
   * list names distinct goals, all of them the user's.
   */
  lemma FoundAll(goals: map<Id, IncomeGoal>, ids: seq<JsValue>, user: Id)
    ensures |FoundGoals(goals, ids, user)| == |ids|
        <==> DistinctIds(ids) && forall i :: 0 <= i < |ids| ==> Owned(goals, ids[i], user)
  {
    if |FoundGoals(goals, ids, user)| == |ids| {
      FoundAllOnlyIf(goals, ids, user);
    }
    if DistinctIds(ids) && forall i :: 0 <= i < |ids| ==> Owned(goals, ids[i], user) {
      FoundAllIf(goals, ids, user);
    }
  }

  // ---------------------------------------------------------------------------
  // Allocation
  // ---------------------------------------------------------------------------

  /** `Number(goal.allocationRate) || 0` */
  function Rate(g: IncomeGoal): real {
    match g.allocationRate
    case Some(r) => r
    case None => 0.0
  }

  /** `Math.floor((amount * rate) / 100)` */
  function Allocation(amount: real, g: IncomeGoal): int {
    Floor((amount * Rate(g)) / 100.0)
  }

  /** `goal.balance = (goal.balance || 0) + allocAmt` */
  function Credited(g: IncomeGoal, a: int): IncomeGoal {
    g.(balance := Some(BalanceOrZero(g.balance) + a as real))
  }

  /**
   * The goals once each goal of `ids`, as loaded from `goals`, has been
   * credited its positive allocation.
   */
  function AllocatedGoals(goals: map<Id, IncomeGoal>, ids: seq<Id>, amount: real): map<Id, IncomeGoal>
    requires forall g :: g in ids ==> g in goals
  {
    if ids == [] then goals
    else
      var m := AllocatedGoals(goals, ids[..|ids| - 1], amount);
      var gid := ids[|ids| - 1];
      var a := Allocation(amount, goals[gid]);
      if a > 0 then m[gid := Credited(goals[gid], a)] else m
  }

  /** One allocation record per goal of `ids` whose allocation is positive, in order. */
  function AllocationRecords(loaded: map<Id, IncomeGoal>, ids: seq<Id>, amount: real, income: nat): seq<IncomeAllocation>
    requires forall g :: g in ids ==> g in loaded
  {
    if ids == [] then []
    else
      var gid := ids[|ids| - 1];
      var a := Allocation(amount, loaded[gid]);
      AllocationRecords(loaded, ids[..|ids| - 1], amount, income)
      + (if a > 0 then [IncomeAllocation(income, gid, a)] else [])
  }

  /**
   * Crediting distinct goals: a goal of `ids` with a positive allocation ends
   * with its loaded balance (absent counting as 0) plus that allocation; every
   * other goal is as it was. No goal is added or removed.
   */
  lemma {:induction false} AllocatedGoalsAt(goals: map<Id, IncomeGoal>, ids: seq<Id>, amount: real, k: Id)
    requires forall g :: g in ids ==> g in goals
    ensures AllocatedGoals(goals, ids, amount).Keys == goals.Keys
    ensures k in goals ==>
      AllocatedGoals(goals, ids, amount)[k]
      == if k in ids && Allocation(amount, goals[k]) > 0 then Credited(goals[k], Allocation(amount, goals[k])) else goals[k]
  {
    if ids != [] {
      var init := ids[..|ids| - 1];
      var gid := ids[|ids| - 1];
      assert forall g :: g in init ==> g in ids;
      AllocatedGoalsAt(goals, init, amount, k);
      assert ids == init + [gid];
    }
  }

  /**
   * The allocation records: one per goal of `ids` whose allocation is
   * positive, each carrying the income and that goal's allocation,
   * which is exactly by how much that goal's balance grows.
   */
  lemma AllocationRecordsFacts(goals: map<Id, IncomeGoal>, ids: seq<Id>, amount: real, income: nat)
    requires forall g :: g in ids ==> g in goals
    requires Tally.Distinct(ids)
    ensures var recs := AllocationRecords(goals, ids, amount, income);
            && (forall r :: r in recs ==>
                  && r.income == income && r.goal in ids
                  && r.amount == Allocation(amount, goals[r.goal]) > 0)
            && (forall g :: g in ids && Allocation(amount, goals[g]) > 0
                  ==> IncomeAllocation(income, g, Allocation(amount, goals[g])) in recs)
            && (forall i, j :: 0 <= i < j < |recs| ==> recs[i].goal != recs[j].goal)
  {
    AllocationRecordsOf(goals, ids, amount, income);
    AllocationRecordsDistinct(goals, ids, amount, income);
  }

  /** Which records there are: exactly one carrying each positive allocation of a goal of `ids`. */
  lemma {:induction false} AllocationRecordsOf(goals: map<Id, IncomeGoal>, ids: seq<Id>, amount: real, income: nat)
    requires forall g :: g in ids ==> g in goals
    ensures var recs := AllocationRecords(goals, ids, amount, income);
            && (forall r :: r in recs ==>
                  && r.income == income && r.goal in ids
                  && r.amount == Allocation(amount, goals[r.goal]) > 0)
            && (forall g :: g in ids && Allocation(amount, goals[g]) > 0
                  ==> IncomeAllocation(income, g, Allocation(amount, goals[g])) in recs)
  {
    if ids != [] {
      var init := ids[..|ids| - 1];
      var gid := ids[|ids| - 1];
      assert ids == init + [gid];
      assert forall g :: g in init ==> g in ids;
      AllocationRecordsOf(goals, init, amount, income);
    }
  }

  /** Distinct goals give records for distinct goals. */
  lemma {:induction false} AllocationRecordsDistinct(goals: map<Id, IncomeGoal>, ids: seq<Id>, amount: real, income: nat)
    requires forall g :: g in ids ==> g in goals
    requires Tally.Distinct(ids)
    ensures var recs := AllocationRecords(goals, ids, amount, income);
            forall i, j :: 0 <= i < j < |recs| ==> recs[i].goal != recs[j].goal
  {
    if ids != [] {
      var init := ids[..|ids| - 1];
      var gid := ids[|ids| - 1];
      assert ids == init + [gid];
      assert forall g :: g in init ==> g in ids;
      assert Tally.Distinct(init) by {
        forall i, j | 0 <= i < j < |init| ensures init[i] != init[j] {
          assert init[i] == ids[i] && init[j] == ids[j];
        }
      }
      AllocationRecordsDistinct(goals, init, amount, income);
      AllocationRecordsOf(goals, init, amount, income);
      var before := AllocationRecords(goals, init, amount, income);
      var recs := AllocationRecords(goals, ids, amount, income);
      assert gid !in init;
      forall i, j | 0 <= i < j < |recs| ensures recs[i].goal != recs[j].goal {
        if j >= |before| {
          assert recs[i] in before;
        }
      }
    }
  }

  /** With a non-negative rate a goal's allocation is a whole amount in `[0, amount * rate / 100]`. */
  lemma AllocationBounds(amount: real, g: IncomeGoal)
    requires amount >= 0.0 && Rate(g) >= 0.0
    ensures 0 <= Allocation(amount, g)
    ensures Allocation(amount, g) as real <= amount * Rate(g) / 100.0
    ensures amount * Rate(g) / 100.0 >= 0.0
  {
    assert amount * Rate(g) >= 0.0;
  }

  /** The sum of the records' amounts. */
  function TotalAllocated(recs: seq<IncomeAllocation>): int {
    if recs == [] then 0 else TotalAllocated(recs[..|recs| - 1]) + recs[|recs| - 1].amount
  }

  /** The sum of the goals' rates. */
  function RateSum(goals: map<Id, IncomeGoal>, ids: seq<Id>): real
    requires forall g :: g in ids ==> g in goals
  {
    if ids == [] then 0.0 else RateSum(goals, ids[..|ids| - 1]) + Rate(goals[ids[|ids| - 1]])
  }

  /** Scaling a sum: `amount * (r0 + r) / 100` is `amount * r0 / 100 + amount * r / 100`. */
  lemma ScaleSum(amount: real, r0: real, r: real)
    ensures amount * (r0 + r) / 100.0 == amount * r0 / 100.0 + amount * r / 100.0
  {
  }

  /** The last goal of `ids` adds its allocation to the total when that is positive, and nothing otherwise. */
  lemma TotalAllocatedStep(goals: map<Id, IncomeGoal>, ids: seq<Id>, amount: real, income: nat)
    requires ids != [] && forall g :: g in ids ==> g in goals
    ensures var a := Allocation(amount, goals[ids[|ids| - 1]]);
            TotalAllocated(AllocationRecords(goals, ids, amount, income))
            == TotalAllocated(AllocationRecords(goals, ids[..|ids| - 1], amount, income)) + (if a > 0 then a else 0)
  {
    var recs := AllocationRecords(goals, ids, amount, income);
    var before := AllocationRecords(goals, ids[..|ids| - 1], amount, income);
    var a := Allocation(amount, goals[ids[|ids| - 1]]);
    if a > 0 {
      var last := IncomeAllocation(income, ids[|ids| - 1], a);
      assert recs == before + [last];
      assert recs[..|recs| - 1] == before && recs[|recs| - 1] == last;
      assert TotalAllocated(recs) == TotalAllocated(before) + a;
    } else {
      assert recs == before;
    }
  }

  /** `amount * rate / 100` summed over the goals of `ids`: what they would get without rounding down. */
  function QuotaSum(goals: map<Id, IncomeGoal>, ids: seq<Id>, amount: real): real
    requires forall g :: g in ids ==> g in goals
  {
    if ids == [] then 0.0 else QuotaSum(goals, ids[..|ids| - 1], amount) + amount * Rate(goals[ids[|ids| - 1]]) / 100.0
  }

  /** The unrounded quotas add up to `amount * (sum of rates) / 100`. */
  lemma {:induction false} QuotaSumScales(goals: map<Id, IncomeGoal>, ids: seq<Id>, amount: real)
    requires forall g :: g in ids ==> g in goals
    ensures QuotaSum(goals, ids, amount) == amount * RateSum(goals, ids) / 100.0
  {
    if ids != [] {
      var init := ids[..|ids| - 1];
      assert forall x :: x in init ==> x in ids;
      QuotaSumScales(goals, init, amount);
      ScaleSum(amount, RateSum(goals, init), Rate(goals[ids[|ids| - 1]]));
    }
  }

  /** With non-negative amount and rates, the records allocate at most the unrounded quotas. */
  lemma {:induction false} AllocatedAtMostQuota(goals: map<Id, IncomeGoal>, ids: seq<Id>, amount: real, income: nat)
    requires forall g :: g in ids ==> g in goals && Rate(goals[g]) >= 0.0
    requires amount >= 0.0
    ensures TotalAllocated(AllocationRecords(goals, ids, amount, income)) as real <= QuotaSum(goals, ids, amount)
  {
    if ids != [] {
      var init := ids[..|ids| - 1];
      assert forall x :: x in init ==> x in ids;
      var g := goals[ids[|ids| - 1]];
      var q := amount * Rate(g) / 100.0;
      assert QuotaSum(goals, ids, amount) == QuotaSum(goals, init, amount) + q;
      AllocatedAtMostQuota(goals, init, amount, income);
      AllocationBounds(amount, g);
      TotalAllocatedStep(goals, ids, amount, income);
    }
  }

  /**
   * With non-negative amount and rates, all records together allocate at
   * most `amount * (sum of rates) / 100`.
   */
  lemma AllocatedAtMost(goals: map<Id, IncomeGoal>, ids: seq<Id>, amount: real, income: nat)
    requires forall g :: g in ids ==> g in goals && Rate(goals[g]) >= 0.0
    requires amount >= 0.0
    ensures TotalAllocated(AllocationRecords(goals, ids, amount, income)) as real <= amount * RateSum(goals, ids) / 100.0
  {
    AllocatedAtMostQuota(goals, ids, amount, income);
    QuotaSumScales(goals, ids, amount);
  }

  /** So the records allocate no more than the income itself when the rates add up to 100 or less. */
  lemma AllocatedAtMostIncome(goals: map<Id, IncomeGoal>, ids: seq<Id>, amount: real, income: nat)
    requires forall g :: g in ids ==> g in goals && Rate(goals[g]) >= 0.0
    requires amount >= 0.0 && RateSum(goals, ids) <= 100.0
    ensures TotalAllocated(AllocationRecords(goals, ids, amount, income)) as real <= amount
  {
    AllocatedAtMostQuota(goals, ids, amount, income);
    QuotaWithinIncome(goals, ids, amount);
  }

  /** The unrounded quotas add up to at most the income when the rates add up to 100 or less. */
  lemma QuotaWithinIncome(goals: map<Id, IncomeGoal>, ids: seq<Id>, amount: real)
    requires forall g :: g in ids ==> g in goals
    requires amount >= 0.0 && RateSum(goals, ids) <= 100.0
    ensures QuotaSum(goals, ids, amount) <= amount
  {
    QuotaSumScales(goals, ids, amount);
    WithinWhole(QuotaSum(goals, ids, amount), amount, RateSum(goals, ids));
  }

  /** A share of at most 100 percent of a non-negative amount is at most the amount. */
  lemma WithinWhole(total: real, amount: real, rate: real)
    requires amount >= 0.0 && rate <= 100.0 && total <= amount * rate / 100.0
    ensures total <= amount
  {
    assert amount * rate <= amount * 100.0;
  }

  lemma {:induction false} RateSumNonNegative(goals: map<Id, IncomeGoal>, ids: seq<Id>)
    requires forall g :: g in ids ==> g in goals && Rate(goals[g]) >= 0.0
    ensures RateSum(goals, ids) >= 0.0
  {
    if ids != [] {
      assert forall g :: g in ids[..|ids| - 1] ==> g in ids;
      RateSumNonNegative(goals, ids[..|ids| - 1]);
    }
  }

  // ---------------------------------------------------------------------------
  // The handler
  // ---------------------------------------------------------------------------

  /** Everything the handler knows before it writes. */
  datatype Plan = Plan(req: Checked, user: Id, account: Account, goals: seq<Id>, notes: string)

  /** `notes?.trim() || ''` */
  function TrimmedNotes(v: JsValue): Result<string, Error> {
    match v
    case Undefined => Success("")
    case Null => Success("")
    case Str(s) => Success(Trim(s))
    case _ => Failure(TypeError)
  }

  /** The checks and lookups, up to the creation of the Income record; nothing is written before it. */
  function Prepare(s: State, req: Request, user: Id): (r: Result<Plan, Error>)
    ensures r.Success? ==> r.value.user == user && r.value.req.amount > 0.0
    ensures r.Success? ==> forall g :: g in r.value.goals ==> g in s.goals
  {
    var c :- Validate(req);
    var source := FindOwned(s.sources, SourceOwner, c.sourceId, user);
    var account := FindOwned(s.accounts, AccountOwner, c.accountId, user);
    if source.None? then Failure(SourceNotFound)
    else if account.None? then Failure(AccountNotFound)
    else
      var goals := FoundGoals(s.goals, c.goalIds, user);
      if |goals| != |c.goalIds| then Failure(GoalsNotFound)
      else
        var notes :- TrimmedNotes(req.notes);
        FoundGoalsFacts(s.goals, c.goalIds, user);
        Success(Plan(c, user, account.value, goals, notes))
  }

  function IncomeRecord(p: Plan): Income {
    Income(p.user, p.req.name, p.req.amount, p.req.sourceId, p.req.date, p.notes, p.req.accountId)
  }

  /**
   * The writes: the Income record, the full amount credited to the account,
   * the goals credited their positive allocations, and one allocation record
   * for each of them.
   */
  function Record(s: State, p: Plan): Outcome<Income, Error>
    requires forall g :: g in p.goals ==> g in s.goals
  {
    var id := |s.incomes|;
    var income := IncomeRecord(p);
    Outcome(Success(income),
            s.(incomes := s.incomes + [income],
               accounts := s.accounts[p.req.accountId := p.account.(balance := p.account.balance + p.req.amount)],
               goals := AllocatedGoals(s.goals, p.goals, p.req.amount),
               incomeAllocations := s.incomeAllocations + AllocationRecords(s.goals, p.goals, p.req.amount, id)))
  }

  /** POST /api/incomes as a transition of the database. */
  function IncomePost(s: State, req: Request, user: Id): Outcome<Income, Error> {
    match Prepare(s, req, user)
    case Failure(e) => Outcome(Failure(e), s)
    case Success(p) => Record(s, p)
  }

  method PreparePlan(db: Db, req: Request, user: Id) returns (r: Result<Plan, Error>)
    ensures r == Prepare(db.Snapshot(), req, user)
  {
    var v := Validate(req);
    if v.Failure? {
      return Failure(v.error);
    }
    var c := v.value;
    var source := FindOwned(db.sources, SourceOwner, c.sourceId, user);
    var account := FindOwned(db.accounts, AccountOwner, c.accountId, user);
    if source.None? {
      return Failure(SourceNotFound);
    }
    if account.None? {
      return Failure(AccountNotFound);
    }
    var goals := FoundGoals(db.goals, c.goalIds, user);
    if |goals| != |c.goalIds| {
      return Failure(GoalsNotFound);
    }
    var notes := TrimmedNotes(req.notes);
    if notes.Failure? {
      return Failure(notes.error);
    }
    r := Success(Plan(c, user, account.value, goals, notes.value));
  }

  /** One more goal of the loop: its allocation record and credit, if its allocation is positive. */
  lemma AllocationStep(goals: map<Id, IncomeGoal>, ids: seq<Id>, i: nat, amount: real, income: nat)
    requires i < |ids| && forall g :: g in ids ==> g in goals
    ensures forall g :: g in ids[..i] ==> g in goals
    ensures forall g :: g in ids[..i + 1] ==> g in goals
    ensures var gid, a := ids[i], Allocation(amount, goals[ids[i]]);
            && AllocationRecords(goals, ids[..i + 1], amount, income)
               == AllocationRecords(goals, ids[..i], amount, income)
                  + (if a > 0 then [IncomeAllocation(income, gid, a)] else [])
            && AllocatedGoals(goals, ids[..i + 1], amount)
               == if a > 0 then AllocatedGoals(goals, ids[..i], amount)[gid := Credited(goals[gid], a)]
                  else AllocatedGoals(goals, ids[..i], amount)
  {
    var done := ids[..i + 1];
    assert done[..i] == ids[..i] && done[i] == ids[i];
  }

  /**
   * The allocation loop over the goals as loaded: each goal whose allocation
   * is positive is credited and gets an allocation record.
   */
  method Allocate(loaded: map<Id, IncomeGoal>, ids: seq<Id>, amount: real, incomeId: nat)
    returns (goals: map<Id, IncomeGoal>, allocationDocs: seq<IncomeAllocation>)
    requires forall g :: g in ids ==> g in loaded
    ensures goals == AllocatedGoals(loaded, ids, amount)
    ensures allocationDocs == AllocationRecords(loaded, ids, amount, incomeId)
  {
    goals := loaded;
    allocationDocs := [];
    var i := 0;
    while i < |ids|
      invariant 0 <= i <= |ids|
      invariant allocationDocs == AllocationRecords(loaded, ids[..i], amount, incomeId)
      invariant goals == AllocatedGoals(loaded, ids[..i], amount)
    {
      var gid := ids[i];
      var goal := loaded[gid];
      var rate := Rate(goal);
      var allocAmt := Floor((amount * rate) / 100.0);
      AllocationStep(loaded, ids, i, amount, incomeId);
      assert allocAmt == Allocation(amount, goal);
      if allocAmt > 0 {
        goals := goals[gid := goal.(balance := Some(BalanceOrZero(goal.balance) + allocAmt as real))];
        allocationDocs := allocationDocs + [IncomeAllocation(incomeId, gid, allocAmt)];
      }
      i := i + 1;
    }
    assert ids[..|ids|] == ids;
  }

  /**
   * The writes: the income, the account's balance, then the goals and the
   * allocation records, which the handler saves together (`Promise.all`)
   * after the loop of `Allocate`.
   */
  method Commit(db: Db, p: Plan) returns (r: Result<Income, Error>)
    requires forall g :: g in p.goals ==> g in db.goals
    modifies db
    ensures Outcome(r, db.Snapshot()) == Record(old(db.Snapshot()), p)
  {
    var amount := p.req.amount;
    var incomeId := |db.incomes|;
    var income := IncomeRecord(p);
    var goals, allocationDocs := Allocate(db.goals, p.goals, amount, incomeId);
    db.incomes := db.incomes + [income];
    db.accounts := db.accounts[p.req.accountId := p.account.(balance := p.account.balance + amount)];
    db.goals := goals;
    if |allocationDocs| > 0 {
      db.incomeAllocations := db.incomeAllocations + allocationDocs;
    } else {
      assert db.incomeAllocations + allocationDocs == db.incomeAllocations;
    }
    r := Success(income);
  }

  method Post(db: Db, req: Request, user: Id) returns (r: Result<Income, Error>)
    modifies db
    ensures Outcome(r, db.Snapshot()) == IncomePost(old(db.Snapshot()), req, user)
  {
    var prepared := PreparePlan(db, req, user);
    if prepared.Failure? {
      return Failure(prepared.error);
    }
    r := Commit(db, prepared.value);
  }
}
