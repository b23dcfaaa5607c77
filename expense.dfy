/**
 * POST /api/expense: the "GoDutch" expense engine. From a bill total, a split
 * specification and the list of who paid what, it builds each participant's
 * share and payment, debits what the user personally paid from their account,
 * credits the user's own share to their goal, writes one split row per
 * participant, nets the others' over- and under-payments into proportional
 * debts, and records the goal allocation.
 */
module ExpenseRoute {
  import opened Wrappers
  import opened Js
  import opened Money
  import opened Store
  import opened Tally

  /** A `{ personId, value }` split entry, or a `{ personId, amountPaid }` payer entry. */
  datatype Entry = Entry(personId: JsValue, amount: JsValue)

  /** The request body; `splits` and `paidBy` are `None` when they are not arrays. */
  datatype Request = Request(
    name: JsValue,
    totalBillAmount: JsValue,
    paidBy: Option<seq<Entry>>,
    splitType: JsValue,
    splits: Option<seq<Entry>>,
    date: JsValue,
    accountId: JsValue,
    categoryId: JsValue,
    typeId: JsValue,
    goalId: JsValue,
    notes: JsValue)

  datatype Error =
    | NameRequired
    | BillNotPositive
    | BadSplitType
    | SplitsNotArray
    | PaidByRequired
    | DateRequired
    | AccountIdRequired
    | GoalIdRequired
    | CategoryIdRequired
    | TypeIdRequired
    | AccountNotFound
    | GoalNotFound
    | SplitPersonRequired
    | SplitValueInvalid
    | SplitsExceedTotal
    | PayerPersonRequired
    | AmountPaidInvalid
    | PaidSumMismatch
    | InsufficientFunds
      /** `.trim()` called on a value that is not a string */
    | TypeError

  /** The created expense with the debts and split rows written for it. */
  datatype Response = Response(expense: Expense, debts: seq<Debt>, splits: seq<ExpenseSplit>)

  // ---------------------------------------------------------------------------
  // Basic validation
  // ---------------------------------------------------------------------------

  /** The request once the basic checks have passed. */
  datatype Checked = Checked(
    name: string,
    bill: real,
    splitType: SplitType,
    splits: seq<Entry>,
    paidBy: seq<Entry>,
    date: JsValue,
    accountId: Id,
    goalId: Id,
    categoryId: Id,
    typeId: Id)

  /** `["PERCENTAGE", "AMOUNT"].includes(splitType)` */
  function ParseSplitType(v: JsValue): Option<SplitType> {
    if v == Str("PERCENTAGE") then Some(Percentage)
    else if v == Str("AMOUNT") then Some(Amount)
    else None
  }

  /** The checks of the request body, in the order the handler makes them. */
  function Validate(req: Request): (r: Result<Checked, Error>)
    ensures r.Success? ==> req.totalBillAmount == Num(r.value.bill) && r.value.bill > 0.0
    ensures r.Success? ==> req.name.Str? && Trim(req.name.s) != [] && r.value.name == Trim(req.name.s)
    ensures r.Success? ==> ParseSplitType(req.splitType) == Some(r.value.splitType)
    ensures r.Success? ==> req.splits == Some(r.value.splits)
    ensures r.Success? ==> req.paidBy == Some(r.value.paidBy) && r.value.paidBy != []
    ensures r.Success? ==> Truthy(req.date) && r.value.date == req.date
    ensures r.Success? ==> && req.accountId == Str(r.value.accountId) && Trim(r.value.accountId) != []
                           && req.goalId == Str(r.value.goalId) && Trim(r.value.goalId) != []
                           && req.categoryId == Str(r.value.categoryId) && Trim(r.value.categoryId) != []
                           && req.typeId == Str(r.value.typeId) && Trim(r.value.typeId) != []
  {
    var name :- RequireText(req.name, NameRequired, TypeError);
    if !(req.totalBillAmount.Num? && req.totalBillAmount.n > 0.0) then Failure(BillNotPositive)
    else if ParseSplitType(req.splitType).None? then Failure(BadSplitType)
    else if req.splits.None? then Failure(SplitsNotArray)
    else if req.paidBy.None? || req.paidBy.value == [] then Failure(PaidByRequired)
    else if !Truthy(req.date) then Failure(DateRequired)
    else
      var accountId :- RequireText(req.accountId, AccountIdRequired, TypeError);
      var goalId :- RequireText(req.goalId, GoalIdRequired, TypeError);
      var categoryId :- RequireText(req.categoryId, CategoryIdRequired, TypeError);
      var typeId :- RequireText(req.typeId, TypeIdRequired, TypeError);
      Success(Checked(Trim(name), req.totalBillAmount.n, ParseSplitType(req.splitType).value,
                      req.splits.value, req.paidBy.value, req.date,
                      accountId, goalId, categoryId, typeId))
  }

  // ---------------------------------------------------------------------------
  // The share map and the paid map
  // ---------------------------------------------------------------------------

  /** `splitType === "PERCENTAGE" ? (value / 100) * totalBillAmount : value` */
  function ShareAmount(st: SplitType, bill: real, value: real): real {
    if st == Percentage then (value / 100.0) * bill else value
  }

  /** Which of the two accumulation loops is running. */
  datatype Pass = SplitPass(splitType: SplitType, bill: real) | PaidPass

  /** What one accepted entry adds to its person's total. */
  function Weight(p: Pass, v: real): real {
    match p
    case SplitPass(st, bill) => ShareAmount(st, bill, v)
    case PaidPass => v
  }

  /** An entry both loops accept: a non-blank string id and a non-negative number. */
  predicate EntryOk(e: Entry) {
    TestTrim(e.personId) == Filled && e.amount.Num? && e.amount.n >= 0.0
  }

  /** One iteration of either loop. */
  function Step(p: Pass, t: Tally, e: Entry): (r: Result<Tally, Error>)
    ensures r.Success? <==> EntryOk(e)
  {
    match TestTrim(e.personId)
    case Blank => Failure(if p.PaidPass? then PayerPersonRequired else SplitPersonRequired)
    case Throws => Failure(TypeError)
    case Filled =>
      if e.amount.Num? && e.amount.n >= 0.0 then Success(Add(t, e.personId.s, Weight(p, e.amount.n)))
      else Failure(if p.PaidPass? then AmountPaidInvalid else SplitValueInvalid)
  }

  /** The loop run over `entries`, stopping at the first rejected entry. */
  function Fold(p: Pass, entries: seq<Entry>): Result<Tally, Error> {
    if entries == [] then Success(Empty)
    else
      match Fold(p, entries[..|entries| - 1])
      case Failure(e) => Failure(e)
      case Success(t) => Step(p, t, entries[|entries| - 1])
  }

  /** The share map: the splits, and then the user's own person absorbs any remainder. */
  function ShareMap(st: SplitType, bill: real, splits: seq<Entry>, self: Id): Result<Tally, Error> {
    var t :- Fold(SplitPass(st, bill), splits);
    var remainder := bill - t.total;
    if remainder < -0.01 then Failure(SplitsExceedTotal)
    else Success(Add(t, self, Max(0.0, remainder)))
  }

  /** The paid map, which must add up to the bill within a cent. */
  function PaidMap(bill: real, paidBy: seq<Entry>): Result<Tally, Error> {
    var t :- Fold(PaidPass, paidBy);
    if Abs(t.total - bill) > 0.01 then Failure(PaidSumMismatch) else Success(t)
  }

  /** The sum of the weights of every entry (assuming all were accepted). */
  function EntriesTotal(p: Pass, entries: seq<Entry>): real {
    if entries == [] then 0.0
    else
      var e := entries[|entries| - 1];
      EntriesTotal(p, entries[..|entries| - 1]) + (if e.amount.Num? then Weight(p, e.amount.n) else 0.0)
  }

  /** The sum of the weights of the entries naming `k`. */
  function PersonTotal(p: Pass, entries: seq<Entry>, k: Id): real {
    if entries == [] then 0.0
    else
      var e := entries[|entries| - 1];
      PersonTotal(p, entries[..|entries| - 1], k)
      + (if e.personId == Str(k) && e.amount.Num? then Weight(p, e.amount.n) else 0.0)
  }

  /** Some entry names `k`. */
  predicate Mentions(entries: seq<Entry>, k: Id) {
    entries != [] && (Mentions(entries[..|entries| - 1], k) || entries[|entries| - 1].personId == Str(k))
  }

  lemma {:induction false} FoldKeepsFailure(p: Pass, entries: seq<Entry>, i: nat)
    requires i <= |entries| && Fold(p, entries[..i]).Failure?
    ensures Fold(p, entries) == Fold(p, entries[..i])
    decreases |entries| - i
  {
    if i < |entries| {
      var init := entries[..|entries| - 1];
      assert init[..i] == entries[..i];
      FoldKeepsFailure(p, init, i);
    } else {
      assert entries[..i] == entries;
    }
  }

  /** One bad entry anywhere makes the whole loop fail. */
  lemma {:induction false} FoldRejectsInvalidEntry(p: Pass, entries: seq<Entry>, i: nat)
    requires i < |entries| && !EntryOk(entries[i])
    ensures Fold(p, entries).Failure?
  {
    var init := entries[..|entries| - 1];
    if i < |entries| - 1 {
      assert init[i] == entries[i];
      FoldRejectsInvalidEntry(p, init, i);
    }
  }

  /** A completed loop gives a well-formed tally whose running sum is the sum of all entries. */
  lemma {:induction false} FoldValid(p: Pass, entries: seq<Entry>)
    requires Fold(p, entries).Success?
    ensures Valid(Fold(p, entries).value)
    ensures Fold(p, entries).value.total == EntriesTotal(p, entries)
  {
    if entries != [] {
      var init := entries[..|entries| - 1];
      var e := entries[|entries| - 1];
      FoldValid(p, init);
      var t0 := Fold(p, init).value;
      assert Fold(p, entries) == Success(Add(t0, e.personId.s, Weight(p, e.amount.n)));
      AddKeepsValid(t0, e.personId.s, Weight(p, e.amount.n));
    }
  }

  /** After a completed loop, `k` is a key exactly when some entry names it, with the sum of those entries. */
  lemma {:induction false} FoldAt(p: Pass, entries: seq<Entry>, k: Id)
    requires Fold(p, entries).Success?
    ensures Get(Fold(p, entries).value, k) == PersonTotal(p, entries, k)
    ensures k in Fold(p, entries).value.amounts <==> Mentions(entries, k)
  {
    if entries != [] {
      var init := entries[..|entries| - 1];
      var e := entries[|entries| - 1];
      FoldAt(p, init, k);
      assert Fold(p, entries) == Success(Add(Fold(p, init).value, e.personId.s, Weight(p, e.amount.n)));
    }
  }

  /**
   * A completed loop gives a well-formed tally whose keys are exactly the
   * people named, where an id given more than once has its amounts added,
   * and whose running sum is the sum of all entries.
   */
  lemma FoldTotals(p: Pass, entries: seq<Entry>)
    requires Fold(p, entries).Success?
    ensures Valid(Fold(p, entries).value)
    ensures Fold(p, entries).value.total == EntriesTotal(p, entries)
    ensures forall k :: Get(Fold(p, entries).value, k) == PersonTotal(p, entries, k)
    ensures forall k :: k in Fold(p, entries).value.amounts <==> Mentions(entries, k)
  {
    FoldValid(p, entries);
    forall k
      ensures Get(Fold(p, entries).value, k) == PersonTotal(p, entries, k)
      ensures k in Fold(p, entries).value.amounts <==> Mentions(entries, k)
    {
      FoldAt(p, entries, k);
    }
  }

  /** A percentage of a non-negative bill, or an amount, is non-negative when the value is. */
  lemma ShareAmountNonNegative(st: SplitType, bill: real, v: real)
    requires bill >= 0.0 && v >= 0.0
    ensures ShareAmount(st, bill, v) >= 0.0
  {
    if st == Percentage {
      var q := v / 100.0;
      assert q >= 0.0;
      assert q * bill >= 0.0;
    }
  }

  /** With a non-negative bill, every accepted entry contributes a non-negative amount. */
  lemma {:induction false} FoldNonNegative(p: Pass, entries: seq<Entry>)
    requires p.SplitPass? ==> p.bill >= 0.0
    requires Fold(p, entries).Success?
    ensures forall k :: k in Fold(p, entries).value.amounts ==> Fold(p, entries).value.amounts[k] >= 0.0
  {
    if entries != [] {
      var init := entries[..|entries| - 1];
      var e := entries[|entries| - 1];
      FoldNonNegative(p, init);
      if p.SplitPass? {
        ShareAmountNonNegative(p.splitType, p.bill, e.amount.n);
      }
      assert Fold(p, entries) == Success(Add(Fold(p, init).value, e.personId.s, Weight(p, e.amount.n)));
    }
  }

  /**
   * The share map is well formed, always lists the user's own person, and its
   * shares add up to at least the bill and at most a cent more.
   */
  lemma ShareMapBalances(st: SplitType, bill: real, splits: seq<Entry>, self: Id)
    requires ShareMap(st, bill, splits, self).Success?
    ensures var t := ShareMap(st, bill, splits, self).value;
      && Valid(t)
      && self in t.keys
      && bill <= Sum(t.keys, t.amounts) <= bill + 0.01
  {
    var p := SplitPass(st, bill);
    FoldValid(p, splits);
    var t0 := Fold(p, splits).value;
    assert ShareMap(st, bill, splits, self) == Success(Add(t0, self, Max(0.0, bill - t0.total)));
    AbsorbsRemainder(t0, self, bill);
  }

  /** Adding what is left of the bill, if anything, to the user's own person brings the sum to within a cent above the bill. */
  lemma AbsorbsRemainder(t0: Tally, self: Id, bill: real)
    requires Valid(t0) && bill - t0.total >= -0.01
    ensures var t := Add(t0, self, Max(0.0, bill - t0.total));
            Valid(t) && self in t.keys && bill <= Sum(t.keys, t.amounts) <= bill + 0.01
  {
    var a := Max(0.0, bill - t0.total);
    var t := Add(t0, self, a);
    AddKeepsValid(t0, self, a);
    assert Sum(t.keys, t.amounts) == t.total == t0.total + a;
    assert bill <= t0.total + a <= bill + 0.01;
  }


  /**
   * Each person's share is the sum of their split entries; the user's own
   * person also absorbs `max(0, bill - sum(splits))`.
   */
  lemma ShareMapShares(st: SplitType, bill: real, splits: seq<Entry>, self: Id, k: Id)
    requires ShareMap(st, bill, splits, self).Success?
    ensures Get(ShareMap(st, bill, splits, self).value, k)
         == PersonTotal(SplitPass(st, bill), splits, k)
            + (if k == self then Max(0.0, bill - EntriesTotal(SplitPass(st, bill), splits)) else 0.0)
  {
    var p := SplitPass(st, bill);
    FoldValid(p, splits);
    FoldAt(p, splits, k);
  }

  /** With a positive bill no share is negative. */
  lemma ShareMapNonNegative(st: SplitType, bill: real, splits: seq<Entry>, self: Id)
    requires bill > 0.0
    requires ShareMap(st, bill, splits, self).Success?
    ensures var t := ShareMap(st, bill, splits, self).value;
            forall k :: k in t.amounts ==> t.amounts[k] >= 0.0
  {
    FoldNonNegative(SplitPass(st, bill), splits);
  }

  /** Splits that exceed the bill by more than a cent are refused. */
  lemma ShareMapRejectsExcess(st: SplitType, bill: real, splits: seq<Entry>, self: Id)
    requires Fold(SplitPass(st, bill), splits).Success?
    ensures ShareMap(st, bill, splits, self) == Failure(SplitsExceedTotal)
        <==> EntriesTotal(SplitPass(st, bill), splits) > bill + 0.01
  {
    FoldValid(SplitPass(st, bill), splits);
  }

  /**
   * The paid map: each payer's total is the sum of their entries, and the map
   * is accepted exactly when its sum is within a cent of the bill.
   */
  lemma PaidMapBalances(bill: real, paidBy: seq<Entry>)
    requires Fold(PaidPass, paidBy).Success?
    ensures PaidMap(bill, paidBy).Success? <==> Abs(EntriesTotal(PaidPass, paidBy) - bill) <= 0.01
    ensures PaidMap(bill, paidBy).Success? ==>
      var t := PaidMap(bill, paidBy).value;
      && Valid(t)
      && Abs(Sum(t.keys, t.amounts) - bill) <= 0.01
      && (forall k :: Get(t, k) == PersonTotal(PaidPass, paidBy, k))
      && (forall k :: k in t.amounts ==> t.amounts[k] >= 0.0)
  {
    FoldTotals(PaidPass, paidBy);
    FoldNonNegative(PaidPass, paidBy);
  }

  method BuildShareMap(st: SplitType, bill: real, splits: seq<Entry>, self: Id) returns (r: Result<Tally, Error>)
    ensures r == ShareMap(st, bill, splits, self)
  {
    var shareMap := Empty;
    var i := 0;
    while i < |splits|
      invariant 0 <= i <= |splits|
      invariant Fold(SplitPass(st, bill), splits[..i]) == Success(shareMap)
    {
      assert splits[..i + 1][..i] == splits[..i];
      var entry := splits[i];
      var check := TestTrim(entry.personId);
      if check != Filled {
        FoldKeepsFailure(SplitPass(st, bill), splits, i + 1);
        return Failure(if check == Blank then SplitPersonRequired else TypeError);
      }
      if !(entry.amount.Num? && entry.amount.n >= 0.0) {
        FoldKeepsFailure(SplitPass(st, bill), splits, i + 1);
        return Failure(SplitValueInvalid);
      }
      var shareAmt := ShareAmount(st, bill, entry.amount.n);
      shareMap := Add(shareMap, entry.personId.s, shareAmt);
      i := i + 1;
    }
    assert splits[..|splits|] == splits;
    var remainder := bill - shareMap.total;
    if remainder < -0.01 {
      return Failure(SplitsExceedTotal);
    }
    r := Success(Add(shareMap, self, Max(0.0, remainder)));
  }

  method BuildPaidMap(bill: real, paidBy: seq<Entry>) returns (r: Result<Tally, Error>)
    ensures r == PaidMap(bill, paidBy)
  {
    var paidMap := Empty;
    var i := 0;
    while i < |paidBy|
      invariant 0 <= i <= |paidBy|
      invariant Fold(PaidPass, paidBy[..i]) == Success(paidMap)
    {
      assert paidBy[..i + 1][..i] == paidBy[..i];
      var entry := paidBy[i];
      var check := TestTrim(entry.personId);
      if check != Filled {
        FoldKeepsFailure(PaidPass, paidBy, i + 1);
        return Failure(if check == Blank then PayerPersonRequired else TypeError);
      }
      if !(entry.amount.Num? && entry.amount.n >= 0.0) {
        FoldKeepsFailure(PaidPass, paidBy, i + 1);
        return Failure(AmountPaidInvalid);
      }
      paidMap := Add(paidMap, entry.personId.s, entry.amount.n);
      i := i + 1;
    }
    assert paidBy[..|paidBy|] == paidBy;
    if Abs(paidMap.total - bill) > 0.01 {
      return Failure(PaidSumMismatch);
    }
    r := Success(paidMap);
  }

  // ---------------------------------------------------------------------------
  // Everything the handler knows before the funds check
  // ---------------------------------------------------------------------------

  datatype Plan = Plan(
    req: Checked,
    user: Id,
    self: Id,
    account: Account,
    goal: IncomeGoal,
    shares: Tally,
    paid: Tally,
    notes: Option<string>)

  /** `paidMap[userPersonId] || 0` */
  function UserPaid(p: Plan): real {
    Get(p.paid, p.self)
  }

  /** `shareMap[userPersonId] || 0` */
  function UserShare(p: Plan): real {
    Get(p.shares, p.self)
  }

  /** `notes?.trim() || null` */
  function TrimmedNotes(v: JsValue): Result<Option<string>, Error> {
    match v
    case Undefined => Success(None)
    case Null => Success(None)
    case Str(s) => if Trim(s) == [] then Success(None) else Success(Some(Trim(s)))
    case _ => Failure(TypeError)
  }

  /** The handler up to the creation of the Expense record; no state is touched before it. */
  function Prepare(s: State, req: Request, user: Id, self: Id): (r: Result<Plan, Error>)
    ensures r.Success? ==> r.value.req.bill > 0.0 && r.value.self == self && r.value.user == user
  {
    var c :- Validate(req);
    Lookup(s, c, req.notes, user, self)
  }

  /** The lookups and the two maps, once the body has passed its basic checks. */
  function Lookup(s: State, c: Checked, notes: JsValue, user: Id, self: Id): (r: Result<Plan, Error>)
    ensures r.Success? ==> r.value.req == c && r.value.self == self && r.value.user == user
  {
    var account := FindOwned(s.accounts, AccountOwner, c.accountId, user);
    var goal := FindOwned(s.goals, GoalOwner, c.goalId, user);
    if account.None? then Failure(AccountNotFound)
    else if goal.None? then Failure(GoalNotFound)
    else
      var shares :- ShareMap(c.splitType, c.bill, c.splits, self);
      var paid :- PaidMap(c.bill, c.paidBy);
      var trimmed :- TrimmedNotes(notes);
      Success(Plan(c, user, self, account.value, goal.value, shares, paid, trimmed))
  }

  /** The Expense record: its `totalAmount` is the user's share. */
  function ExpenseRecord(p: Plan): Expense {
    Expense(p.user, p.req.accountId, p.req.goalId, p.req.name, UserShare(p), p.req.date,
            p.req.categoryId, p.req.typeId, p.req.splitType, p.notes)
  }

  /** The funds check fails when the user paid more than the account holds, beyond a tenth of a cent. */
  predicate FundsShort(p: Plan) {
    UserPaid(p) > p.account.balance + 0.001
  }

  // ---------------------------------------------------------------------------
  // Split rows
  // ---------------------------------------------------------------------------

  /**
   * `splits.find(s => s.personId === pid)?.value ?? 0`. Every entry's value
   * is a number by now, so the last case only covers a missing match.
   */
  function FirstSplitValue(splits: seq<Entry>, pid: Id): real {
    if splits == [] then 0.0
    else if splits[0].personId == Str(pid) then (if splits[0].amount.Num? then splits[0].amount.n else 0.0)
    else FirstSplitValue(splits[1..], pid)
  }

  /** `sharePercent` before rounding */
  function SharePercent(c: Checked, shareAmt: real, pid: Id): real
    requires c.bill > 0.0
  {
    if c.splitType == Percentage then FirstSplitValue(c.splits, pid) else (shareAmt / c.bill) * 100.0
  }

  /** The split row written for participant `pid`. */
  function SplitRow(p: Plan, expenseId: nat, pid: Id): ExpenseSplit
    requires p.req.bill > 0.0
  {
    var shareAmt := Round2(Get(p.shares, pid));
    var paidAmt := Round2(Get(p.paid, pid));
    var sharePercent := SharePercent(p.req, shareAmt, pid);
    var shareRate := if p.req.splitType == Percentage then sharePercent / 100.0 else shareAmt / p.req.bill;
    ExpenseSplit(expenseId, paidAmt > 0.001, shareRate, shareAmt, Round2(sharePercent), paidAmt, pid)
  }

  /** One split row per share-map key, in key order. */
  function SplitRows(p: Plan, expenseId: nat): seq<ExpenseSplit>
    requires p.req.bill > 0.0
  {
    seq(|p.shares.keys|, i requires 0 <= i < |p.shares.keys| => SplitRow(p, expenseId, p.shares.keys[i]))
  }

  /** The rows follow the share map's keys one for one, each pointing at the expense. */
  lemma SplitRowsFollowKeys(p: Plan, expenseId: nat)
    requires p.req.bill > 0.0
    ensures |SplitRows(p, expenseId)| == |p.shares.keys|
    ensures forall i :: 0 <= i < |p.shares.keys| ==>
              SplitRows(p, expenseId)[i].people == p.shares.keys[i] && SplitRows(p, expenseId)[i].expense == expenseId
  {
  }

  method WriteSplits(p: Plan, expenseId: nat) returns (splitDocs: seq<ExpenseSplit>)
    requires p.req.bill > 0.0
    ensures splitDocs == SplitRows(p, expenseId)
  {
    var keys := p.shares.keys;
    splitDocs := [];
    var i := 0;
    while i < |keys|
      invariant 0 <= i <= |keys|
      invariant |splitDocs| == i
      invariant forall j :: 0 <= j < i ==> splitDocs[j] == SplitRow(p, expenseId, keys[j])
    {
      var pid := keys[i];
      var shareAmt := Round2(Get(p.shares, pid));
      var paidAmt := Round2(Get(p.paid, pid));
      var isPaid := paidAmt > 0.001;
      var sharePercent := if p.req.splitType == Percentage then FirstSplitValue(p.req.splits, pid)
                          else (shareAmt / p.req.bill) * 100.0;
      var shareRate := if p.req.splitType == Percentage then sharePercent / 100.0 else shareAmt / p.req.bill;
      splitDocs := splitDocs + [ExpenseSplit(expenseId, isPaid, shareRate, shareAmt, Round2(sharePercent), paidAmt, pid)];
      i := i + 1;
    }
  }

  // ---------------------------------------------------------------------------
  // Overpayers and underpayers
  // ---------------------------------------------------------------------------

  datatype PersonDiff = PersonDiff(personId: Id, diff: real)

  /** `+(paidAmt - shareAmt).toFixed(2)` for one participant */
  function Diff(shares: Tally, paid: Tally, pid: Id): real {
    Round2(Get(paid, pid) - Get(shares, pid))
  }

  /** The participants among `keys` whose rounded difference is above a tenth of a cent. */
  function Overpayers(keys: seq<Id>, shares: Tally, paid: Tally): seq<PersonDiff> {
    if keys == [] then []
    else
      var pid := keys[|keys| - 1];
      var d := Diff(shares, paid, pid);
      Overpayers(keys[..|keys| - 1], shares, paid) + (if d > 0.001 then [PersonDiff(pid, d)] else [])
  }

  /** The participants among `keys` whose rounded difference is below minus a tenth of a cent. */
  function Underpayers(keys: seq<Id>, shares: Tally, paid: Tally): seq<PersonDiff> {
    if keys == [] then []
    else
      var pid := keys[|keys| - 1];
      var d := Diff(shares, paid, pid);
      Underpayers(keys[..|keys| - 1], shares, paid)
      + (if !(d > 0.001) && d < -0.001 then [PersonDiff(pid, d)] else [])
  }

  /** `overpayers.reduce((sum, o) => sum + o.diff, 0)` */
  function TotalOverpaid(overs: seq<PersonDiff>): real {
    if overs == [] then 0.0 else TotalOverpaid(overs[..|overs| - 1]) + overs[|overs| - 1].diff
  }

  method Classify(shares: Tally, paid: Tally) returns (overpayers: seq<PersonDiff>, underpayers: seq<PersonDiff>)
    ensures overpayers == Overpayers(shares.keys, shares, paid)
    ensures underpayers == Underpayers(shares.keys, shares, paid)
  {
    var keys := shares.keys;
    overpayers, underpayers := [], [];
    var i := 0;
    while i < |keys|
      invariant 0 <= i <= |keys|
      invariant overpayers == Overpayers(keys[..i], shares, paid)
      invariant underpayers == Underpayers(keys[..i], shares, paid)
    {
      assert keys[..i + 1][..i] == keys[..i];
      var pid := keys[i];
      var paidAmt := Get(paid, pid);
      var shareAmt := Get(shares, pid);
      var diff := Round2(paidAmt - shareAmt);
      if diff > 0.001 {
        overpayers := overpayers + [PersonDiff(pid, diff)];
      } else if diff < -0.001 {
        underpayers := underpayers + [PersonDiff(pid, diff)];
      }
      i := i + 1;
    }
    assert keys[..|keys|] == keys;
  }

  /** Membership in the overpayer list: a key whose rounded difference is above 0.001, with that difference. */
  lemma {:induction false} OverpayerIff(keys: seq<Id>, shares: Tally, paid: Tally, d: PersonDiff)
    ensures d in Overpayers(keys, shares, paid)
        <==> d.personId in keys && d.diff == Diff(shares, paid, d.personId) && d.diff > 0.001
  {
    if keys != [] {
      var init := keys[..|keys| - 1];
      OverpayerIff(init, shares, paid, d);
      assert keys == init + [keys[|keys| - 1]];
    }
  }

  /** Membership in the underpayer list: a key whose rounded difference is below -0.001, with that difference. */
  lemma {:induction false} UnderpayerIff(keys: seq<Id>, shares: Tally, paid: Tally, d: PersonDiff)
    ensures d in Underpayers(keys, shares, paid)
        <==> d.personId in keys && d.diff == Diff(shares, paid, d.personId) && d.diff < -0.001
  {
    if keys != [] {
      var init := keys[..|keys| - 1];
      UnderpayerIff(init, shares, paid, d);
      assert keys == init + [keys[|keys| - 1]];
    }
  }

  /**
   * No participant is both an overpayer and an underpayer, and every
   * participant is classified by the rounded difference between what they
   * paid and their share: above 0.001 means overpaid, below -0.001 underpaid.
   */
  lemma Classification(keys: seq<Id>, shares: Tally, paid: Tally)
    ensures forall o, u :: o in Overpayers(keys, shares, paid) && u in Underpayers(keys, shares, paid)
                           ==> o.personId != u.personId
    ensures forall pid :: pid in keys && Diff(shares, paid, pid) > 0.001
                          ==> PersonDiff(pid, Diff(shares, paid, pid)) in Overpayers(keys, shares, paid)
    ensures forall pid :: pid in keys && Diff(shares, paid, pid) < -0.001
                          ==> PersonDiff(pid, Diff(shares, paid, pid)) in Underpayers(keys, shares, paid)
  {
    forall o, u | o in Overpayers(keys, shares, paid) && u in Underpayers(keys, shares, paid)
      ensures o.personId != u.personId
    {
      OverpayerIff(keys, shares, paid, o);
      UnderpayerIff(keys, shares, paid, u);
    }
    forall pid | pid in keys
      ensures Diff(shares, paid, pid) > 0.001 ==> PersonDiff(pid, Diff(shares, paid, pid)) in Overpayers(keys, shares, paid)
      ensures Diff(shares, paid, pid) < -0.001 ==> PersonDiff(pid, Diff(shares, paid, pid)) in Underpayers(keys, shares, paid)
    {
      OverpayerIff(keys, shares, paid, PersonDiff(pid, Diff(shares, paid, pid)));
      UnderpayerIff(keys, shares, paid, PersonDiff(pid, Diff(shares, paid, pid)));
    }
  }

  /** Every overpayer's credit is positive, so the total is at least each credit. */
  lemma {:induction false} TotalOverpaidBounds(overs: seq<PersonDiff>)
    requires forall o :: o in overs ==> o.diff > 0.001
    ensures TotalOverpaid(overs) >= 0.0
    ensures overs != [] ==> TotalOverpaid(overs) > 0.001
    ensures forall o :: o in overs ==> o.diff <= TotalOverpaid(overs)
  {
    if overs != [] {
      var init := overs[..|overs| - 1];
      assert forall o :: o in init ==> o in overs;
      TotalOverpaidBounds(init);
      assert overs == init + [overs[|overs| - 1]];
    }
  }

  // ---------------------------------------------------------------------------
  // Debt netting
  // ---------------------------------------------------------------------------

  /** What every debt of one expense shares. */
  datatype DebtContext = DebtContext(user: Id, self: Id, expenseId: nat, currency: Option<Id>, date: JsValue)

  /** `"User"` for the user's own person, `"People"` for anybody else. */
  function PartyTypeOf(pid: Id, ctx: DebtContext): PartyType {
    if pid == ctx.self then User else People
  }

  /** The user's own id for the user's own person, the person id for anybody else. */
  function PartyIdOf(pid: Id, ctx: DebtContext): Id {
    if pid == ctx.self then ctx.user else pid
  }

  /** `+(underAmt * (over.diff / totalOverpaid)).toFixed(2)` with `underAmt = -under.diff` */
  function Owes(under: PersonDiff, over: PersonDiff, totalOverpaid: real): real
    requires totalOverpaid >= 0.001
  {
    Round2((-under.diff) * (over.diff / totalOverpaid))
  }

  /** The debt, if any, that `under` owes `over`. */
  function PairDebt(under: PersonDiff, over: PersonDiff, totalOverpaid: real, ctx: DebtContext): seq<Debt>
    requires totalOverpaid >= 0.001
  {
    var owes := Owes(under, over, totalOverpaid);
    if owes < 0.01 then []
    else [Debt(ctx.user, PartyTypeOf(under.personId, ctx), PartyIdOf(under.personId, ctx),
               PartyTypeOf(over.personId, ctx), PartyIdOf(over.personId, ctx),
               ctx.expenseId, owes, owes, ctx.currency, ctx.date, Pending)]
  }

  /** The debts of one underpayer, one per overpayer it owes a cent or more. */
  function UnderDebts(under: PersonDiff, overs: seq<PersonDiff>, totalOverpaid: real, ctx: DebtContext): seq<Debt>
    requires totalOverpaid >= 0.001
  {
    if overs == [] then []
    else UnderDebts(under, overs[..|overs| - 1], totalOverpaid, ctx) + PairDebt(under, overs[|overs| - 1], totalOverpaid, ctx)
  }

  /** The debts of all underpayers, in order; none when nothing was overpaid. */
  function NettedDebts(unders: seq<PersonDiff>, overs: seq<PersonDiff>, totalOverpaid: real, ctx: DebtContext): seq<Debt> {
    if unders == [] then []
    else
      NettedDebts(unders[..|unders| - 1], overs, totalOverpaid, ctx)
      + (if totalOverpaid < 0.001 then [] else UnderDebts(unders[|unders| - 1], overs, totalOverpaid, ctx))
  }

  function Context(p: Plan, expenseId: nat): DebtContext {
    DebtContext(p.user, p.self, expenseId, p.account.currency, p.req.date)
  }

  /** The debts written for an expense. */
  function DebtRows(p: Plan, expenseId: nat): seq<Debt> {
    var overs := Overpayers(p.shares.keys, p.shares, p.paid);
    var unders := Underpayers(p.shares.keys, p.shares, p.paid);
    NettedDebts(unders, overs, TotalOverpaid(overs), Context(p, expenseId))
  }

  /** The inner loop of the netting: what one underpayer owes each overpayer. */
  method UnderpayerDebts(under: PersonDiff, overpayers: seq<PersonDiff>, totalOverpaid: real, ctx: DebtContext)
    returns (debtDocs: seq<Debt>)
    requires totalOverpaid >= 0.001
    ensures debtDocs == UnderDebts(under, overpayers, totalOverpaid, ctx)
  {
    debtDocs := [];
    var j := 0;
    while j < |overpayers|
      invariant 0 <= j <= |overpayers|
      invariant debtDocs == UnderDebts(under, overpayers[..j], totalOverpaid, ctx)
    {
      assert overpayers[..j + 1][..j] == overpayers[..j];
      var over := overpayers[j];
      var owesAmount := Owes(under, over, totalOverpaid);
      if owesAmount >= 0.01 {
        debtDocs := debtDocs + [Debt(ctx.user, PartyTypeOf(under.personId, ctx), PartyIdOf(under.personId, ctx),
                                     PartyTypeOf(over.personId, ctx), PartyIdOf(over.personId, ctx),
                                     ctx.expenseId, owesAmount, owesAmount, ctx.currency, ctx.date, Pending)];
      }
      j := j + 1;
    }
    assert overpayers[..|overpayers|] == overpayers;
  }

  method NetDebts(underpayers: seq<PersonDiff>, overpayers: seq<PersonDiff>, totalOverpaid: real, ctx: DebtContext)
    returns (debtDocs: seq<Debt>)
    ensures debtDocs == NettedDebts(underpayers, overpayers, totalOverpaid, ctx)
  {
    debtDocs := [];
    var i := 0;
    while i < |underpayers|
      invariant 0 <= i <= |underpayers|
      invariant debtDocs == NettedDebts(underpayers[..i], overpayers, totalOverpaid, ctx)
    {
      assert underpayers[..i + 1][..i] == underpayers[..i];
      var under := underpayers[i];
      if totalOverpaid < 0.001 {
        i := i + 1;
        continue;
      }
      var owed := UnderpayerDebts(under, overpayers, totalOverpaid, ctx);
      debtDocs := debtDocs + owed;
      i := i + 1;
    }
    assert underpayers[..|underpayers|] == underpayers;
  }

  /**
   * What every netted debt satisfies, given underpayers and overpayers drawn
   * from `keys` and told apart by sign: it is pending with equal original and
   * remaining amounts of at least a cent; it runs from an underpayer to an
   * overpayer and its amount is what `Owes` gives for that pair; each side is
   * typed "User" exactly when it is the user's own person; it carries the
   * expense's user, id, currency and date; and no debt is owed by a party to
   * itself.
   */
  ghost predicate DebtOk(d: Debt, ctx: DebtContext, unders: seq<PersonDiff>, overs: seq<PersonDiff>, total: real) {
    && d.status == Pending
    && d.originalAmount == d.remainingAmount
    && d.originalAmount >= 0.01
    && d.userId == ctx.user && d.expenseId == ctx.expenseId
    && d.currencyId == ctx.currency && d.date == ctx.date
    && total >= 0.001
    && (exists u, o :: && u in unders && o in overs
                       && d.payerType == PartyTypeOf(u.personId, ctx) && d.payerId == PartyIdOf(u.personId, ctx)
                       && d.payeeType == PartyTypeOf(o.personId, ctx) && d.payeeId == PartyIdOf(o.personId, ctx)
                       && d.originalAmount == Owes(u, o, total))
    && !(d.payerType == d.payeeType && d.payerId == d.payeeId)
  }

  lemma {:induction false} UnderDebtsOk(under: PersonDiff, overs: seq<PersonDiff>, total: real, ctx: DebtContext,
                                        allUnders: seq<PersonDiff>, allOvers: seq<PersonDiff>)
    requires total >= 0.001
    requires under in allUnders
    requires forall o :: o in overs ==> o in allOvers && o.personId != under.personId
    ensures forall d :: d in UnderDebts(under, overs, total, ctx) ==> DebtOk(d, ctx, allUnders, allOvers, total)
  {
    if overs != [] {
      var init := overs[..|overs| - 1];
      var over := overs[|overs| - 1];
      assert forall o :: o in init ==> o in overs;
      UnderDebtsOk(under, init, total, ctx, allUnders, allOvers);
      assert over in overs;
      forall d | d in PairDebt(under, over, total, ctx) ensures DebtOk(d, ctx, allUnders, allOvers, total) {
        assert under in allUnders && over in allOvers;
      }
    }
  }

  lemma {:induction false} NettedDebtsOk(unders: seq<PersonDiff>, overs: seq<PersonDiff>, total: real, ctx: DebtContext,
                                         allUnders: seq<PersonDiff>)
    requires forall u :: u in unders ==> u in allUnders
    requires forall o, u :: o in overs && u in unders ==> o.personId != u.personId
    ensures forall d :: d in NettedDebts(unders, overs, total, ctx) ==> DebtOk(d, ctx, allUnders, overs, total)
  {
    if unders != [] {
      var init := unders[..|unders| - 1];
      var under := unders[|unders| - 1];
      assert forall u :: u in init ==> u in unders;
      NettedDebtsOk(init, overs, total, ctx, allUnders);
      assert under in unders;
      if total >= 0.001 {
        UnderDebtsOk(under, overs, total, ctx, allUnders, overs);
      }
    }
  }

  /**
   * Every debt written for an expense is pending, carries equal original and
   * remaining amounts of at least a cent, runs from an underpayer to an
   * overpayer among the share-map participants for the amount `Owes` gives,
   * types a side "User" exactly when it is the user's own person, and is
   * never owed by a party to itself.
   */
  lemma DebtRowsWellFormed(p: Plan, expenseId: nat)
    ensures var unders := Underpayers(p.shares.keys, p.shares, p.paid);
            var overs := Overpayers(p.shares.keys, p.shares, p.paid);
            forall d :: d in DebtRows(p, expenseId) ==> DebtOk(d, Context(p, expenseId), unders, overs, TotalOverpaid(overs))
  {
    var keys := p.shares.keys;
    Classification(keys, p.shares, p.paid);
    NettedDebtsOk(Underpayers(keys, p.shares, p.paid), Overpayers(keys, p.shares, p.paid),
                  TotalOverpaid(Overpayers(keys, p.shares, p.paid)), Context(p, expenseId),
                  Underpayers(keys, p.shares, p.paid));
  }

  /** Conversely, an underpayer owes each overpayer a debt whenever the rounded amount reaches a cent. */
  lemma {:induction false} UnderDebtsComplete(under: PersonDiff, overs: seq<PersonDiff>, total: real, ctx: DebtContext, o: PersonDiff)
    requires total >= 0.001 && o in overs && Owes(under, o, total) >= 0.01
    ensures PairDebt(under, o, total, ctx) != []
    ensures PairDebt(under, o, total, ctx)[0] in UnderDebts(under, overs, total, ctx)
  {
    var init := overs[..|overs| - 1];
    if overs[|overs| - 1] != o {
      assert o in init by {
        var i :| 0 <= i < |overs| && overs[i] == o;
        assert init[i] == o;
      }
      UnderDebtsComplete(under, init, total, ctx, o);
    }
  }

  lemma {:induction false} NettedDebtsComplete(unders: seq<PersonDiff>, overs: seq<PersonDiff>, total: real, ctx: DebtContext,
                                               u: PersonDiff, o: PersonDiff)
    requires total >= 0.001 && u in unders && o in overs && Owes(u, o, total) >= 0.01
    ensures PairDebt(u, o, total, ctx) != []
    ensures PairDebt(u, o, total, ctx)[0] in NettedDebts(unders, overs, total, ctx)
  {
    var init := unders[..|unders| - 1];
    if unders[|unders| - 1] != u {
      assert u in init by {
        var i :| 0 <= i < |unders| && unders[i] == u;
        assert init[i] == u;
      }
      NettedDebtsComplete(init, overs, total, ctx, u, o);
    } else {
      UnderDebtsComplete(u, overs, total, ctx, o);
    }
  }

  /** No debts are written when the total overpaid is below a tenth of a cent. */
  lemma {:induction false} NoDebtsWithoutOverpayment(unders: seq<PersonDiff>, overs: seq<PersonDiff>, total: real, ctx: DebtContext)
    requires total < 0.001
    ensures NettedDebts(unders, overs, total, ctx) == []
  {
    if unders != [] {
      NoDebtsWithoutOverpayment(unders[..|unders| - 1], overs, total, ctx);
    }
  }

  // ---------------------------------------------------------------------------
  // The handler
  // ---------------------------------------------------------------------------

  /**
   * The writes that follow the checks: the Expense record is created, and then,
   * unless the funds check fails, the account is debited what the user paid,
   * the goal credited the user's share, and the split rows, debts and goal
   * allocation are appended.
   */
  function Record(s: State, p: Plan): Outcome<Response, Error>
    requires p.req.bill > 0.0
  {
    var id := |s.expenses|;
    var expense := ExpenseRecord(p);
    var created := s.(expenses := s.expenses + [expense]);
    if FundsShort(p) then Outcome(Failure(InsufficientFunds), created)
    else
      var rows := SplitRows(p, id);
      var debts := DebtRows(p, id);
      Outcome(Success(Response(expense, debts, rows)),
              created.(
                accounts := s.accounts[p.req.accountId := p.account.(balance := p.account.balance - UserPaid(p))],
                goals := s.goals[p.req.goalId := p.goal.(balance := Some(BalanceOrZero(p.goal.balance) + UserShare(p)))],
                splits := s.splits + rows,
                debts := s.debts + debts,
                expenseAllocations := s.expenseAllocations + [ExpenseAllocation(id, p.req.goalId, UserShare(p))]))
  }

  /** When the funds check fails only the Expense record has been written. */
  lemma RecordShort(s: State, p: Plan)
    requires p.req.bill > 0.0 && FundsShort(p)
    ensures Record(s, p) == Outcome(Failure(InsufficientFunds), s.(expenses := s.expenses + [ExpenseRecord(p)]))
  {
  }

  /** The state `Record` leaves when the funds check passes, written out field by field. */
  lemma RecordCommitted(s: State, p: Plan, rows: seq<ExpenseSplit>, debts: seq<Debt>)
    requires p.req.bill > 0.0 && !FundsShort(p)
    requires rows == SplitRows(p, |s.expenses|) && debts == DebtRows(p, |s.expenses|)
    ensures Record(s, p)
         == Outcome(Success(Response(ExpenseRecord(p), debts, rows)),
                    s.(expenses := s.expenses + [ExpenseRecord(p)],
                       accounts := s.accounts[p.req.accountId := p.account.(balance := p.account.balance - UserPaid(p))],
                       goals := s.goals[p.req.goalId := p.goal.(balance := Some(BalanceOrZero(p.goal.balance) + UserShare(p)))],
                       splits := s.splits + rows,
                       debts := s.debts + debts,
                       expenseAllocations := s.expenseAllocations + [ExpenseAllocation(|s.expenses|, p.req.goalId, UserShare(p))]))
  {
  }

  /** POST /api/expense as a transition of the database. */
  function ExpensePost(s: State, req: Request, user: Id, self: Id): Outcome<Response, Error> {
    match Prepare(s, req, user, self)
    case Failure(e) => Outcome(Failure(e), s)
    case Success(p) => Record(s, p)
  }

  /** The checks and lookups of the handler, which read the database and change nothing. */
  method PreparePlan(db: Db, req: Request, user: Id, self: Id) returns (r: Result<Plan, Error>)
    ensures r == Prepare(db.Snapshot(), req, user, self)
  {
    var v := Validate(req);
    if v.Failure? {
      return Failure(v.error);
    }
    var c := v.value;
    var account := FindOwned(db.accounts, AccountOwner, c.accountId, user);
    var goal := FindOwned(db.goals, GoalOwner, c.goalId, user);
    if account.None? {
      return Failure(AccountNotFound);
    }
    if goal.None? {
      return Failure(GoalNotFound);
    }
    var shareMap := BuildShareMap(c.splitType, c.bill, c.splits, self);
    if shareMap.Failure? {
      return Failure(shareMap.error);
    }
    var paidMap := BuildPaidMap(c.bill, c.paidBy);
    if paidMap.Failure? {
      return Failure(paidMap.error);
    }
    var notes := TrimmedNotes(req.notes);
    if notes.Failure? {
      return Failure(notes.error);
    }
    r := Success(Plan(c, user, self, account.value, goal.value, shareMap.value, paidMap.value, notes.value));
  }

  /** The writes of the handler, from the creation of the Expense record on. */
  method Commit(db: Db, plan: Plan) returns (r: Result<Response, Error>)
    requires plan.req.bill > 0.0
    modifies db
    ensures Outcome(r, db.Snapshot()) == Record(old(db.Snapshot()), plan)
  {
    ghost var before := db.Snapshot();
    var c := plan.req;
    var account := plan.account;
    var goal := plan.goal;
    var userPaid := UserPaid(plan);
    var userShare := UserShare(plan);

    var expenseId := |db.expenses|;
    var expense := ExpenseRecord(plan);
    db.expenses := db.expenses + [expense];

    if userPaid > account.balance + 0.001 {
      RecordShort(before, plan);
      return Failure(InsufficientFunds);
    }
    var splitDocs := WriteSplits(plan, expenseId);
    var overpayers, underpayers := Classify(plan.shares, plan.paid);
    var totalOverpaid := TotalOverpaid(overpayers);
    var debtDocs := NetDebts(underpayers, overpayers, totalOverpaid, Context(plan, expenseId));

    // The account and goal are saved, then the split rows, debts and the goal
    // allocation are created; nothing in between reads the database.
    db.accounts, db.goals, db.splits, db.debts, db.expenseAllocations :=
      db.accounts[c.accountId := account.(balance := account.balance - userPaid)],
      db.goals[c.goalId := goal.(balance := Some(BalanceOrZero(goal.balance) + userShare))],
      db.splits + splitDocs,
      db.debts + debtDocs,
      db.expenseAllocations + [ExpenseAllocation(expenseId, c.goalId, userShare)];
    r := Success(Response(expense, debtDocs, splitDocs));
    RecordCommitted(before, plan, splitDocs, debtDocs);
  }

  method Post(db: Db, req: Request, user: Id, self: Id) returns (r: Result<Response, Error>)
    modifies db
    ensures Outcome(r, db.Snapshot()) == ExpensePost(old(db.Snapshot()), req, user, self)
  {
    var prepared := PreparePlan(db, req, user, self);
    if prepared.Failure? {
      return Failure(prepared.error);
    }
    r := Commit(db, prepared.value);
  }
}
