/**
 * What POST /api/expense promises, stated on the transition `ExpensePost`:
 * which requests are refused and what a refusal leaves behind, the exact
 * balance changes of a committed expense, the split rows written for it, and
 * the worked example of a percentage split paid in full by the user.
 */
module ExpenseLaws {
  import opened Wrappers
  import opened Js
  import opened Money
  import opened Store
  import opened Tally
  import opened ExpenseRoute

  // ---------------------------------------------------------------------------
  // Refusals
  // ---------------------------------------------------------------------------

  /** The accumulation loops only ever fail with an entry error. */
  lemma {:induction false} FoldNeverShort(p: Pass, entries: seq<Entry>)
    ensures Fold(p, entries).Failure? ==> Fold(p, entries).error != InsufficientFunds
  {
    if entries != [] {
      FoldNeverShort(p, entries[..|entries| - 1]);
    }
  }

  /** None of the checks made before anything is written reports missing funds. */
  lemma PrepareNeverShort(s: State, req: Request, user: Id, self: Id)
    ensures Prepare(s, req, user, self).Failure? ==> Prepare(s, req, user, self).error != InsufficientFunds
  {
    var v := Validate(req);
    if v.Success? {
      var c := v.value;
      FoldNeverShort(SplitPass(c.splitType, c.bill), c.splits);
      FoldNeverShort(PaidPass, c.paidBy);
      assert Prepare(s, req, user, self) == Lookup(s, c, req.notes, user, self);
    }
  }

  /** A request `Prepare` refuses leaves the database as it was. */
  lemma PrepareRefusalKeepsState(s: State, req: Request, user: Id, self: Id)
    requires Prepare(s, req, user, self).Failure?
    ensures ExpensePost(s, req, user, self) == Outcome(Failure(Prepare(s, req, user, self).error), s)
  {
  }

  /**
   * A refused request changes nothing, with one exception: when the funds
   * check fails the Expense record has already been created and stays. The
   * funds check is the one that fails exactly when every earlier check passed
   * and the user paid more than the account holds (beyond a tenth of a cent).
   */
  lemma RefusalKeepsState(s: State, req: Request, user: Id, self: Id)
    ensures var o := ExpensePost(s, req, user, self);
            o.response.Failure? && o.response.error != InsufficientFunds ==> o.state == s
    ensures var o := ExpensePost(s, req, user, self);
            o.response == Failure(InsufficientFunds)
            <==> Prepare(s, req, user, self).Success? && FundsShort(Prepare(s, req, user, self).value)
    ensures var o := ExpensePost(s, req, user, self);
            o.response == Failure(InsufficientFunds)
            ==> Prepare(s, req, user, self).Success?
                && o.state == s.(expenses := s.expenses + [ExpenseRecord(Prepare(s, req, user, self).value)])
  {
    PrepareNeverShort(s, req, user, self);
    var r := Prepare(s, req, user, self);
    if r.Failure? {
      PrepareRefusalKeepsState(s, req, user, self);
    } else if FundsShort(r.value) {
      RecordShort(s, r.value);
    } else {
      var p := r.value;
      RecordCommitted(s, p, SplitRows(p, |s.expenses|), DebtRows(p, |s.expenses|));
    }
  }

  /** An entry the loops refuse makes the lookups stage fail. */
  lemma LookupRefusesBadEntry(s: State, c: Checked, notes: JsValue, user: Id, self: Id)
    requires || (exists i :: 0 <= i < |c.splits| && !EntryOk(c.splits[i]))
             || (exists i :: 0 <= i < |c.paidBy| && !EntryOk(c.paidBy[i]))
    ensures Lookup(s, c, notes, user, self).Failure?
  {
    if exists i :: 0 <= i < |c.splits| && !EntryOk(c.splits[i]) {
      var i :| 0 <= i < |c.splits| && !EntryOk(c.splits[i]);
      FoldRejectsInvalidEntry(SplitPass(c.splitType, c.bill), c.splits, i);
      assert ShareMap(c.splitType, c.bill, c.splits, self).Failure?;
    } else {
      var i :| 0 <= i < |c.paidBy| && !EntryOk(c.paidBy[i]);
      FoldRejectsInvalidEntry(PaidPass, c.paidBy, i);
      assert PaidMap(c.bill, c.paidBy).Failure?;
    }
  }

  /** The lookups stage fails whenever either map is refused. */
  lemma LookupFailsWithMaps(s: State, c: Checked, notes: JsValue, user: Id, self: Id)
    requires ShareMap(c.splitType, c.bill, c.splits, self).Failure? || PaidMap(c.bill, c.paidBy).Failure?
    ensures Lookup(s, c, notes, user, self).Failure?
  {
  }

  /** Splits above the bill, or payments away from it, by more than a cent make the lookups stage fail. */
  lemma LookupRefusesUnbalanced(s: State, c: Checked, notes: JsValue, user: Id, self: Id)
    requires || (Fold(SplitPass(c.splitType, c.bill), c.splits).Success?
                 && EntriesTotal(SplitPass(c.splitType, c.bill), c.splits) > c.bill + 0.01)
             || (Fold(PaidPass, c.paidBy).Success? && Abs(EntriesTotal(PaidPass, c.paidBy) - c.bill) > 0.01)
    ensures Lookup(s, c, notes, user, self).Failure?
  {
    if Fold(SplitPass(c.splitType, c.bill), c.splits).Success?
       && EntriesTotal(SplitPass(c.splitType, c.bill), c.splits) > c.bill + 0.01 {
      ShareMapRejectsExcess(c.splitType, c.bill, c.splits, self);
    } else {
      FoldValid(PaidPass, c.paidBy);
      assert PaidMap(c.bill, c.paidBy).Failure?;
    }
    LookupFailsWithMaps(s, c, notes, user, self);
  }

  /**
   * A request is refused, with the database untouched, when the bill is not a
   * positive number, the split type is neither PERCENTAGE nor AMOUNT, `splits`
   * is not an array, `paidBy` is missing or empty, or some split or payer
   * entry lacks a person id or a non-negative numeric value.
   */
  lemma RejectsMalformed(s: State, req: Request, user: Id, self: Id)
    requires || !(req.totalBillAmount.Num? && req.totalBillAmount.n > 0.0)
             || ParseSplitType(req.splitType).None?
             || req.splits.None?
             || req.paidBy.None? || req.paidBy.value == []
             || (req.splits.Some? && exists i :: 0 <= i < |req.splits.value| && !EntryOk(req.splits.value[i]))
             || (req.paidBy.Some? && exists i :: 0 <= i < |req.paidBy.value| && !EntryOk(req.paidBy.value[i]))
    ensures ExpensePost(s, req, user, self).response.Failure?
    ensures ExpensePost(s, req, user, self).state == s
  {
    var v := Validate(req);
    if v.Success? {
      LookupRefusesBadEntry(s, v.value, req.notes, user, self);
      assert Prepare(s, req, user, self) == Lookup(s, v.value, req.notes, user, self);
    }
    PrepareRefusalKeepsState(s, req, user, self);
  }

  /**
   * A request is refused, with the database untouched, when its name or any of
   * its account, goal, category and type ids is missing, blank or not a
   * string, or its date is falsy.
   */
  lemma RejectsMissingField(s: State, req: Request, user: Id, self: Id)
    requires || !(req.name.Str? && Trim(req.name.s) != [])
             || !Truthy(req.date)
             || !(req.accountId.Str? && Trim(req.accountId.s) != [])
             || !(req.goalId.Str? && Trim(req.goalId.s) != [])
             || !(req.categoryId.Str? && Trim(req.categoryId.s) != [])
             || !(req.typeId.Str? && Trim(req.typeId.s) != [])
    ensures ExpensePost(s, req, user, self).response.Failure?
    ensures ExpensePost(s, req, user, self).state == s
  {
    assert Validate(req).Failure?;
    PrepareRefusalKeepsState(s, req, user, self);
  }

  /** Splits or payments that do not add up to the bill are refused, with the database untouched. */
  lemma RejectsUnbalanced(s: State, req: Request, user: Id, self: Id, c: Checked)
    requires Validate(req) == Success(c)
    requires || (Fold(SplitPass(c.splitType, c.bill), c.splits).Success?
                 && EntriesTotal(SplitPass(c.splitType, c.bill), c.splits) > c.bill + 0.01)
             || (Fold(PaidPass, c.paidBy).Success? && Abs(EntriesTotal(PaidPass, c.paidBy) - c.bill) > 0.01)
    ensures ExpensePost(s, req, user, self).response.Failure?
    ensures ExpensePost(s, req, user, self).state == s
  {
    LookupRefusesUnbalanced(s, c, req.notes, user, self);
    assert Prepare(s, req, user, self) == Lookup(s, c, req.notes, user, self);
    PrepareRefusalKeepsState(s, req, user, self);
  }

  // ---------------------------------------------------------------------------
  // A committed expense
  // ---------------------------------------------------------------------------

  /** What a successful `Prepare` found: the owned account and goal, and the two maps. */
  lemma PreparedPlan(s: State, req: Request, user: Id, self: Id, p: Plan)
    requires Prepare(s, req, user, self) == Success(p)
    ensures Validate(req) == Success(p.req)
    ensures p.req.accountId in s.accounts && s.accounts[p.req.accountId].user == user
    ensures p.account == s.accounts[p.req.accountId]
    ensures p.req.goalId in s.goals && s.goals[p.req.goalId].user == user
    ensures p.goal == s.goals[p.req.goalId]
    ensures ShareMap(p.req.splitType, p.req.bill, p.req.splits, self) == Success(p.shares)
    ensures PaidMap(p.req.bill, p.req.paidBy) == Success(p.paid)
  {
    var c := Validate(req).value;
    assert Prepare(s, req, user, self) == Lookup(s, c, req.notes, user, self);
  }

  /**
   * In a pair of maps built from a positive bill, the user's own share is what
   * the split entries naming the user's person add up to plus whatever the
   * splits leave of the bill, and what that person paid is the sum of the
   * payer entries naming it. Both are non-negative.
   */
  lemma SelfAmounts(c: Checked, self: Id, shares: Tally, paid: Tally)
    requires c.bill > 0.0
    requires ShareMap(c.splitType, c.bill, c.splits, self) == Success(shares)
    requires PaidMap(c.bill, c.paidBy) == Success(paid)
    ensures var sp := SplitPass(c.splitType, c.bill);
            && Get(shares, self) == PersonTotal(sp, c.splits, self) + Max(0.0, c.bill - EntriesTotal(sp, c.splits))
            && Get(paid, self) == PersonTotal(PaidPass, c.paidBy, self)
            && Get(shares, self) >= 0.0 && Get(paid, self) >= 0.0
  {
    ShareMapShares(c.splitType, c.bill, c.splits, self, self);
    ShareMapNonNegative(c.splitType, c.bill, c.splits, self);
    PaidMapBalances(c.bill, c.paidBy);
  }

  /**
   * The user's share and payment in a planned expense, as `SelfAmounts`
   * gives them for the plan's maps.
   */
  lemma UserAmounts(s: State, req: Request, user: Id, self: Id, p: Plan)
    requires Prepare(s, req, user, self) == Success(p)
    ensures var c := p.req;
            var sp := SplitPass(c.splitType, c.bill);
            && UserShare(p) == PersonTotal(sp, c.splits, self) + Max(0.0, c.bill - EntriesTotal(sp, c.splits))
            && UserPaid(p) == PersonTotal(PaidPass, c.paidBy, self)
            && UserShare(p) >= 0.0 && UserPaid(p) >= 0.0
  {
    PreparedPlan(s, req, user, self, p);
    SelfAmounts(p.req, self, p.shares, p.paid);
  }

  /** Once `Prepare` has a plan, the handler's outcome is what `Record` writes for it. */
  lemma PostRecords(s: State, req: Request, user: Id, self: Id, p: Plan)
    requires Prepare(s, req, user, self) == Success(p)
    ensures p.req.bill > 0.0 && ExpensePost(s, req, user, self) == Record(s, p)
  {
  }

  /**
   * A committed expense debits the chosen account exactly what the user paid
   * and credits the chosen goal (an absent balance counting as 0) exactly the
   * user's share; no other account or goal changes. This is stated for any
   * plan holding the stored account and goal, as the plan `Prepare` yields
   * does (`PreparedPlan`), whose outcome is `Record`'s (`PostRecords`); by
   * `RefusalKeepsState` the committed plans are exactly those that pass the
   * funds check.
   */
  lemma CommittedBalances(s: State, p: Plan)
    requires p.req.bill > 0.0 && !FundsShort(p)
    requires p.req.accountId in s.accounts && p.account == s.accounts[p.req.accountId]
    requires p.req.goalId in s.goals && p.goal == s.goals[p.req.goalId]
    ensures var a := p.req.accountId;
            UserPaid(p) <= s.accounts[a].balance + 0.001
    ensures Record(s, p).response.Success?
    ensures var a := p.req.accountId;
            Record(s, p).state.accounts == s.accounts[a := s.accounts[a].(balance := s.accounts[a].balance - UserPaid(p))]
    ensures var g := p.req.goalId;
            Record(s, p).state.goals
            == s.goals[g := s.goals[g].(balance := Some(BalanceOrZero(s.goals[g].balance) + UserShare(p)))]
  {
    RecordCommitted(s, p, SplitRows(p, |s.expenses|), DebtRows(p, |s.expenses|));
  }

  /**
   * A committed expense appends its Expense record, whose `totalAmount` is the
   * user's share, one allocation of that share to the goal, and its split rows
   * and debts; people, income sources, incomes, income allocations and loans
   * are untouched.
   */
  lemma CommittedRecords(s: State, req: Request, user: Id, self: Id, p: Plan)
    requires Prepare(s, req, user, self) == Success(p) && !FundsShort(p)
    ensures var o := ExpensePost(s, req, user, self);
            && o.response.Success?
            && o.response.value.expense.totalAmount == UserShare(p)
            && o.state.expenses == s.expenses + [o.response.value.expense]
            && o.state.expenseAllocations
               == s.expenseAllocations + [ExpenseAllocation(|s.expenses|, p.req.goalId, UserShare(p))]
            && o.response.value.splits == SplitRows(p, |s.expenses|)
            && o.response.value.debts == DebtRows(p, |s.expenses|)
            && o.state.splits == s.splits + o.response.value.splits
            && o.state.debts == s.debts + o.response.value.debts
            && o.state.people == s.people && o.state.sources == s.sources
            && o.state.incomes == s.incomes && o.state.incomeAllocations == s.incomeAllocations
            && o.state.loans == s.loans
  {
    PostRecords(s, req, user, self, p);
    RecordCommitted(s, p, SplitRows(p, |s.expenses|), DebtRows(p, |s.expenses|));
  }

  // ---------------------------------------------------------------------------
  // Split rows
  // ---------------------------------------------------------------------------

  /** The share map's keys: the user's own person and everyone a split entry names. */
  lemma ShareMapKeys(st: SplitType, bill: real, splits: seq<Entry>, self: Id, k: Id)
    requires ShareMap(st, bill, splits, self).Success?
    ensures k in ShareMap(st, bill, splits, self).value.keys <==> k == self || Mentions(splits, k)
  {
    var pass := SplitPass(st, bill);
    FoldValid(pass, splits);
    FoldAt(pass, splits, k);
    var t0 := Fold(pass, splits).value;
    AddKeepsValid(t0, self, Max(0.0, bill - t0.total));
  }

  /**
   * The participants of a planned expense, listed once each: the user's own
   * person and everyone a split entry names.
   */
  lemma PlanParticipants(s: State, req: Request, user: Id, self: Id, p: Plan)
    requires Prepare(s, req, user, self) == Success(p)
    ensures Distinct(p.shares.keys)
    ensures forall k :: k in p.shares.keys <==> k == self || Mentions(p.req.splits, k)
  {
    PreparedPlan(s, req, user, self, p);
    var c := p.req;
    ShareMapBalances(c.splitType, c.bill, c.splits, self);
    forall k ensures k in p.shares.keys <==> k == self || Mentions(c.splits, k) {
      ShareMapKeys(c.splitType, c.bill, c.splits, self, k);
    }
  }

  /**
   * Exactly one split row is written per participant of the share map: the
   * user's own person and everyone a split entry names, each once, in key
   * order, all pointing at the new expense.
   */
  lemma SplitRowsParticipants(s: State, req: Request, user: Id, self: Id, p: Plan, expenseId: nat)
    requires Prepare(s, req, user, self) == Success(p)
    ensures var rows := SplitRows(p, expenseId);
            && |rows| == |p.shares.keys|
            && (forall i :: 0 <= i < |rows| ==> rows[i].expense == expenseId && rows[i].people == p.shares.keys[i])
            && (forall i, j :: 0 <= i < j < |rows| ==> rows[i].people != rows[j].people)
            && (forall k :: (exists i :: 0 <= i < |rows| && rows[i].people == k)
                            <==> k == self || Mentions(p.req.splits, k))
  {
    PlanParticipants(s, req, user, self, p);
    SplitRowsFollowKeys(p, expenseId);
    var rows := SplitRows(p, expenseId);
    forall k
      ensures (exists i :: 0 <= i < |rows| && rows[i].people == k) <==> k in p.shares.keys
    {
      if k in p.shares.keys {
        var i :| 0 <= i < |p.shares.keys| && p.shares.keys[i] == k;
        assert rows[i].people == k;
      }
    }
  }

  /**
   * A split row carries the participant's share and payment rounded to cents,
   * both non-negative, and is marked paid exactly when the payment was at
   * least half a cent (so that its rounded value passes the `> 0.001` test).
   */
  lemma SplitRowsAmounts(s: State, req: Request, user: Id, self: Id, p: Plan, expenseId: nat)
    requires Prepare(s, req, user, self) == Success(p)
    ensures var rows := SplitRows(p, expenseId);
            forall i :: 0 <= i < |rows| ==>
              && rows[i].shareAmount == Round2(Get(p.shares, rows[i].people)) >= 0.0
              && rows[i].paidAmount == Round2(Get(p.paid, rows[i].people)) >= 0.0
              && (rows[i].hasPaid <==> Get(p.paid, rows[i].people) >= 0.005)
  {
    PreparedPlan(s, req, user, self, p);
    var c := p.req;
    var rows := SplitRows(p, expenseId);
    ShareMapNonNegative(c.splitType, c.bill, c.splits, self);
    PaidMapBalances(c.bill, c.paidBy);
    forall i | 0 <= i < |rows|
      ensures rows[i].shareAmount == Round2(Get(p.shares, rows[i].people)) >= 0.0
      ensures rows[i].paidAmount == Round2(Get(p.paid, rows[i].people)) >= 0.0
      ensures rows[i].hasPaid <==> Get(p.paid, rows[i].people) >= 0.005
    {
      RoundedPositive(Get(p.paid, rows[i].people));
    }
  }

  /**
   * `sharePercent` under a PERCENTAGE split comes from the first split entry
   * naming the participant, and is 0 for a participant no entry names.
   */
  lemma {:induction false} FirstSplitValueIsFirstMatch(splits: seq<Entry>, pid: Id)
    ensures (forall i :: 0 <= i < |splits| ==> splits[i].personId != Str(pid)) ==> FirstSplitValue(splits, pid) == 0.0
    ensures forall i :: 0 <= i < |splits| && splits[i].personId == Str(pid) && splits[i].amount.Num?
                        && (forall j :: 0 <= j < i ==> splits[j].personId != Str(pid))
                        ==> FirstSplitValue(splits, pid) == splits[i].amount.n
  {
    if splits != [] {
      var rest := splits[1..];
      FirstSplitValueIsFirstMatch(rest, pid);
      if splits[0].personId != Str(pid) {
        forall i | 0 <= i < |splits| && splits[i].personId == Str(pid) && splits[i].amount.Num?
                   && (forall j :: 0 <= j < i ==> splits[j].personId != Str(pid))
          ensures FirstSplitValue(splits, pid) == splits[i].amount.n
        {
          assert rest[i - 1] == splits[i];
          forall j | 0 <= j < i - 1 ensures rest[j].personId != Str(pid) {
            assert rest[j] == splits[j + 1];
          }
        }
        if forall i :: 0 <= i < |splits| ==> splits[i].personId != Str(pid) {
          forall j | 0 <= j < |rest| ensures rest[j].personId != Str(pid) {
            assert rest[j] == splits[j + 1];
          }
        }
      }
    }
  }

  // ---------------------------------------------------------------------------
  // A worked example
  // ---------------------------------------------------------------------------

  /**
   * A bill of 100 split by percentage, 40% to person "p1" and no entry for the
   * user's own person "me", paid in full by "me" from account "a" towards
   * goal "g".
   */
  const ExampleRequest: Request :=
    Request(Str("Lunch"), Num(100.0), Some([Entry(Str("me"), Num(100.0))]), Str("PERCENTAGE"),
            Some([Entry(Str("p1"), Num(40.0))]), Str("2024-05-01"), Str("a"), Str("c"), Str("t"), Str("g"), Undefined)

  const ExampleChecked: Checked :=
    Checked("Lunch", 100.0, Percentage, [Entry(Str("p1"), Num(40.0))], [Entry(Str("me"), Num(100.0))],
            Str("2024-05-01"), "a", "g", "c", "t")

  lemma ExampleValidates()
    ensures Validate(ExampleRequest) == Success(ExampleChecked)
  {
    assert !IsWhitespace("Lunch"[0]) && !IsWhitespace("a"[0]) && !IsWhitespace("g"[0]);
    assert !IsWhitespace("c"[0]) && !IsWhitespace("t"[0]);
    assert Trim("Lunch") == "Lunch";
  }

  const ExampleShares: Tally := Tally(["p1", "me"], map["p1" := 40.0, "me" := 60.0], 100.0)

  const ExamplePaid: Tally := Tally(["me"], map["me" := 100.0], 100.0)

  /** A short id with no whitespace passes the `personId?.trim()` guard. */
  lemma ExampleIdsFilled()
    ensures TestTrim(Str("p1")) == Filled && TestTrim(Str("me")) == Filled
  {
    assert !IsWhitespace("p1"[0]);
    assert !IsWhitespace("me"[0]);
  }

  /** "p1" is given 40 of the bill, and "me" absorbs the remaining 60. */
  lemma ExampleShareMap()
    ensures ShareMap(Percentage, 100.0, ExampleChecked.splits, "me") == Success(ExampleShares)
  {
    ExampleIdsFilled();
    var sp := SplitPass(Percentage, 100.0);
    var splits := ExampleChecked.splits;
    var one := Tally(["p1"], map["p1" := 40.0], 40.0);
    assert splits[..|splits| - 1] == [];
    assert Weight(sp, 40.0) == 40.0;
    assert Step(sp, Empty, splits[0]) == Success(Add(Empty, "p1", 40.0));
    assert Add(Empty, "p1", 40.0) == one;
    assert Fold(sp, splits) == Success(one);
    assert Max(0.0, 100.0 - one.total) == 60.0;
    assert Add(one, "me", 60.0) == ExampleShares;
  }

  /** "me" paid all 100. */
  lemma ExamplePaidMap()
    ensures PaidMap(100.0, ExampleChecked.paidBy) == Success(ExamplePaid)
  {
    ExampleIdsFilled();
    var paidBy := ExampleChecked.paidBy;
    assert paidBy[..|paidBy| - 1] == [];
    assert Step(PaidPass, Empty, paidBy[0]) == Success(Add(Empty, "me", 100.0));
    assert Add(Empty, "me", 100.0) == ExamplePaid;
    assert Fold(PaidPass, paidBy) == Success(ExamplePaid);
  }

  function ExamplePlan(s: State): Plan
    requires "a" in s.accounts && "g" in s.goals
  {
    Plan(ExampleChecked, "u", "me", s.accounts["a"], s.goals["g"], ExampleShares, ExamplePaid, None)
  }

  lemma ExamplePrepares(s: State)
    requires "a" in s.accounts && s.accounts["a"].user == "u"
    requires "g" in s.goals && s.goals["g"].user == "u"
    ensures Prepare(s, ExampleRequest, "u", "me") == Success(ExamplePlan(s))
  {
    ExampleValidates();
    ExampleLooksUp(s);
    assert Prepare(s, ExampleRequest, "u", "me") == Lookup(s, ExampleChecked, Undefined, "u", "me");
  }

  /** With the user's account "a" and goal "g" in place, the lookups of the example succeed. */
  lemma ExampleLooksUp(s: State)
    requires "a" in s.accounts && s.accounts["a"].user == "u"
    requires "g" in s.goals && s.goals["g"].user == "u"
    ensures Lookup(s, ExampleChecked, Undefined, "u", "me") == Success(ExamplePlan(s))
  {
    ExampleShareMap();
    ExamplePaidMap();
    assert FindOwned(s.accounts, AccountOwner, "a", "u") == Some(s.accounts["a"]);
    assert FindOwned(s.goals, GoalOwner, "g", "u") == Some(s.goals["g"]);
    assert TrimmedNotes(Undefined) == Success(None);
  }

  /** The rounded differences of the example: "p1" is 40 short and "me" 40 over. */
  lemma ExampleDiffs()
    ensures Diff(ExampleShares, ExamplePaid, "p1") == -40.0
    ensures Diff(ExampleShares, ExamplePaid, "me") == 40.0
  {
    assert Get(ExamplePaid, "p1") - Get(ExampleShares, "p1") == -40.0;
    assert Cents(-40.0) == -4000;
    assert Get(ExamplePaid, "me") - Get(ExampleShares, "me") == 40.0;
    assert Cents(40.0) == 4000;
  }

  /** "me" is the one overpayer and "p1" the one underpayer, so 40 was overpaid in all. */
  lemma ExampleClassified()
    ensures Overpayers(ExampleShares.keys, ExampleShares, ExamplePaid) == [PersonDiff("me", 40.0)]
    ensures Underpayers(ExampleShares.keys, ExampleShares, ExamplePaid) == [PersonDiff("p1", -40.0)]
    ensures TotalOverpaid([PersonDiff("me", 40.0)]) == 40.0
  {
    ExampleDiffs();
    var keys := ExampleShares.keys;
    var first: seq<Id> := ["p1"];
    assert keys[..|keys| - 1] == first && first[..|first| - 1] == [];
    assert Overpayers(first, ExampleShares, ExamplePaid) == [];
    assert Underpayers(first, ExampleShares, ExamplePaid) == [PersonDiff("p1", -40.0)];
    var overs := [PersonDiff("me", 40.0)];
    assert overs[..0] == [];
  }

  /** "p1" owes the whole 40 to the one overpayer. */
  lemma ExampleOwes()
    ensures Owes(PersonDiff("p1", -40.0), PersonDiff("me", 40.0), 40.0) == 40.0
  {
    assert (-(-40.0)) * (40.0 / 40.0) == 40.0;
    assert Cents(40.0) == 4000;
  }

  /** "me" overpaid by 40 and "p1" underpaid by 40, so "p1" owes "me" (the user) 40. */
  lemma ExampleDebts(p: Plan, expenseId: nat)
    requires p.shares == ExampleShares && p.paid == ExamplePaid && p.self == "me"
    ensures DebtRows(p, expenseId)
         == [Debt(p.user, People, "p1", User, p.user, expenseId, 40.0, 40.0, p.account.currency, p.req.date, Pending)]
  {
    ExampleClassified();
    ExampleOwes();
    var u, o := PersonDiff("p1", -40.0), PersonDiff("me", 40.0);
    var overs, unders := [o], [u];
    var ctx := Context(p, expenseId);
    var debt := Debt(p.user, People, "p1", User, p.user, expenseId, 40.0, 40.0, p.account.currency, p.req.date, Pending);
    assert unders[..0] == [] && overs[..0] == [];
    assert PairDebt(u, o, 40.0, ctx) == [debt];
    assert UnderDebts(u, overs, 40.0, ctx) == [debt];
    assert NettedDebts(unders, overs, 40.0, ctx) == [debt];
  }

  /**
   * The split rows of the example: "p1" has a 40% row of 40 and has not paid;
   * "me" has a row of 60, has paid 100, and, since no split entry names it,
   * carries a `sharePercent` and `shareRate` of 0.
   */
  lemma ExampleRows(p: Plan, expenseId: nat)
    requires p.req == ExampleChecked && p.shares == ExampleShares && p.paid == ExamplePaid
    ensures SplitRows(p, expenseId)
         == [ExpenseSplit(expenseId, false, 0.4, 40.0, 40.0, 0.0, "p1"),
             ExpenseSplit(expenseId, true, 0.0, 60.0, 0.0, 100.0, "me")]
  {
    assert Round2(40.0) == 40.0 by { assert Cents(40.0) == 4000; }
    assert Round2(60.0) == 60.0 by { assert Cents(60.0) == 6000; }
    assert Round2(100.0) == 100.0 by { assert Cents(100.0) == 10000; }
    assert Round2(0.0) == 0.0 by { assert Cents(0.0) == 0; }
    var splits := ExampleChecked.splits;
    assert FirstSplitValue(splits, "p1") == 40.0;
    assert FirstSplitValue(splits, "me") == 0.0 by {
      assert splits[1..] == [];
    }
    assert SplitRow(p, expenseId, "p1") == ExpenseSplit(expenseId, false, 0.4, 40.0, 40.0, 0.0, "p1");
    assert SplitRow(p, expenseId, "me") == ExpenseSplit(expenseId, true, 0.0, 60.0, 0.0, 100.0, "me");
  }

  /**
   * The worked example's records: with at least 100 in the account the
   * expense is committed with the user's share of 60 as its amount, the one
   * debt runs from "p1" to the user for 40, and "p1" and the user each get a
   * split row.
   */
  lemma WorkedExample(s: State)
    requires "a" in s.accounts && s.accounts["a"].user == "u" && s.accounts["a"].balance >= 100.0
    requires "g" in s.goals && s.goals["g"].user == "u"
    ensures var o := ExpensePost(s, ExampleRequest, "u", "me");
            && o.response.Success?
            && o.response.value.expense.totalAmount == 60.0
            && o.response.value.debts
               == [Debt("u", People, "p1", User, "u", |s.expenses|, 40.0, 40.0, s.accounts["a"].currency,
                        Str("2024-05-01"), Pending)]
            && o.response.value.splits
               == [ExpenseSplit(|s.expenses|, false, 0.4, 40.0, 40.0, 0.0, "p1"),
                   ExpenseSplit(|s.expenses|, true, 0.0, 60.0, 0.0, 100.0, "me")]
  {
    var p := ExamplePlan(s);
    var id := |s.expenses|;
    ExamplePrepares(s);
    PostRecords(s, ExampleRequest, "u", "me", p);
    assert UserPaid(p) == 100.0 && UserShare(p) == 60.0;
    var rows, debts := SplitRows(p, id), DebtRows(p, id);
    ExampleDebts(p, id);
    ExampleRows(p, id);
    RecordCommitted(s, p, rows, debts);
  }

  /** The worked example passes every check, so the handler's outcome is what `Record` writes for its plan. */
  lemma ExamplePosts(s: State)
    requires "a" in s.accounts && s.accounts["a"].user == "u"
    requires "g" in s.goals && s.goals["g"].user == "u"
    ensures ExpensePost(s, ExampleRequest, "u", "me") == Record(s, ExamplePlan(s))
  {
    ExamplePrepares(s);
    PostRecords(s, ExampleRequest, "u", "me", ExamplePlan(s));
  }

  /** The worked example's balances: the account drops by the 100 the user paid, the goal rises by their share of 60. */
  lemma WorkedExampleBalances(s: State)
    requires "a" in s.accounts && s.accounts["a"].user == "u" && s.accounts["a"].balance >= 100.0
    requires "g" in s.goals && s.goals["g"].user == "u"
    ensures var o := ExpensePost(s, ExampleRequest, "u", "me");
            && "a" in o.state.accounts && o.state.accounts["a"].balance == s.accounts["a"].balance - 100.0
            && "g" in o.state.goals && BalanceOrZero(o.state.goals["g"].balance) == BalanceOrZero(s.goals["g"].balance) + 60.0
  {
    var p := ExamplePlan(s);
    assert p.req.accountId == "a" && p.req.goalId == "g";
    assert UserPaid(p) == 100.0 && UserShare(p) == 60.0;
    assert !FundsShort(p);
    CommittedBalances(s, p);
    ExamplePosts(s);
  }
}
