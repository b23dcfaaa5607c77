/**
 * What the records of a committed expense add up to.
 *
 * On the payer side the debt netting settles each underpayer: the debts it
 * owes add up to its shortfall, to within half a cent per overpayer (each
 * proportional portion is rounded to cents on its own, and one that rounds
 * below a cent is dropped). On the payee side nothing of the kind holds: an
 * overpayer is owed the underpayers' shortfalls in proportion to its credit,
 * whatever the credit, and someone who paid without a share is owed nothing.
 * The split rows' shares add up to the bill to within a cent plus half a
 * cent per row; their payments need not add up to what was paid.
 */
module SettlementLaws {
  import opened Wrappers
  import opened Js
  import opened Money
  import opened Store
  import opened Tally
  import opened ExpenseRoute
  import ExpenseLaws

  // ---------------------------------------------------------------------------
  // Sums over debts
  // ---------------------------------------------------------------------------

  /** The `originalAmount`s of the debts owed by one party. */
  function OwedBy(ds: seq<Debt>, ty: PartyType, id: Id): real {
    if ds == [] then 0.0
    else
      var d := ds[|ds| - 1];
      OwedBy(ds[..|ds| - 1], ty, id) + (if d.payerType == ty && d.payerId == id then d.originalAmount else 0.0)
  }

  /** The `originalAmount`s of the debts owed to one party. */
  function OwedTo(ds: seq<Debt>, ty: PartyType, id: Id): real {
    if ds == [] then 0.0
    else
      var d := ds[|ds| - 1];
      OwedTo(ds[..|ds| - 1], ty, id) + (if d.payeeType == ty && d.payeeId == id then d.originalAmount else 0.0)
  }

  lemma {:induction false} OwedByAppend(a: seq<Debt>, b: seq<Debt>, ty: PartyType, id: Id)
    ensures OwedBy(a + b, ty, id) == OwedBy(a, ty, id) + OwedBy(b, ty, id)
  {
    if b != [] {
      var init := b[..|b| - 1];
      assert (a + b)[..|a + b| - 1] == a + init;
      assert (a + b)[|a + b| - 1] == b[|b| - 1];
      OwedByAppend(a, init, ty, id);
    } else {
      assert a + b == a;
    }
  }

  // ---------------------------------------------------------------------------
  // The portions an underpayer owes
  // ---------------------------------------------------------------------------

  /** `underAmt * (over.diff / totalOverpaid)` summed over `overs`, before any rounding. */
  function Portions(under: PersonDiff, overs: seq<PersonDiff>, total: real): real
    requires total >= 0.001
  {
    if overs == [] then 0.0
    else Portions(under, overs[..|overs| - 1], total) + (-under.diff) * (overs[|overs| - 1].diff / total)
  }

  lemma ScaleStep(d: real, a: real, c: real, t: real)
    requires t != 0.0
    ensures d * (a / t) + d * (c / t) == d * ((a + c) / t)
  {
    assert a / t + c / t == (a + c) / t;
  }

  lemma WholeShare(d: real, t: real)
    requires t != 0.0
    ensures d * (t / t) == d
  {
    assert t / t == 1.0;
  }

  lemma PortionNonNegative(d: real, c: real, t: real)
    requires d >= 0.0 && c >= 0.0 && t > 0.0
    ensures d * (c / t) >= 0.0
  {
    assert c / t >= 0.0;
  }

  /** The unrounded portions add up to `underAmt * (sum of credits) / totalOverpaid`. */
  lemma {:induction false} PortionsScale(under: PersonDiff, overs: seq<PersonDiff>, total: real)
    requires total >= 0.001
    ensures Portions(under, overs, total) == (-under.diff) * (TotalOverpaid(overs) / total)
  {
    if overs == [] {
      assert TotalOverpaid(overs) / total == 0.0;
    } else {
      var init := overs[..|overs| - 1];
      PortionsScale(under, init, total);
      ScaleStep(-under.diff, TotalOverpaid(init), overs[|overs| - 1].diff, total);
    }
  }

  /** One pair's debt is its portion rounded to cents, or nothing when that is below a cent: within half a cent either way. */
  lemma PairNearPortion(under: PersonDiff, over: PersonDiff, total: real, ctx: DebtContext)
    requires total >= 0.001 && under.diff <= 0.0 && over.diff >= 0.0
    ensures var x := (-under.diff) * (over.diff / total);
            var owed := OwedBy(PairDebt(under, over, total, ctx), PartyTypeOf(under.personId, ctx), PartyIdOf(under.personId, ctx));
            x - 0.005 <= owed <= x + 0.005
  {
    var x := (-under.diff) * (over.diff / total);
    PortionNonNegative(-under.diff, over.diff, total);
    RoundedAtLeastCent(x);
    var pd := PairDebt(under, over, total, ctx);
    if pd != [] {
      assert pd[..0] == [];
    }
  }

  /** Debts one underpayer owes are owed by its party and nobody else. */
  lemma {:induction false} UnderDebtsOwedByOthers(under: PersonDiff, overs: seq<PersonDiff>, total: real, ctx: DebtContext,
                                                 ty: PartyType, id: Id)
    requires total >= 0.001
    requires !(ty == PartyTypeOf(under.personId, ctx) && id == PartyIdOf(under.personId, ctx))
    ensures OwedBy(UnderDebts(under, overs, total, ctx), ty, id) == 0.0
  {
    if overs != [] {
      var init := overs[..|overs| - 1];
      var pd := PairDebt(under, overs[|overs| - 1], total, ctx);
      UnderDebtsOwedByOthers(under, init, total, ctx, ty, id);
      OwedByAppend(UnderDebts(under, init, total, ctx), pd, ty, id);
      if pd != [] {
        assert pd[..0] == [];
      }
    }
  }

  /** The sum of a list of amounts. */
  function Total(xs: seq<real>): real {
    if xs == [] then 0.0 else Total(xs[..|xs| - 1]) + xs[|xs| - 1]
  }

  /** Two lists that agree entry by entry to within half a cent have totals within half a cent per entry. */
  lemma {:induction false} TotalsNear(xs: seq<real>, ys: seq<real>)
    requires |xs| == |ys|
    requires forall i :: 0 <= i < |xs| ==> xs[i] - 0.005 <= ys[i] <= xs[i] + 0.005
    ensures Total(xs) - 0.005 * |xs| as real <= Total(ys) <= Total(xs) + 0.005 * |xs| as real
  {
    if xs != [] {
      var n := |xs|;
      TotalsNear(xs[..n - 1], ys[..n - 1]);
    }
  }

  /** Each overpayer's unrounded portion of the underpayer's shortfall. */
  function PortionList(under: PersonDiff, overs: seq<PersonDiff>, total: real): seq<real>
    requires total >= 0.001
  {
    seq(|overs|, i requires 0 <= i < |overs| => (-under.diff) * (overs[i].diff / total))
  }

  /** What the underpayer's party owes over its debt to each overpayer. */
  function OwedList(under: PersonDiff, overs: seq<PersonDiff>, total: real, ctx: DebtContext): seq<real>
    requires total >= 0.001
  {
    seq(|overs|, i requires 0 <= i < |overs| =>
      OwedBy(PairDebt(under, overs[i], total, ctx), PartyTypeOf(under.personId, ctx), PartyIdOf(under.personId, ctx)))
  }

  /** Dropping the last overpayer drops the last portion. */
  lemma PortionListInit(under: PersonDiff, overs: seq<PersonDiff>, total: real)
    requires total >= 0.001 && overs != []
    ensures PortionList(under, overs, total)[..|overs| - 1] == PortionList(under, overs[..|overs| - 1], total)
  {
    var n := |overs|;
    var xs, init := PortionList(under, overs, total), PortionList(under, overs[..n - 1], total);
    forall i | 0 <= i < n - 1 ensures xs[..n - 1][i] == init[i] {
      assert overs[..n - 1][i] == overs[i];
    }
  }

  lemma {:induction false} PortionsTotal(under: PersonDiff, overs: seq<PersonDiff>, total: real)
    requires total >= 0.001
    ensures Portions(under, overs, total) == Total(PortionList(under, overs, total))
  {
    if overs != [] {
      var n := |overs|;
      PortionsTotal(under, overs[..n - 1], total);
      PortionListInit(under, overs, total);
    }
  }

  lemma {:induction false} OwedTotal(under: PersonDiff, overs: seq<PersonDiff>, total: real, ctx: DebtContext)
    requires total >= 0.001
    ensures OwedBy(UnderDebts(under, overs, total, ctx), PartyTypeOf(under.personId, ctx), PartyIdOf(under.personId, ctx))
         == Total(OwedList(under, overs, total, ctx))
  {
    if overs != [] {
      var n := |overs|;
      var ty, id := PartyTypeOf(under.personId, ctx), PartyIdOf(under.personId, ctx);
      OwedTotal(under, overs[..n - 1], total, ctx);
      OwedByAppend(UnderDebts(under, overs[..n - 1], total, ctx), PairDebt(under, overs[n - 1], total, ctx), ty, id);
      assert OwedList(under, overs, total, ctx)[..n - 1] == OwedList(under, overs[..n - 1], total, ctx);
    }
  }

  /** The `i`-th pair's debt is within half a cent of its portion. */
  lemma PairAt(under: PersonDiff, overs: seq<PersonDiff>, total: real, ctx: DebtContext, i: nat)
    requires total >= 0.001 && under.diff <= 0.0 && i < |overs| && overs[i].diff >= 0.0
    ensures PortionList(under, overs, total)[i] - 0.005 <= OwedList(under, overs, total, ctx)[i]
         <= PortionList(under, overs, total)[i] + 0.005
  {
    PairNearPortion(under, overs[i], total, ctx);
  }

  /** Each pair's debt is within half a cent of its portion. */
  lemma PairsNearPortions(under: PersonDiff, overs: seq<PersonDiff>, total: real, ctx: DebtContext)
    requires total >= 0.001 && under.diff <= 0.0
    requires forall o :: o in overs ==> o.diff >= 0.0
    ensures var xs, ys := PortionList(under, overs, total), OwedList(under, overs, total, ctx);
            |xs| == |ys| == |overs| && forall i :: 0 <= i < |overs| ==> xs[i] - 0.005 <= ys[i] <= xs[i] + 0.005
  {
    forall i | 0 <= i < |overs|
      ensures PortionList(under, overs, total)[i] - 0.005 <= OwedList(under, overs, total, ctx)[i]
           <= PortionList(under, overs, total)[i] + 0.005
    {
      assert overs[i] in overs;
      PairAt(under, overs, total, ctx, i);
    }
  }

  /** An underpayer's debts add up to its unrounded portions, to within half a cent per overpayer. */
  lemma UnderDebtsNearPortions(under: PersonDiff, overs: seq<PersonDiff>, total: real, ctx: DebtContext)
    requires total >= 0.001 && under.diff <= 0.0
    requires forall o :: o in overs ==> o.diff >= 0.0
    ensures var owed := OwedBy(UnderDebts(under, overs, total, ctx), PartyTypeOf(under.personId, ctx), PartyIdOf(under.personId, ctx));
            Portions(under, overs, total) - 0.005 * |overs| as real
            <= owed <= Portions(under, overs, total) + 0.005 * |overs| as real
  {
    var xs, ys := PortionList(under, overs, total), OwedList(under, overs, total, ctx);
    PairsNearPortions(under, overs, total, ctx);
    TotalsNear(xs, ys);
    PortionsTotal(under, overs, total);
    OwedTotal(under, overs, total, ctx);
  }

  /** Against the overpayers it is netted with, an underpayer's portions add up to its whole shortfall. */
  lemma PortionsWhole(under: PersonDiff, overs: seq<PersonDiff>)
    requires TotalOverpaid(overs) >= 0.001
    ensures Portions(under, overs, TotalOverpaid(overs)) == -under.diff
  {
    PortionsScale(under, overs, TotalOverpaid(overs));
    WholeShare(-under.diff, TotalOverpaid(overs));
  }

  /**
   * Against the overpayers it is netted with, an underpayer's debts add up to
   * its shortfall `-under.diff`, to within half a cent per overpayer.
   */
  lemma DebtsCoverShortfall(under: PersonDiff, overs: seq<PersonDiff>, ctx: DebtContext)
    requires TotalOverpaid(overs) >= 0.001 && under.diff <= 0.0
    requires forall o :: o in overs ==> o.diff >= 0.0
    ensures var owed := OwedBy(UnderDebts(under, overs, TotalOverpaid(overs), ctx),
                               PartyTypeOf(under.personId, ctx), PartyIdOf(under.personId, ctx));
            -under.diff - 0.005 * |overs| as real <= owed <= -under.diff + 0.005 * |overs| as real
  {
    UnderDebtsNearPortions(under, overs, TotalOverpaid(overs), ctx);
    PortionsWhole(under, overs);
  }

  // ---------------------------------------------------------------------------
  // From one underpayer to all of them
  // ---------------------------------------------------------------------------

  /** No two entries of the list are about the same person. */
  predicate DistinctPeople(ds: seq<PersonDiff>) {
    forall i, j :: 0 <= i < j < |ds| ==> ds[i].personId != ds[j].personId
  }

  /** The underpayers of distinct keys are distinct people. */
  lemma {:induction false} UnderpayersDistinct(keys: seq<Id>, shares: Tally, paid: Tally)
    requires Distinct(keys)
    ensures DistinctPeople(Underpayers(keys, shares, paid))
  {
    if keys != [] {
      var init := keys[..|keys| - 1];
      var last := keys[|keys| - 1];
      assert Distinct(init) by {
        forall i, j | 0 <= i < j < |init| ensures init[i] != init[j] {
          assert init[i] == keys[i] && init[j] == keys[j];
        }
      }
      UnderpayersDistinct(init, shares, paid);
      var before := Underpayers(init, shares, paid);
      assert last !in init by {
        forall i | 0 <= i < |init| ensures init[i] != last {
          assert init[i] == keys[i];
        }
      }
      forall x | x in before ensures x.personId != last {
        UnderpayerIff(init, shares, paid, x);
      }
    }
  }

  /** Another participant's party owes nothing over an underpayer's debts. */
  lemma OthersOweNothing(under: PersonDiff, overs: seq<PersonDiff>, total: real, ctx: DebtContext, pid: Id)
    requires total >= 0.001 && pid != under.personId
    ensures OwedBy(UnderDebts(under, overs, total, ctx), PartyTypeOf(pid, ctx), PartyIdOf(pid, ctx)) == 0.0
  {
    UnderDebtsOwedByOthers(under, overs, total, ctx, PartyTypeOf(pid, ctx), PartyIdOf(pid, ctx));
  }

  /** A party that is none of the underpayers owes nothing. */
  lemma {:induction false} NettedOwedByNone(unders: seq<PersonDiff>, overs: seq<PersonDiff>, total: real, ctx: DebtContext, pid: Id)
    requires total >= 0.001
    requires forall x :: x in unders ==> x.personId != pid
    ensures OwedBy(NettedDebts(unders, overs, total, ctx), PartyTypeOf(pid, ctx), PartyIdOf(pid, ctx)) == 0.0
  {
    if unders != [] {
      var init := unders[..|unders| - 1];
      var last := unders[|unders| - 1];
      assert forall x :: x in init ==> x in unders;
      NettedOwedByNone(init, overs, total, ctx, pid);
      OwedByAppend(NettedDebts(init, overs, total, ctx), UnderDebts(last, overs, total, ctx),
                   PartyTypeOf(pid, ctx), PartyIdOf(pid, ctx));
      OthersOweNothing(last, overs, total, ctx, pid);
    }
  }

  /** Among distinct underpayers, what one party owes in all is what its own underpayer owes. */
  lemma {:induction false} NettedOwedBy(unders: seq<PersonDiff>, overs: seq<PersonDiff>, total: real, ctx: DebtContext, u: PersonDiff)
    requires total >= 0.001 && DistinctPeople(unders) && u in unders
    ensures var ty, id := PartyTypeOf(u.personId, ctx), PartyIdOf(u.personId, ctx);
            OwedBy(NettedDebts(unders, overs, total, ctx), ty, id) == OwedBy(UnderDebts(u, overs, total, ctx), ty, id)
  {
    var ty, id := PartyTypeOf(u.personId, ctx), PartyIdOf(u.personId, ctx);
    var n := |unders|;
    var init := unders[..n - 1];
    var last := unders[n - 1];
    OwedByAppend(NettedDebts(init, overs, total, ctx), UnderDebts(last, overs, total, ctx), ty, id);
    var i :| 0 <= i < n && unders[i] == u;
    if i == n - 1 {
      forall x | x in init ensures x.personId != u.personId {
        var j :| 0 <= j < |init| && init[j] == x;
        assert unders[j] == x;
      }
      NettedOwedByNone(init, overs, total, ctx, u.personId);
    } else {
      assert init[i] == u;
      assert DistinctPeople(init) by {
        forall a, b | 0 <= a < b < |init| ensures init[a].personId != init[b].personId {
          assert init[a] == unders[a] && init[b] == unders[b];
        }
      }
      NettedOwedBy(init, overs, total, ctx, u);
      assert last.personId != u.personId;
      OthersOweNothing(last, overs, total, ctx, u.personId);
    }
  }

  /**
   * The payer side of the netting: every participant whose rounded
   * difference is below -0.001 owes, over all the debts of the expense, its
   * shortfall to within half a cent per overpayer, and nothing at all when
   * nobody overpaid.
   */
  lemma DebtRowsCoverShortfalls(p: Plan, expenseId: nat, pid: Id)
    requires Distinct(p.shares.keys)
    requires pid in p.shares.keys && Diff(p.shares, p.paid, pid) < -0.001
    ensures var overs := Overpayers(p.shares.keys, p.shares, p.paid);
            var ctx := Context(p, expenseId);
            var short := -Diff(p.shares, p.paid, pid);
            var owed := OwedBy(DebtRows(p, expenseId), PartyTypeOf(pid, ctx), PartyIdOf(pid, ctx));
            && (overs != [] ==> short - 0.005 * |overs| as real <= owed <= short + 0.005 * |overs| as real)
            && (overs == [] ==> owed == 0.0)
  {
    var keys := p.shares.keys;
    var overs := Overpayers(keys, p.shares, p.paid);
    var unders := Underpayers(keys, p.shares, p.paid);
    var ctx := Context(p, expenseId);
    var total := TotalOverpaid(overs);
    var u := PersonDiff(pid, Diff(p.shares, p.paid, pid));
    UnderpayerIff(keys, p.shares, p.paid, u);
    if overs == [] {
      NoDebtsWithoutOverpayment(unders, overs, total, ctx);
    } else {
      forall o | o in overs ensures o.diff > 0.001 {
        OverpayerIff(keys, p.shares, p.paid, o);
      }
      TotalOverpaidBounds(overs);
      UnderpayersDistinct(keys, p.shares, p.paid);
      NettedOwedBy(unders, overs, total, ctx, u);
      DebtsCoverShortfall(u, overs, ctx);
    }
  }

  /**
   * For an accepted expense: each participant short of its share by more
   * than a rounding owes, over the debts written, its shortfall to within
   * half a cent per overpayer.
   */
  lemma PostedDebtsCoverShortfalls(s: State, req: Request, user: Id, self: Id, pid: Id)
    requires ExpensePost(s, req, user, self).response.Success?
    ensures Prepare(s, req, user, self).Success?
    ensures var p := Prepare(s, req, user, self).value;
            var debts := ExpensePost(s, req, user, self).response.value.debts;
            var overs := Overpayers(p.shares.keys, p.shares, p.paid);
            var ctx := Context(p, |s.expenses|);
            var short := -Diff(p.shares, p.paid, pid);
            var owed := OwedBy(debts, PartyTypeOf(pid, ctx), PartyIdOf(pid, ctx));
            pid in p.shares.keys && short > 0.001 && overs != []
            ==> short - 0.005 * |overs| as real <= owed <= short + 0.005 * |overs| as real
  {
    var p := Prepare(s, req, user, self).value;
    AcceptedPlan(s, req, user, self, p);
    if pid in p.shares.keys && Diff(p.shares, p.paid, pid) < -0.001 {
      DebtRowsCoverShortfalls(p, |s.expenses|, pid);
    }
  }

  /** An accepted expense writes its plan's debt and split rows, and the plan lists each participant once. */
  lemma AcceptedPlan(s: State, req: Request, user: Id, self: Id, p: Plan)
    requires ExpensePost(s, req, user, self).response.Success? && Prepare(s, req, user, self) == Success(p)
    ensures Distinct(p.shares.keys) && p.self == self && p.req.bill > 0.0
    ensures ShareMap(p.req.splitType, p.req.bill, p.req.splits, p.self) == Success(p.shares)
    ensures ExpensePost(s, req, user, self).response.value.debts == DebtRows(p, |s.expenses|)
    ensures ExpensePost(s, req, user, self).response.value.splits == SplitRows(p, |s.expenses|)
  {
    ExpenseLaws.PreparedPlan(s, req, user, self, p);
    ExpenseLaws.PlanParticipants(s, req, user, self, p);
    ExpenseLaws.RefusalKeepsState(s, req, user, self);
    ExpenseLaws.CommittedRecords(s, req, user, self, p);
  }

  // ---------------------------------------------------------------------------
  // Split rows
  // ---------------------------------------------------------------------------

  /** The rows' `shareAmount`s. */
  function ShareTotal(rows: seq<ExpenseSplit>): real {
    if rows == [] then 0.0 else ShareTotal(rows[..|rows| - 1]) + rows[|rows| - 1].shareAmount
  }

  /** The rows' `paidAmount`s. */
  function PaidTotal(rows: seq<ExpenseSplit>): real {
    if rows == [] then 0.0 else PaidTotal(rows[..|rows| - 1]) + rows[|rows| - 1].paidAmount
  }

  /** The first `k` rows' shares are the first `k` participants' shares, each rounded, so within half a cent per row. */
  lemma {:induction false} RowSharesNearSum(p: Plan, expenseId: nat, k: nat)
    requires p.req.bill > 0.0 && Valid(p.shares) && k <= |p.shares.keys|
    ensures forall x :: x in p.shares.keys[..k] ==> x in p.shares.amounts
    ensures var sum := Sum(p.shares.keys[..k], p.shares.amounts);
            sum - 0.005 * k as real <= ShareTotal(SplitRows(p, expenseId)[..k]) <= sum + 0.005 * k as real
  {
    var keys := p.shares.keys;
    assert forall x :: x in keys[..k] ==> x in keys;
    if k > 0 {
      RowSharesNearSum(p, expenseId, k - 1);
      RowShareLast(p, expenseId, k);
    }
  }

  /** The `k`-th row adds the `k`-th participant's rounded share to both sums. */
  lemma RowShareLast(p: Plan, expenseId: nat, k: nat)
    requires p.req.bill > 0.0 && Valid(p.shares) && 0 < k <= |p.shares.keys|
    ensures forall x :: x in p.shares.keys[..k] ==> x in p.shares.amounts
    ensures var keys, rows := p.shares.keys, SplitRows(p, expenseId);
            && Sum(keys[..k], p.shares.amounts) == Sum(keys[..k - 1], p.shares.amounts) + p.shares.amounts[keys[k - 1]]
            && ShareTotal(rows[..k]) == ShareTotal(rows[..k - 1]) + Round2(p.shares.amounts[keys[k - 1]])
  {
    var keys, rows := p.shares.keys, SplitRows(p, expenseId);
    assert forall x :: x in keys[..k] ==> x in keys;
    assert rows[..k][..k - 1] == rows[..k - 1];
    assert keys[..k][..k - 1] == keys[..k - 1];
    assert keys[..k][k - 1] == keys[k - 1] && keys[k - 1] in keys;
    assert rows[k - 1].shareAmount == Round2(p.shares.amounts[keys[k - 1]]);
  }

  /** All the rows' shares are the tally's, each rounded, so within half a cent per row. */
  lemma RowSharesNearTally(p: Plan, expenseId: nat)
    requires p.req.bill > 0.0 && Valid(p.shares)
    ensures var rows, sum := SplitRows(p, expenseId), Sum(p.shares.keys, p.shares.amounts);
            |rows| == |p.shares.keys| && sum - 0.005 * |rows| as real <= ShareTotal(rows) <= sum + 0.005 * |rows| as real
  {
    var n := |p.shares.keys|;
    RowSharesNearSum(p, expenseId, n);
    assert p.shares.keys[..n] == p.shares.keys;
    assert SplitRows(p, expenseId)[..n] == SplitRows(p, expenseId);
  }

  /**
   * The split rows' shares add up to the bill to within a cent above (the
   * remainder tolerance of the share map) and half a cent per row either way
   * (each share is rounded on its own).
   */
  lemma SplitSharesNearBill(p: Plan, expenseId: nat)
    requires p.req.bill > 0.0
    requires ShareMap(p.req.splitType, p.req.bill, p.req.splits, p.self) == Success(p.shares)
    ensures var rows := SplitRows(p, expenseId);
            var bill := p.req.bill;
            bill - 0.005 * |rows| as real <= ShareTotal(rows) <= bill + 0.01 + 0.005 * |rows| as real
  {
    var c := p.req;
    ShareMapBalances(c.splitType, c.bill, c.splits, p.self);
    RowSharesNearTally(p, expenseId);
  }

  /** For an accepted expense, the split rows written: their shares add up to the bill within the same bound. */
  lemma PostedSharesNearBill(s: State, req: Request, user: Id, self: Id)
    requires ExpensePost(s, req, user, self).response.Success?
    ensures Prepare(s, req, user, self).Success?
    ensures var rows := ExpensePost(s, req, user, self).response.value.splits;
            var bill := Prepare(s, req, user, self).value.req.bill;
            bill - 0.005 * |rows| as real <= ShareTotal(rows) <= bill + 0.01 + 0.005 * |rows| as real
  {
    var p := Prepare(s, req, user, self).value;
    AcceptedPlan(s, req, user, self, p);
    SplitSharesNearBill(p, |s.expenses|);
  }

  // ---------------------------------------------------------------------------
  // Where the sums fail
  // ---------------------------------------------------------------------------

  /** Ten people overpaid by a cent each. */
  const TenCents: seq<PersonDiff> :=
    [PersonDiff("o0", 0.01), PersonDiff("o1", 0.01), PersonDiff("o2", 0.01), PersonDiff("o3", 0.01),
     PersonDiff("o4", 0.01), PersonDiff("o5", 0.01), PersonDiff("o6", 0.01), PersonDiff("o7", 0.01),
     PersonDiff("o8", 0.01), PersonDiff("o9", 0.01)]

  lemma {:induction false} CentsTotal(overs: seq<PersonDiff>)
    requires forall o :: o in overs ==> o.diff == 0.01
    ensures TotalOverpaid(overs) == 0.01 * |overs| as real
  {
    if overs != [] {
      var init := overs[..|overs| - 1];
      assert forall o :: o in init ==> o in overs;
      CentsTotal(init);
    }
  }

  lemma {:induction false} NoPairReachesCent(under: PersonDiff, overs: seq<PersonDiff>, total: real, ctx: DebtContext)
    requires total >= 0.001
    requires forall o :: o in overs ==> Owes(under, o, total) < 0.01
    ensures UnderDebts(under, overs, total, ctx) == []
  {
    if overs != [] {
      var init := overs[..|overs| - 1];
      assert forall o :: o in init ==> o in overs;
      NoPairReachesCent(under, init, total, ctx);
    }
  }

  /**
   * Half a cent per overpayer is as good as the bound gets: against ten
   * overpayers of a cent each, an underpayer 4 cents short owes each a
   * portion of 0.004, which rounds to nothing, so it owes nothing at all.
   */
  lemma ShortfallLostInRounding(ctx: DebtContext)
    ensures TotalOverpaid(TenCents) == 0.1
    ensures UnderDebts(PersonDiff("u", -0.04), TenCents, TotalOverpaid(TenCents), ctx) == []
  {
    CentsTotal(TenCents);
    var u := PersonDiff("u", -0.04);
    forall o | o in TenCents ensures Owes(u, o, 0.1) < 0.01 {
      assert (-u.diff) * (o.diff / 0.1) == 0.004;
      assert Cents(0.004) == 0;
    }
    NoPairReachesCent(u, TenCents, 0.1, ctx);
  }

  /** Six people overpaid by a cent each. */
  const SixCents: seq<PersonDiff> :=
    [PersonDiff("o0", 0.01), PersonDiff("o1", 0.01), PersonDiff("o2", 0.01),
     PersonDiff("o3", 0.01), PersonDiff("o4", 0.01), PersonDiff("o5", 0.01)]

  /** A pair that rounds to `w` of a cent or more adds `w` to what the underpayer owes. */
  lemma PairOwed(under: PersonDiff, over: PersonDiff, total: real, ctx: DebtContext, w: real)
    requires total >= 0.001 && w >= 0.01 && Owes(under, over, total) == w
    ensures OwedBy(PairDebt(under, over, total, ctx), PartyTypeOf(under.personId, ctx), PartyIdOf(under.personId, ctx)) == w
  {
    var pair := PairDebt(under, over, total, ctx);
    assert |pair| == 1 && pair[..0] == [];
  }

  /** When every pair rounds to 2 cents, the underpayer owes 2 cents per overpayer. */
  lemma {:induction false} TwoCentsEach(under: PersonDiff, overs: seq<PersonDiff>, total: real, ctx: DebtContext)
    requires total >= 0.001
    requires forall o :: o in overs ==> Owes(under, o, total) == 0.02
    ensures OwedBy(UnderDebts(under, overs, total, ctx), PartyTypeOf(under.personId, ctx), PartyIdOf(under.personId, ctx))
            == 0.02 * |overs| as real
  {
    if overs != [] {
      var init := overs[..|overs| - 1];
      var last := overs[|overs| - 1];
      assert forall o :: o in init ==> o in overs;
      TwoCentsEach(under, init, total, ctx);
      PairOwed(under, last, total, ctx, 0.02);
      OwedByAppend(UnderDebts(under, init, total, ctx), PairDebt(under, last, total, ctx),
                   PartyTypeOf(under.personId, ctx), PartyIdOf(under.personId, ctx));
    }
  }

  /**
   * Rounding can also overshoot: against six overpayers of a cent each, an
   * underpayer 9 cents short owes each a portion of 0.015, which rounds up
   * to 0.02, so it owes 0.12 in all, 3 cents more than its shortfall.
   */
  lemma SixOverpayersOvershoot(ctx: DebtContext)
    ensures TotalOverpaid(SixCents) == 0.06
    ensures OwedBy(UnderDebts(PersonDiff("u", -0.09), SixCents, TotalOverpaid(SixCents), ctx),
                   PartyTypeOf("u", ctx), PartyIdOf("u", ctx)) == 0.12
  {
    CentsTotal(SixCents);
    var u := PersonDiff("u", -0.09);
    forall o | o in SixCents ensures Owes(u, o, 0.06) == 0.02 {
      assert (-u.diff) * (o.diff / 0.06) == 0.015;
      assert Cents(0.015) == 2;
    }
    TwoCentsEach(u, SixCents, 0.06, ctx);
  }

  /** Shares of a bill of 100: "A" named for an amount of 50, the user's own person "me" taking the other 50. */
  const CreditShares: Tally := Tally(["A", "me"], map["A" := 50.0, "me" := 50.0], 100.0)

  /** Payments of the same bill: "A" paid 60 and "X", who has no share, paid 40. */
  const CreditPaid: Tally := Tally(["A", "X"], map["A" := 60.0, "X" := 40.0], 100.0)

  /** "A" is named for 50 of a bill of 100, and "me" absorbs the other 50. */
  lemma CreditShareMap()
    ensures ShareMap(Amount, 100.0, [Entry(Str("A"), Num(50.0))], "me") == Success(CreditShares)
  {
    assert !IsWhitespace("A"[0]);
    var sp := SplitPass(Amount, 100.0);
    var splits := [Entry(Str("A"), Num(50.0))];
    var one := Tally(["A"], map["A" := 50.0], 50.0);
    assert splits[..|splits| - 1] == [];
    assert Weight(sp, 50.0) == 50.0;
    assert Step(sp, Empty, splits[0]) == Success(Add(Empty, "A", 50.0));
    assert Add(Empty, "A", 50.0) == one;
    assert Fold(sp, splits) == Success(one);
    assert Max(0.0, 100.0 - one.total) == 50.0;
    assert Add(one, "me", 50.0) == CreditShares;
  }

  /** The paid-map loop's first step: "A" paid 60. */
  lemma CreditPaidFirst()
    ensures Fold(PaidPass, [Entry(Str("A"), Num(60.0))]) == Success(Tally(["A"], map["A" := 60.0], 60.0))
  {
    assert !IsWhitespace("A"[0]);
    var first := [Entry(Str("A"), Num(60.0))];
    assert first[..|first| - 1] == [];
    assert Step(PaidPass, Empty, first[0]) == Success(Add(Empty, "A", 60.0));
    assert Add(Empty, "A", 60.0) == Tally(["A"], map["A" := 60.0], 60.0);
  }

  /** The paid-map loop over the two payers. */
  lemma CreditPaidFold()
    ensures Fold(PaidPass, [Entry(Str("A"), Num(60.0)), Entry(Str("X"), Num(40.0))]) == Success(CreditPaid)
  {
    assert !IsWhitespace("X"[0]);
    CreditPaidFirst();
    var paidBy := [Entry(Str("A"), Num(60.0)), Entry(Str("X"), Num(40.0))];
    var one := Tally(["A"], map["A" := 60.0], 60.0);
    assert paidBy[..|paidBy| - 1] == [Entry(Str("A"), Num(60.0))];
    assert Step(PaidPass, one, paidBy[1]) == Success(Add(one, "X", 40.0));
    CreditPaidSecond();
  }

  /** Adding "X"'s 40 to "A"'s 60 gives the paid map of the example. */
  lemma CreditPaidSecond()
    ensures Add(Tally(["A"], map["A" := 60.0], 60.0), "X", 40.0) == CreditPaid
  {
    var one := Tally(["A"], map["A" := 60.0], 60.0);
    assert "X" !in one.amounts by {
      assert "X"[0] != "A"[0];
    }
    assert Get(one, "X") == 0.0;
  }

  /** "A" paid 60 and "X" paid 40: together the bill. */
  lemma CreditPaidMap()
    ensures PaidMap(100.0, [Entry(Str("A"), Num(60.0)), Entry(Str("X"), Num(40.0))]) == Success(CreditPaid)
  {
    CreditPaidFold();
  }

  /** "A" is 10 over its share of 50; "me" paid nothing of its 50. */
  lemma CreditDiffs()
    ensures Diff(CreditShares, CreditPaid, "A") == 10.0
    ensures Diff(CreditShares, CreditPaid, "me") == -50.0
  {
    assert Get(CreditPaid, "A") - Get(CreditShares, "A") == 10.0;
    assert Cents(10.0) == 1000;
    assert Get(CreditPaid, "me") - Get(CreditShares, "me") == -50.0;
    assert Cents(-50.0) == -5000;
  }

  /** "A" is the one overpayer and "me" the one underpayer; "X" is in neither list. */
  lemma CreditClassified()
    ensures Overpayers(CreditShares.keys, CreditShares, CreditPaid) == [PersonDiff("A", 10.0)]
    ensures Underpayers(CreditShares.keys, CreditShares, CreditPaid) == [PersonDiff("me", -50.0)]
    ensures TotalOverpaid([PersonDiff("A", 10.0)]) == 10.0
  {
    CreditDiffs();
    var keys := CreditShares.keys;
    var first: seq<Id> := ["A"];
    assert keys[..|keys| - 1] == first && first[..|first| - 1] == [];
    assert Overpayers(first, CreditShares, CreditPaid) == [PersonDiff("A", 10.0)];
    assert Underpayers(first, CreditShares, CreditPaid) == [];
    var overs := [PersonDiff("A", 10.0)];
    assert overs[..0] == [];
  }

  /** The whole shortfall of 50 goes to the one overpayer, whose credit is 10. */
  lemma CreditOwes()
    ensures Owes(PersonDiff("me", -50.0), PersonDiff("A", 10.0), 10.0) == 50.0
  {
    assert (-(-50.0)) * (10.0 / 10.0) == 50.0;
    assert Cents(50.0) == 5000;
  }

  /**
   * The payee side does not balance. With the maps of `CreditShareMap` and
   * `CreditPaidMap`, "A" is 10 over and the user 50 short, so the one debt
   * makes the user owe "A" all 50, five times "A"'s credit, while "X", who
   * paid 40 and has no share, is owed nothing.
   */
  lemma OverpayerOverCredited(p: Plan, expenseId: nat)
    requires p.shares == CreditShares && p.paid == CreditPaid && p.self == "me"
    ensures Diff(p.shares, p.paid, "A") == 10.0 && Diff(p.shares, p.paid, "me") == -50.0
    ensures "X" !in p.shares.keys && Get(p.paid, "X") == 40.0
    ensures DebtRows(p, expenseId)
         == [Debt(p.user, User, p.user, People, "A", expenseId, 50.0, 50.0, p.account.currency, p.req.date, Pending)]
    ensures OwedTo(DebtRows(p, expenseId), People, "A") == 50.0
    ensures OwedTo(DebtRows(p, expenseId), People, "X") == 0.0
  {
    CreditDiffs();
    CreditDebts(p, expenseId);
    var ds := DebtRows(p, expenseId);
    assert ds[..0] == [];
  }

  /** The one debt of the example: the user owes "A" 50. */
  lemma CreditDebts(p: Plan, expenseId: nat)
    requires p.shares == CreditShares && p.paid == CreditPaid && p.self == "me"
    ensures DebtRows(p, expenseId)
         == [Debt(p.user, User, p.user, People, "A", expenseId, 50.0, 50.0, p.account.currency, p.req.date, Pending)]
  {
    CreditClassified();
    CreditOwes();
    var u, o := PersonDiff("me", -50.0), PersonDiff("A", 10.0);
    var overs, unders := [o], [u];
    var ctx := Context(p, expenseId);
    var debt := Debt(p.user, User, p.user, People, "A", expenseId, 50.0, 50.0, p.account.currency, p.req.date, Pending);
    assert unders[..0] == [] && overs[..0] == [];
    assert PairDebt(u, o, 10.0, ctx) == [debt];
    assert UnderDebts(u, overs, 10.0, ctx) == [debt];
    assert NettedDebts(unders, overs, 10.0, ctx) == [debt];
  }

  /**
   * Nor do the rows' payments: with the same maps the rows go to "A" and the
   * user only, carrying 60 of the 100 paid; "X" gets no row.
   */
  lemma PaidRowsMissPayer(p: Plan, expenseId: nat)
    requires p.req.bill == 100.0 && p.shares == CreditShares && p.paid == CreditPaid
    ensures |SplitRows(p, expenseId)| == 2
    ensures SplitRows(p, expenseId)[0].people == "A" && SplitRows(p, expenseId)[1].people == "me"
    ensures PaidTotal(SplitRows(p, expenseId)) == 60.0
  {
    var rows := SplitRows(p, expenseId);
    assert Round2(60.0) == 60.0 by { assert Cents(60.0) == 6000; }
    assert Round2(0.0) == 0.0 by { assert Cents(0.0) == 0; }
    assert rows[0].paidAmount == 60.0 && rows[1].paidAmount == 0.0;
    var one := rows[..1];
    assert one[..0] == [] && one[0] == rows[0];
    assert PaidTotal(one) == 60.0;
    assert rows[..|rows| - 1] == one;
  }
}
