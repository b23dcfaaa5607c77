/**
 * The documents the handlers read and write, and the database holding them.
 * Field names follow the mongoose schemas; ids are the strings the request
 * bodies carry.
 */
module Store {
  import opened Wrappers
  import opened Js

  type Id = string

  datatype Account = Account(user: Id, name: string, balance: real, currency: Option<Id>)

  /** A participant. `isUser` marks the user's own "You" record. */
  datatype Person = Person(user: Id, name: string, isUser: bool)

  datatype IncomeSource = IncomeSource(user: Id, name: string)

  /** A savings goal; `balance` and `allocationRate` may be absent from a stored document. */
  datatype IncomeGoal = IncomeGoal(
    user: Id,
    name: string,
    targetAmount: Option<real>,
    targetDate: Option<JsValue>,
    balance: Option<real>,
    allocationRate: Option<real>,
    account: Id)

  datatype SplitType = Percentage | Amount

  /**
   * `totalAmount` holds the user's own share of the bill. The handler also
   * passes `userPaid`, but the Expense schema does not declare it, so it is
   * not stored.
   */
  datatype Expense = Expense(
    userId: Id,
    accountId: Id,
    goalId: Id,
    name: string,
    totalAmount: real,
    date: JsValue,
    categoryId: Id,
    typeId: Id,
    splitType: SplitType,
    notes: Option<string>)

  /** One participant's row of an expense; `expense` is the expense's position in the store. */
  datatype ExpenseSplit = ExpenseSplit(
    expense: nat,
    hasPaid: bool,
    shareRate: real,
    shareAmount: real,
    sharePercent: real,
    paidAmount: real,
    people: Id)

  /** Which collection a debt's payer or payee id points into. */
  datatype PartyType = User | People

  datatype DebtStatus = Pending

  datatype Debt = Debt(
    userId: Id,
    payerType: PartyType,
    payerId: Id,
    payeeType: PartyType,
    payeeId: Id,
    expenseId: nat,
    originalAmount: real,
    remainingAmount: real,
    currencyId: Option<Id>,
    date: JsValue,
    status: DebtStatus)

  datatype ExpenseAllocation = ExpenseAllocation(expense: nat, goal: Id, amount: real)

  datatype Income = Income(
    user: Id,
    name: string,
    amount: real,
    source: Id,
    date: JsValue,
    notes: string,
    destAccount: Id)

  /** The handler also passes the user, which the schema does not declare and so does not store. */
  datatype IncomeAllocation = IncomeAllocation(income: nat, goal: Id, amount: int)

  datatype Loan = Loan(
    lender: Id,
    borrower: Id,
    amount: real,
    date: JsValue,
    notes: JsValue,
    settled: JsValue,
    account: Option<Id>,
    expense: JsValue,
    user: Id)

  /** The whole database as one value. */
  datatype State = State(
    accounts: map<Id, Account>,
    people: map<Id, Person>,
    sources: map<Id, IncomeSource>,
    goals: map<Id, IncomeGoal>,
    expenses: seq<Expense>,
    splits: seq<ExpenseSplit>,
    debts: seq<Debt>,
    expenseAllocations: seq<ExpenseAllocation>,
    incomes: seq<Income>,
    incomeAllocations: seq<IncomeAllocation>,
    loans: seq<Loan>)

  /** What a handler answers together with the database it leaves behind. */
  datatype Outcome<+R, +E> = Outcome(response: Result<R, E>, state: State)

  function AccountOwner(a: Account): Id { a.user }
  function GoalOwner(g: IncomeGoal): Id { g.user }
  function SourceOwner(src: IncomeSource): Id { src.user }

  /**
   * `Model.findOne({ _id: id, user })` on a collection whose documents name
   * their owner through `owner`: `Account`, `IncomeGoal` or `IncomeSource`.
   */
  function FindOwned<T>(docs: map<Id, T>, owner: T -> Id, id: Id, user: Id): (r: Option<T>)
    ensures r.Some? <==> id in docs && owner(docs[id]) == user
    ensures r.Some? ==> r.value == docs[id]
  {
    if id in docs && owner(docs[id]) == user then Some(docs[id]) else None
  }

  /**
   * `People.findById(id)`: any person with that id, whoever owns it. A value
   * that is not a string finds nobody.
   */
  function FindPerson(people: map<Id, Person>, id: JsValue): (r: Option<Person>)
    ensures r.Some? <==> id.Str? && id.s in people
    ensures r.Some? ==> r.value == people[id.s]
  {
    if id.Str? && id.s in people then Some(people[id.s]) else None
  }

  /** `goal.balance || 0` */
  function BalanceOrZero(b: Option<real>): real {
    match b
    case Some(x) => x
    case None => 0.0
  }

  /** The database the handlers update in place, collection by collection. */
  class Db {
    var accounts: map<Id, Account>
    var people: map<Id, Person>
    var sources: map<Id, IncomeSource>
    var goals: map<Id, IncomeGoal>
    var expenses: seq<Expense>
    var splits: seq<ExpenseSplit>
    var debts: seq<Debt>
    var expenseAllocations: seq<ExpenseAllocation>
    var incomes: seq<Income>
    var incomeAllocations: seq<IncomeAllocation>
    var loans: seq<Loan>

    function Snapshot(): State
      reads this
    {
      State(accounts, people, sources, goals, expenses, splits, debts,
            expenseAllocations, incomes, incomeAllocations, loans)
    }

    constructor (s: State)
      ensures Snapshot() == s
    {
      accounts, people, sources, goals := s.accounts, s.people, s.sources, s.goals;
      expenses, splits, debts, expenseAllocations := s.expenses, s.splits, s.debts, s.expenseAllocations;
      incomes, incomeAllocations, loans := s.incomes, s.incomeAllocations, s.loans;
    }
  }
}
