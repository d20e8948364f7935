/**
 * The stored entities, from the Mongoose schemas under backend/models/ and
 * the fields the controllers read from the (not modelled) User model. Dates
 * are millisecond timestamps and amounts are integers.
 */
module Records {
  import opened Wrappers
  import opened Docs

  /** Milliseconds since the epoch. */
  type Time = int

  // ---------------------------------------------------------------------
  // transactions (models/transaction.js)

  /** The `type` path of a transaction: enum 'income' | 'expense'. */
  datatype Kind = Income | Expense

  function KindName(k: Kind): string {
    match k
    case Income => "income"
    case Expense => "expense"
  }

  /** The enum validator of the `type` path: only the two names are accepted. */
  function ParseKind(s: string): (k: Option<Kind>)
    ensures k.Some? ==> KindName(k.value) == s
    ensures (exists k' :: KindName(k') == s) ==> k.Some?
  {
    if s == "income" then Some(Income)
    else if s == "expense" then Some(Expense)
    else None
  }

  datatype TxData = TxData(kind: Kind, amount: int, category: string, tags: seq<string>, date: Time)

  /** A transaction; its owner is the `userId` path. */
  type Transaction = Doc<TxData>

  // ---------------------------------------------------------------------
  // budgets (models/budget.js)

  /** The `type` path of a budget: enum 'daily' | 'monthly'. */
  datatype Window = PerDay | PerMonth

  function WindowName(w: Window): string {
    match w
    case PerDay => "daily"
    case PerMonth => "monthly"
  }

  function ParseWindow(s: string): (w: Option<Window>)
    ensures w.Some? ==> WindowName(w.value) == s
    ensures (exists w' :: WindowName(w') == s) ==> w.Some?
  {
    if s == "daily" then Some(PerDay)
    else if s == "monthly" then Some(PerMonth)
    else None
  }

  datatype BudgetData = BudgetData(category: string, limit: int, window: Window, startDate: Time, endDate: Time)

  /** A budget; its owner is the `userId` path. */
  type Budget = Doc<BudgetData>

  // ---------------------------------------------------------------------
  // goals (models/goal.js)

  datatype GoalData = GoalData(name: string, targetAmount: int, savedAmount: int, category: string)

  /** A savings goal; its owner is the `userId` path. */
  type Goal = Doc<GoalData>

  // ---------------------------------------------------------------------
  // recurrence schedules (models/recurrenceTransaction.js)

  /** The `type` path of a schedule: enum 'Income' | 'Expense' (capitalised). */
  datatype Flow = Inflow | Outflow

  function FlowName(f: Flow): string {
    match f
    case Inflow => "Income"
    case Outflow => "Expense"
  }

  function ParseFlow(s: string): (f: Option<Flow>)
    ensures f.Some? ==> FlowName(f.value) == s
    ensures (exists f' :: FlowName(f') == s) ==> f.Some?
  {
    if s == "Income" then Some(Inflow)
    else if s == "Expense" then Some(Outflow)
    else None
  }

  /** The `recurrence` path: enum 'Daily' | 'Weekly' | 'Monthly' | 'Yearly'. */
  datatype Cadence = Daily | Weekly | Monthly | Yearly

  function CadenceName(c: Cadence): string {
    match c
    case Daily => "Daily"
    case Weekly => "Weekly"
    case Monthly => "Monthly"
    case Yearly => "Yearly"
  }

  function ParseCadence(s: string): (c: Option<Cadence>)
    ensures c.Some? ==> CadenceName(c.value) == s
    ensures (exists c' :: CadenceName(c') == s) ==> c.Some?
  {
    if s == "Daily" then Some(Daily)
    else if s == "Weekly" then Some(Weekly)
    else if s == "Monthly" then Some(Monthly)
    else if s == "Yearly" then Some(Yearly)
    else None
  }

  datatype ScheduleData = ScheduleData(
    flow: Flow, amount: int, category: string, tags: seq<string>,
    recurrence: Cadence, startDate: Time, endDate: Option<Time>, createdAt: Time)

  /** A recurrence schedule; its owner is the `user` path. */
  type Schedule = Doc<ScheduleData>

  // ---------------------------------------------------------------------
  // users (the User model itself is not part of this model)

  /**
   * A user as the controllers use it: `password` is whatever the User model
   * stores for the credential, `role` may be unset, and `budget` is the
   * optional overall budget the user summary reads.
   */
  datatype User = User(id: Id, name: string, email: string, password: string, role: Option<string>, budget: Option<int>)

  /** A user as `select('-password')` returns it. */
  datatype Profile = Profile(id: Id, name: string, email: string, role: Option<string>, budget: Option<int>)

  /** The password is the only thing dropped: putting it back restores the user. */
  function WithoutPassword(u: User): (p: Profile)
    ensures User(p.id, p.name, p.email, u.password, p.role, p.budget) == u
  {
    Profile(u.id, u.name, u.email, u.role, u.budget)
  }

  /** `User.findById(id)`: the first user with that id, if any. */
  function FindUser(users: seq<User>, id: Id): (r: Option<User>)
    ensures r.Some? ==> r.value in users && r.value.id == id
    ensures r.None? <==> forall u :: u in users ==> u.id != id
  {
    if users == [] then None
    else if users[0].id == id then Some(users[0])
    else FindUser(users[1..], id)
  }

  /** `User.findOne({ email })`: the first user with that email, if any. */
  function FindByEmail(users: seq<User>, email: string): (r: Option<User>)
    ensures r.Some? ==> r.value in users && r.value.email == email
    ensures r.None? <==> forall u :: u in users ==> u.email != email
  {
    if users == [] then None
    else if users[0].email == email then Some(users[0])
    else FindByEmail(users[1..], email)
  }
}
