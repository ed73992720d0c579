/** Shapes of the rows kept by the relational store (users' expenses, income,
    account credits and settings), shared by every service of the backend.

    Amounts, ratios and balances are JavaScript numbers in the application; here
    they are `real`, so sums and proportions are exact. Columns that the
    application treats as enumerations (`accountType`, `paymentType`,
    `frequency`, `paymentPeriod`) stay strings, because the services compare
    them against string literals and fall through to a default branch for any
    other value. Record identities are naturals handed out by the store. */
module Records {

  datatype Option<T> = None | Some(value: T)

  /** The outcome of a service call that can throw: its value, or the message
      of the `Error` it throws. */
  datatype Result<T> = Ok(value: T) | Err(message: string)

  /** The four accounts a month's calculation reports on. */
  datatype AccountType = Checking | CreditCard | LineOfCredit | StudentLineOfCredit
  {
    /** The string kept in an expense's or a credit's `accountType` column. */
    function Name(): string {
      match this
      case Checking => "checking"
      case CreditCard => "credit_card"
      case LineOfCredit => "line_of_credit"
      case StudentLineOfCredit => "student_line_of_credit"
    }
  }

  /** The names of the four account types, as the four-valued enumeration. */
  predicate IsAccountTypeName(s: string) {
    s == "checking" || s == "credit_card" || s == "line_of_credit" || s == "student_line_of_credit"
  }

  datatype Expense = Expense(
    id: nat,
    userId: string,
    name: string,
    category: string,
    amount: real,
    accountType: string,
    paymentType: string,
    frequency: string,
    activeMonths: seq<real>,
    notes: Option<string>,
    isArchived: bool)

  datatype Income = Income(
    id: nat,
    userId: string,
    personName: string,
    amount: real,
    month: string,
    paymentPeriod: string)

  datatype AccountCredit = AccountCredit(
    id: nat,
    userId: string,
    description: string,
    amount: real,
    accountType: string,
    month: string)

  /** One user's settings row. */
  datatype Settings = Settings(
    userId: string,
    splitRatioPerson1: real,
    splitRatioPerson2: real,
    autoCalculateSplitRatio: bool,
    person1Name: string,
    person2Name: string,
    authorizedEmails: seq<string>,
    checkingBalance: real,
    creditCardBalance: real,
    lineOfCreditBalance: real,
    studentLineOfCreditBalance: real,
    travelSavings: real,
    homeSavings: real,
    generalSavings: real,
    travelSavingsAssignedTo: string,
    homeSavingsAssignedTo: string,
    generalSavingsAssignedTo: string)

  /** A partial settings update: `None` leaves the column as it is. */
  datatype SettingsUpdate = SettingsUpdate(
    splitRatioPerson1: Option<real>,
    splitRatioPerson2: Option<real>,
    autoCalculateSplitRatio: Option<bool>,
    person1Name: Option<string>,
    person2Name: Option<string>,
    authorizedEmails: Option<seq<string>>,
    checkingBalance: Option<real>,
    creditCardBalance: Option<real>,
    lineOfCreditBalance: Option<real>,
    studentLineOfCreditBalance: Option<real>,
    travelSavings: Option<real>,
    homeSavings: Option<real>,
    generalSavings: Option<real>,
    travelSavingsAssignedTo: Option<string>,
    homeSavingsAssignedTo: Option<string>,
    generalSavingsAssignedTo: Option<string>)
}
