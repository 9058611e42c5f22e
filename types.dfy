/**
 * The records of src/types/index.ts.
 *
 * JavaScript `Date` values appear in two forms: a whole instant (the result of
 * `new Date()` or `Date.now()`) is `Millis`, milliseconds since the epoch; the
 * timestamp of a payment is abstracted to its calendar date, which is all the
 * income engine looks at (its year and month, and its order against others).
 */
module Types {
  import opened Wrappers

  type Millis = int

  /** `Date.getMonth()`: 0 for January up to 11 for December. */
  type MonthIndex = m: int | 0 <= m < 12

  /** `Date.getDate()`. */
  type DayOfMonth = d: int | 1 <= d <= 31 witness 1

  datatype CalendarDate = CalendarDate(year: int, month: MonthIndex, day: DayOfMonth)

  /** One inbound payment. */
  datatype Transaction = Transaction(
    id: string,
    from: string,
    to: string,
    amount: int,
    timestamp: CalendarDate,
    memo: string,
    txHash: string)

  datatype Frequency = Weekly | BiWeekly | Monthly | Irregular

  /** The derived income profile of a wallet. */
  datatype IncomeData = IncomeData(
    totalIncome: int,
    averageMonthlyIncome: real,
    paymentCount: nat,
    employerCount: nat,
    paymentFrequency: Frequency,
    transactions: seq<Transaction>,
    lastUpdated: Millis)

  /** An issued income-proof token (IncomeProofNFT). */
  datatype ProofRecord = ProofRecord(
    tokenId: int,
    walletAddress: string,
    verificationTimestamp: Millis,
    averageMonthlyIncome: real,
    paymentFrequency: Frequency,
    employerCount: nat,
    verificationHash: string,
    isValid: bool,
    tokenURI: string)

  datatype WalletState = WalletState(
    address: Option<string>,
    isConnected: bool,
    chainId: Option<int>,
    balance: string)

  /** AppView: the four screens of the application. */
  datatype View = DashboardView | MintView | VerifyView | HistoryView

  datatype ToastKind = SuccessToast | ErrorToast | InfoToast | WarningToast

  datatype Toast = Toast(id: string, kind: ToastKind, title: string, message: string)
}
