/** The ledger entry FundManagementService appends on every subscription and
    cancellation. */
module Transactions {
  import opened Common

  datatype TransactionType = Subscription | Cancellation

  /** `TransactionType.ToString()`. */
  function TypeName(t: TransactionType): string {
    match t
    case Subscription => "Subscription"
    case Cancellation => "Cancellation"
  }

  datatype Transaction = Transaction(
    id: Guid,
    subscriptionId: Guid,
    fundId: int,
    amount: Money,
    kind: TransactionType,
    occurredAtUtc: DateTime)
}
