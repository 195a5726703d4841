/**
 * The event shapes of the billing stream: the two source transactions read
 * from `card-transactions` and `gpay-transactions`, and the unified
 * transaction every later stage works on.
 *
 * Amounts are exact integers in minor units (the source uses `double`);
 * timestamps are epoch milliseconds. Status and payment method stay strings,
 * because the topology compares them with string equality, so an unknown
 * status or method is representable.
 */
module Transactions {

  /** `TransactionStatus.FAILED.name()`: the only status the status split singles out. */
  const FAILED: string := "FAILED"

  /** `PaymentMethod.CARD.name()` and `PaymentMethod.GPAY.name()`. */
  const CARD: string := "CARD"
  const GPAY: string := "GPAY"

  datatype CardTransaction = CardTransaction(
    transactionId: string,
    userId: string,
    amount: int,
    status: string,
    cardNumber: string,
    cardHolderName: string,
    cardNetwork: string,
    expiryDate: string,
    timestamp: nat)

  datatype GPayTransaction = GPayTransaction(
    transactionId: string,
    userId: string,
    amount: int,
    status: string,
    upiId: string,
    deviceId: string,
    gpayReferenceId: string,
    timestamp: nat)

  datatype UnifiedTransaction = UnifiedTransaction(
    transactionId: string,
    userId: string,
    amount: int,
    status: string,
    paymentMethod: string,
    paymentReference: string,
    paymentDetail: string,
    timestamp: nat)

  /** A record as consumed from one of the two source topics. */
  datatype SourceTransaction =
    | FromCard(card: CardTransaction)
    | FromGPay(gpay: GPayTransaction)

  datatype Option<T> = None | Some(value: T)
}
