/**
 * The two `mapValues` lambdas of the topology: each source shape is mapped to
 * a `UnifiedTransaction` by copying the five common fields, fixing the
 * payment method, and filling the reference and detail from the fields that
 * only that source has.
 */
module Normalizer {
  import opened Transactions

  /** Card records: reference is the card number, detail the card network. */
  function NormalizeCard(card: CardTransaction): (u: UnifiedTransaction)
    ensures u.paymentMethod == CARD
    ensures u.paymentReference == card.cardNumber && u.paymentDetail == card.cardNetwork
    ensures u.transactionId == card.transactionId && u.userId == card.userId
    ensures u.amount == card.amount && u.status == card.status && u.timestamp == card.timestamp
  {
    UnifiedTransaction(
      card.transactionId, card.userId, card.amount, card.status,
      CARD, card.cardNumber, card.cardNetwork, card.timestamp)
  }

  /** GPay records: reference is the UPI id, detail the GPay reference id. */
  function NormalizeGPay(gpay: GPayTransaction): (u: UnifiedTransaction)
    ensures u.paymentMethod == GPAY
    ensures u.paymentReference == gpay.upiId && u.paymentDetail == gpay.gpayReferenceId
    ensures u.transactionId == gpay.transactionId && u.userId == gpay.userId
    ensures u.amount == gpay.amount && u.status == gpay.status && u.timestamp == gpay.timestamp
  {
    UnifiedTransaction(
      gpay.transactionId, gpay.userId, gpay.amount, gpay.status,
      GPAY, gpay.upiId, gpay.gpayReferenceId, gpay.timestamp)
  }

  /** The normaliser applied to a record of either source topic. */
  function Normalize(src: SourceTransaction): (u: UnifiedTransaction)
    ensures u.paymentMethod == CARD <==> src.FromCard?
    ensures u.paymentMethod == GPAY <==> src.FromGPay?
  {
    match src
    case FromCard(card) => NormalizeCard(card)
    case FromGPay(gpay) => NormalizeGPay(gpay)
  }

  /** The merged stream after normalisation, in merge order. */
  function NormalizeAll(srcs: seq<SourceTransaction>): (us: seq<UnifiedTransaction>)
    ensures |us| == |srcs|
    ensures forall i :: 0 <= i < |srcs| ==> us[i] == Normalize(srcs[i])
  {
    if srcs == [] then []
    else NormalizeAll(srcs[..|srcs| - 1]) + [Normalize(srcs[|srcs| - 1])]
  }

  /**
   * Rebuilds the card record a unified transaction came from; the two card
   * fields the normaliser drops are supplied by the caller.
   */
  function CardOf(u: UnifiedTransaction, cardHolderName: string, expiryDate: string): CardTransaction
  {
    CardTransaction(
      u.transactionId, u.userId, u.amount, u.status,
      u.paymentReference, cardHolderName, u.paymentDetail, expiryDate, u.timestamp)
  }

  /** Rebuilds the GPay record a unified transaction came from, given the dropped device id. */
  function GPayOf(u: UnifiedTransaction, deviceId: string): GPayTransaction
  {
    GPayTransaction(
      u.transactionId, u.userId, u.amount, u.status,
      u.paymentReference, deviceId, u.paymentDetail, u.timestamp)
  }

  /** Card normalisation loses nothing but the holder name and the expiry date. */
  lemma CardRoundTrip(card: CardTransaction)
    ensures CardOf(NormalizeCard(card), card.cardHolderName, card.expiryDate) == card
  {
  }

  /** Every unified transaction labelled CARD is the normalisation of some card record. */
  lemma CardOfInverse(u: UnifiedTransaction, cardHolderName: string, expiryDate: string)
    requires u.paymentMethod == CARD
    ensures NormalizeCard(CardOf(u, cardHolderName, expiryDate)) == u
  {
  }

  /** GPay normalisation loses nothing but the device id. */
  lemma GPayRoundTrip(gpay: GPayTransaction)
    ensures GPayOf(NormalizeGPay(gpay), gpay.deviceId) == gpay
  {
  }

  /** Every unified transaction labelled GPAY is the normalisation of some GPay record. */
  lemma GPayOfInverse(u: UnifiedTransaction, deviceId: string)
    requires u.paymentMethod == GPAY
    ensures NormalizeGPay(GPayOf(u, deviceId)) == u
  {
  }

  /** The two normalisers never produce the same unified transaction. */
  lemma NormalizersDisjoint(card: CardTransaction, gpay: GPayTransaction)
    ensures NormalizeCard(card) != NormalizeGPay(gpay)
  {
    assert NormalizeCard(card).paymentMethod[0] != NormalizeGPay(gpay).paymentMethod[0];
  }
}
