/**
 * The two `split` stages of the topology, stripped of the stream DSL.
 *
 * The status split is first-match with a default branch: `FAILED` goes to the
 * dead-letter topic, every other status string is a success. The method split
 * runs on success events only, is first-match over `CARD` then `GPAY`, and has
 * no default branch, so any other method reaches no method topic.
 */
module Router {
  import opened Transactions

  /** The output topics of the topology. */
  datatype Topic =
    | FailedTransactionsDlq   // failed-transactions-dlq
    | UnifiedTransactions     // unified-transactions
    | TransactionsCard        // transactions-card
    | TransactionsGpay        // transactions-gpay

  /** Branch names `status-failed` and `status-success`. */
  datatype StatusBranch = StatusFailed | StatusSuccess

  /** Branch names `method-card` and `method-gpay`. */
  datatype MethodBranch = MethodCard | MethodGpay

  /** The status split: exhaustive, because its last branch is the default. */
  function StatusSplit(tx: UnifiedTransaction): (b: StatusBranch)
    ensures b == StatusFailed <==> tx.status == FAILED
    ensures b == StatusSuccess <==> tx.status != FAILED
  {
    if tx.status == FAILED then StatusFailed else StatusSuccess
  }

  /** The method split: `None` when neither branch predicate matches. */
  function MethodSplit(tx: UnifiedTransaction): (b: Option<MethodBranch>)
    ensures b == Some(MethodCard) <==> tx.paymentMethod == CARD
    ensures b == Some(MethodGpay) <==> tx.paymentMethod == GPAY
    ensures b == None <==> tx.paymentMethod != CARD && tx.paymentMethod != GPAY
  {
    if tx.paymentMethod == CARD then Some(MethodCard)
    else if tx.paymentMethod == GPAY then Some(MethodGpay)
    else None
  }

  /** Every topic a merged event is written to. */
  function Destinations(tx: UnifiedTransaction): (d: set<Topic>)
    ensures FailedTransactionsDlq in d <==> tx.status == FAILED
    ensures UnifiedTransactions in d <==> tx.status != FAILED
    ensures TransactionsCard in d <==> tx.status != FAILED && tx.paymentMethod == CARD
    ensures TransactionsGpay in d <==> tx.status != FAILED && tx.paymentMethod == GPAY
  {
    match StatusSplit(tx)
    case StatusFailed => {FailedTransactionsDlq}
    case StatusSuccess =>
      {UnifiedTransactions} +
      match MethodSplit(tx)
      case Some(MethodCard) => {TransactionsCard}
      case Some(MethodGpay) => {TransactionsGpay}
      case None => {}
  }

  /** A method the method split recognises. */
  predicate KnownMethod(tx: UnifiedTransaction)
  {
    tx.paymentMethod == CARD || tx.paymentMethod == GPAY
  }

  /** The contents of `topic` after the merged events `events` have been routed, in order. */
  function TopicStream(events: seq<UnifiedTransaction>, topic: Topic): (out: seq<UnifiedTransaction>)
    ensures |out| <= |events|
    ensures forall i :: 0 <= i < |out| ==> topic in Destinations(out[i])
  {
    if events == [] then []
    else
      var last := events[|events| - 1];
      TopicStream(events[..|events| - 1], topic) + (if topic in Destinations(last) then [last] else [])
  }

  /** An event is on a topic exactly when it was merged and the topic is one of its destinations. */
  lemma {:induction false} TopicStreamMembers(events: seq<UnifiedTransaction>, topic: Topic, tx: UnifiedTransaction)
    ensures tx in TopicStream(events, topic) <==> tx in events && topic in Destinations(tx)
  {
    if events != [] {
      var n := |events| - 1;
      TopicStreamMembers(events[..n], topic, tx);
      assert events == events[..n] + [events[n]];
    }
  }

  /** Routing one more event appends it to exactly the topics it is destined for. */
  lemma TopicStreamAppend(events: seq<UnifiedTransaction>, tx: UnifiedTransaction, topic: Topic)
    ensures TopicStream(events + [tx], topic)
         == TopicStream(events, topic) + (if topic in Destinations(tx) then [tx] else [])
  {
    assert (events + [tx])[..|events|] == events;
  }

  /**
   * Every merged event is on exactly one of `failed-transactions-dlq` and
   * `unified-transactions`, with its multiplicity.
   */
  lemma {:induction false} StatusSplitPartitions(events: seq<UnifiedTransaction>)
    ensures multiset(TopicStream(events, FailedTransactionsDlq))
          + multiset(TopicStream(events, UnifiedTransactions)) == multiset(events)
  {
    if events != [] {
      var n := |events| - 1;
      var prefix, last := events[..n], events[n];
      StatusSplitPartitions(prefix);
      assert events == prefix + [last];
      if last.status == FAILED {
        assert TopicStream(events, FailedTransactionsDlq) == TopicStream(prefix, FailedTransactionsDlq) + [last];
        assert TopicStream(events, UnifiedTransactions) == TopicStream(prefix, UnifiedTransactions);
      } else {
        assert TopicStream(events, FailedTransactionsDlq) == TopicStream(prefix, FailedTransactionsDlq);
        assert TopicStream(events, UnifiedTransactions) == TopicStream(prefix, UnifiedTransactions) + [last];
      }
    }
  }

  /**
   * When every event carries a known method, the two method topics together
   * hold exactly the success events.
   */
  lemma {:induction false} MethodSplitPartitions(events: seq<UnifiedTransaction>)
    requires forall i :: 0 <= i < |events| ==> KnownMethod(events[i])
    ensures multiset(TopicStream(events, TransactionsCard))
          + multiset(TopicStream(events, TransactionsGpay))
         == multiset(TopicStream(events, UnifiedTransactions))
  {
    if events != [] {
      var n := |events| - 1;
      MethodSplitPartitions(events[..n]);
      assert KnownMethod(events[n]);
    }
  }

  /**
   * A success event with a method the split does not know reaches
   * `unified-transactions` and nothing else.
   */
  lemma UnknownMethodDropped(tx: UnifiedTransaction)
    requires tx.status != FAILED && !KnownMethod(tx)
    ensures Destinations(tx) == {UnifiedTransactions}
  {
  }

  /** A failed event reaches `failed-transactions-dlq` and nothing else. */
  lemma FailedOnlyToDlq(tx: UnifiedTransaction)
    requires tx.status == FAILED
    ensures Destinations(tx) == {FailedTransactionsDlq}
  {
  }
}
