/**
 * `TransactionTopology.buildTopology` as a processor of source records: each
 * record is normalised, merged, split by status and by method, written to the
 * output topics, and (when it is a success) fed to both reducers.
 *
 * Topics are modelled as the sequences of records written to them; the merge
 * order of the two source topics is the order of the records given to
 * `ConsumeAll`.
 */
module Topology {
  import opened Transactions
  import opened Normalizer
  import opened Router
  import opened Aggregation

  class TransactionTopology {
    var failedDlq: seq<UnifiedTransaction>      // failed-transactions-dlq
    var unifiedTopic: seq<UnifiedTransaction>   // unified-transactions
    var cardTopic: seq<UnifiedTransaction>      // transactions-card
    var gpayTopic: seq<UnifiedTransaction>      // transactions-gpay
    const stores: Aggregates
    /** The merged stream consumed so far, after normalisation. */
    ghost var merged: seq<UnifiedTransaction>

    /** Each output topic holds, in merge order, the merged events routed to it. */
    ghost predicate Routed()
      reads this
    {
      && failedDlq == TopicStream(merged, FailedTransactionsDlq)
      && unifiedTopic == TopicStream(merged, UnifiedTransactions)
      && cardTopic == TopicStream(merged, TransactionsCard)
      && gpayTopic == TopicStream(merged, TransactionsGpay)
    }

    ghost predicate Valid()
      reads this, stores
    {
      && Routed()
      && (forall i :: 0 <= i < |merged| ==> KnownMethod(merged[i]))
      && stores.Valid()
      && stores.processed == unifiedTopic
    }

    constructor ()
      ensures Valid() && fresh(stores)
      ensures merged == [] && failedDlq == [] && unifiedTopic == [] && cardTopic == [] && gpayTopic == []
      ensures stores.totals == map[] && stores.counts == map[]
    {
      failedDlq, unifiedTopic, cardTopic, gpayTopic := [], [], [], [];
      stores := new Aggregates();
      merged := [];
    }

    /** The two splits applied to one merged event: it is appended to each topic it is destined for. */
    method Route(tx: UnifiedTransaction)
      requires Routed()
      modifies this
      ensures Routed()
      ensures merged == old(merged) + [tx]
      ensures failedDlq == old(failedDlq) + (if tx.status == FAILED then [tx] else [])
      ensures unifiedTopic == old(unifiedTopic) + (if tx.status != FAILED then [tx] else [])
      ensures cardTopic == old(cardTopic) + (if tx.status != FAILED && tx.paymentMethod == CARD then [tx] else [])
      ensures gpayTopic == old(gpayTopic) + (if tx.status != FAILED && tx.paymentMethod == GPAY then [tx] else [])
    {
      RoutedOne(merged, tx);
      merged := merged + [tx];
      match StatusSplit(tx)
      case StatusFailed =>
        failedDlq := failedDlq + [tx];
      case StatusSuccess =>
        unifiedTopic := unifiedTopic + [tx];
        match MethodSplit(tx) {
          case Some(MethodCard) => cardTopic := cardTopic + [tx];
          case Some(MethodGpay) => gpayTopic := gpayTopic + [tx];
          case None =>
        }
    }

    /** Processes one record of `card-transactions` or `gpay-transactions`. */
    method Consume(src: SourceTransaction)
      requires Valid()
      modifies this, stores
      ensures Valid()
      ensures merged == old(merged) + [Normalize(src)]
      ensures var tx := Normalize(src);
        if tx.status == FAILED then
          && failedDlq == old(failedDlq) + [tx]
          && unifiedTopic == old(unifiedTopic) && cardTopic == old(cardTopic) && gpayTopic == old(gpayTopic)
          && stores.totals == old(stores.totals) && stores.counts == old(stores.counts)
        else
          && failedDlq == old(failedDlq)
          && unifiedTopic == old(unifiedTopic) + [tx]
          && cardTopic == old(cardTopic) + (if src.FromCard? then [tx] else [])
          && gpayTopic == old(gpayTopic) + (if src.FromGPay? then [tx] else [])
          && stores.totals == AddToTotal(old(stores.totals), tx)
          && stores.counts == IncrementCount(old(stores.counts), tx)
    {
      var tx := Normalize(src);
      Route(tx);
      if StatusSplit(tx) == StatusSuccess {
        stores.Add(tx);
      }
    }

    /**
     * Processes the merged source records in order. Afterwards every merged
     * event is on exactly one of the dead-letter and unified topics, every
     * success event on exactly one method topic, and the stores hold the
     * amount sums and window counts of the unified topic.
     */
    method ConsumeAll(srcs: seq<SourceTransaction>)
      requires Valid()
      modifies this, stores
      ensures Valid()
      ensures merged == old(merged) + NormalizeAll(srcs)
      ensures multiset(failedDlq) + multiset(unifiedTopic) == multiset(merged)
      ensures multiset(cardTopic) + multiset(gpayTopic) == multiset(unifiedTopic)
      ensures forall m :: stores.TotalAmount(m) == AmountSum(unifiedTopic, m)
      ensures forall k :: stores.WindowCountAt(k) == WindowCount(unifiedTopic, k)
      ensures forall m :: BucketTotal(stores.counts, m) == EventCount(unifiedTopic, m)
    {
      var i := 0;
      while i < |srcs|
        invariant 0 <= i <= |srcs|
        invariant Valid()
        invariant merged == old(merged) + NormalizeAll(srcs[..i])
      {
        assert srcs[..i + 1][..i] == srcs[..i];
        Consume(srcs[i]);
        i := i + 1;
      }
      assert srcs[..i] == srcs;
      StatusSplitPartitions(merged);
      MethodSplitPartitions(merged);
    }
  }

  /** Routing one more event extends each topic by that event exactly when it is one of its destinations. */
  lemma RoutedOne(events: seq<UnifiedTransaction>, tx: UnifiedTransaction)
    ensures TopicStream(events + [tx], FailedTransactionsDlq)
         == TopicStream(events, FailedTransactionsDlq) + (if tx.status == FAILED then [tx] else [])
    ensures TopicStream(events + [tx], UnifiedTransactions)
         == TopicStream(events, UnifiedTransactions) + (if tx.status != FAILED then [tx] else [])
    ensures TopicStream(events + [tx], TransactionsCard)
         == TopicStream(events, TransactionsCard) + (if tx.status != FAILED && tx.paymentMethod == CARD then [tx] else [])
    ensures TopicStream(events + [tx], TransactionsGpay)
         == TopicStream(events, TransactionsGpay) + (if tx.status != FAILED && tx.paymentMethod == GPAY then [tx] else [])
  {
    TopicStreamAppend(events, tx, FailedTransactionsDlq);
    TopicStreamAppend(events, tx, UnifiedTransactions);
    TopicStreamAppend(events, tx, TransactionsCard);
    TopicStreamAppend(events, tx, TransactionsGpay);
  }

  /** Where a source record ends up: decided by its status and by which source it came from. */
  lemma NormalizedDestinations(src: SourceTransaction)
    ensures var tx := Normalize(src);
      Destinations(tx) ==
        if tx.status == FAILED then {FailedTransactionsDlq}
        else if src.FromCard? then {UnifiedTransactions, TransactionsCard}
        else {UnifiedTransactions, TransactionsGpay}
  {
  }

  /** Every normalised source record carries a method the method split knows. */
  lemma NormalizedKnown(srcs: seq<SourceTransaction>)
    ensures forall i :: 0 <= i < |srcs| ==> KnownMethod(NormalizeAll(srcs)[i])
  {
  }
}
