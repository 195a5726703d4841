/**
 * The two reducers the topology runs, per payment method, on every success
 * event: the running total materialised as `total-amount-by-method`, and the
 * one-minute tumbling-window count materialised as
 * `tx-count-per-minute-by-method`.
 *
 * Both reducers are keyed by the event's `paymentMethod` (the `selectKey`
 * before each `groupByKey`), independently of the method split, so a success
 * event with an unknown method is still aggregated under its own key.
 */
module Aggregation {
  import opened Transactions

  /** `TimeWindows.ofSizeWithNoGrace(Duration.ofMinutes(1))`, in milliseconds. */
  const WINDOW_SIZE_MS: nat := 60000

  /** The start of the one-minute tumbling window that holds timestamp `t`. */
  function WindowStart(t: nat): (w: nat)
    ensures w % WINDOW_SIZE_MS == 0
    ensures w <= t < w + WINDOW_SIZE_MS
  {
    t - t % WINDOW_SIZE_MS
  }

  /** The window holding `t` is the only aligned window that contains `t`. */
  lemma WindowStartUnique(t: nat, w: nat)
    requires w % WINDOW_SIZE_MS == 0 && w <= t < w + WINDOW_SIZE_MS
    ensures WindowStart(t) == w
  {
    var q := w / WINDOW_SIZE_MS;
    assert w == q * WINDOW_SIZE_MS;
    assert t == q * WINDOW_SIZE_MS + (t - w);
  }

  /** A key of the window store: payment method and window start. */
  datatype WindowKey = WindowKey(paymentMethod: string, windowStart: nat)

  /** The window-store key a success event is counted under. */
  function KeyOf(tx: UnifiedTransaction): WindowKey
  {
    WindowKey(tx.paymentMethod, WindowStart(tx.timestamp))
  }

  /** Whether `tx` falls in the window `key`: same method, timestamp in `[start, start + 1 min)`. */
  predicate InWindow(tx: UnifiedTransaction, key: WindowKey)
  {
    && tx.paymentMethod == key.paymentMethod
    && key.windowStart % WINDOW_SIZE_MS == 0
    && key.windowStart <= tx.timestamp < key.windowStart + WINDOW_SIZE_MS
  }

  /** An event belongs to exactly one window, the one under its key. */
  lemma InWindowIffKey(tx: UnifiedTransaction, key: WindowKey)
    ensures InWindow(tx, key) <==> KeyOf(tx) == key
  {
    if InWindow(tx, key) {
      WindowStartUnique(tx.timestamp, key.windowStart);
    }
  }

  // ---- The two stores and their reducers ----

  /** Point lookup in the total store; an absent key reads as 0. */
  function TotalOf(totals: map<string, int>, pm: string): int
  {
    if pm in totals then totals[pm] else 0
  }

  /** Point lookup in the window store; an absent window reads as 0. */
  function CountOf(counts: map<WindowKey, nat>, key: WindowKey): nat
  {
    if key in counts then counts[key] else 0
  }

  /**
   * One step of the running-total aggregate: the initializer supplies 0 for a
   * key seen for the first time, the adder adds the amount. No other key moves.
   */
  function AddToTotal(totals: map<string, int>, tx: UnifiedTransaction): (r: map<string, int>)
    ensures r.Keys == totals.Keys + {tx.paymentMethod}
    ensures TotalOf(r, tx.paymentMethod) == TotalOf(totals, tx.paymentMethod) + tx.amount
    ensures forall m :: m != tx.paymentMethod ==> TotalOf(r, m) == TotalOf(totals, m)
  {
    totals[tx.paymentMethod := TotalOf(totals, tx.paymentMethod) + tx.amount]
  }

  /** One step of the windowed count: the event's own bucket goes up by one, no other moves. */
  function IncrementCount(counts: map<WindowKey, nat>, tx: UnifiedTransaction): (r: map<WindowKey, nat>)
    ensures r.Keys == counts.Keys + {KeyOf(tx)}
    ensures CountOf(r, KeyOf(tx)) == CountOf(counts, KeyOf(tx)) + 1
    ensures forall k :: k != KeyOf(tx) ==> CountOf(r, k) == CountOf(counts, k)
  {
    var key := KeyOf(tx);
    counts[key := CountOf(counts, key) + 1]
  }

  // ---- Reference definitions over the processed events ----

  /** The sum of the amounts of the events with method `pm`. */
  function AmountSum(events: seq<UnifiedTransaction>, pm: string): int
  {
    if events == [] then 0
    else
      var last := events[|events| - 1];
      AmountSum(events[..|events| - 1], pm) + (if last.paymentMethod == pm then last.amount else 0)
  }

  /** The number of events with method `pm`. */
  function EventCount(events: seq<UnifiedTransaction>, pm: string): nat
  {
    if events == [] then 0
    else
      var last := events[|events| - 1];
      EventCount(events[..|events| - 1], pm) + (if last.paymentMethod == pm then 1 else 0)
  }

  /** The number of events that fall in the window `key`. */
  function WindowCount(events: seq<UnifiedTransaction>, key: WindowKey): nat
  {
    if events == [] then 0
    else
      var last := events[|events| - 1];
      WindowCount(events[..|events| - 1], key) + (if InWindow(last, key) then 1 else 0)
  }

  /**
   * The reducers do not deduplicate: an event delivered twice adds its amount
   * twice and counts twice in its window.
   */
  lemma ReplayCountsTwice(events: seq<UnifiedTransaction>, tx: UnifiedTransaction)
    ensures AmountSum(events + [tx, tx], tx.paymentMethod) == AmountSum(events, tx.paymentMethod) + 2 * tx.amount
    ensures WindowCount(events + [tx, tx], KeyOf(tx)) == WindowCount(events, KeyOf(tx)) + 2
  {
    assert (events + [tx, tx])[..|events| + 1] == events + [tx];
    assert (events + [tx])[..|events|] == events;
    InWindowIffKey(tx, KeyOf(tx));
  }

  // ---- Sum of the window counts of one method ----

  /** The contribution of bucket `k` to the bucket sum of `pm`. */
  function BucketTerm(counts: map<WindowKey, nat>, k: WindowKey, pm: string): nat
  {
    if k.paymentMethod == pm then CountOf(counts, k) else 0
  }

  /** The counts of `pm` summed over the buckets `keys`. */
  ghost function BucketSum(counts: map<WindowKey, nat>, keys: set<WindowKey>, pm: string): nat
    decreases keys
  {
    if keys == {} then 0
    else
      var k :| k in keys;
      BucketTerm(counts, k, pm) + BucketSum(counts, keys - {k}, pm)
  }

  /** The counts of `pm` summed over every bucket of the store. */
  ghost function BucketTotal(counts: map<WindowKey, nat>, pm: string): nat
  {
    BucketSum(counts, counts.Keys, pm)
  }

  /** A bucket sum may be split at any of its buckets, whichever one the definition picked. */
  lemma {:induction false} BucketSumPick(counts: map<WindowKey, nat>, keys: set<WindowKey>, k: WindowKey, pm: string)
    requires k in keys
    ensures BucketSum(counts, keys, pm) == BucketTerm(counts, k, pm) + BucketSum(counts, keys - {k}, pm)
    decreases keys
  {
    var j :| j in keys && BucketSum(counts, keys, pm) == BucketTerm(counts, j, pm) + BucketSum(counts, keys - {j}, pm);
    if j != k {
      BucketSumPick(counts, keys - {j}, k, pm);
      BucketSumPick(counts, keys - {k}, j, pm);
      assert keys - {j} - {k} == keys - {k} - {j};
    }
  }

  /** Two stores that agree on the buckets `keys` have the same bucket sum over them. */
  lemma {:induction false} BucketSumAgree(c1: map<WindowKey, nat>, c2: map<WindowKey, nat>, keys: set<WindowKey>, pm: string)
    requires forall k :: k in keys ==> CountOf(c1, k) == CountOf(c2, k)
    ensures BucketSum(c1, keys, pm) == BucketSum(c2, keys, pm)
    decreases keys
  {
    if keys != {} {
      var k :| k in keys;
      BucketSumPick(c1, keys, k, pm);
      BucketSumPick(c2, keys, k, pm);
      BucketSumAgree(c1, c2, keys - {k}, pm);
    }
  }

  /** Counting one event raises the bucket total of its own method by one and leaves every other method's. */
  lemma BucketTotalIncrement(counts: map<WindowKey, nat>, tx: UnifiedTransaction, pm: string)
    ensures BucketTotal(IncrementCount(counts, tx), pm)
         == BucketTotal(counts, pm) + (if tx.paymentMethod == pm then 1 else 0)
  {
    var key := KeyOf(tx);
    var next := IncrementCount(counts, tx);
    BucketSumPick(next, next.Keys, key, pm);
    assert next.Keys - {key} == counts.Keys - {key};
    BucketSumAgree(next, counts, counts.Keys - {key}, pm);
    if key in counts {
      BucketSumPick(counts, counts.Keys, key, pm);
    } else {
      assert counts.Keys - {key} == counts.Keys;
    }
  }

  /**
   * The two stores of the topology. `processed` is the success stream consumed
   * so far; `Valid` ties each store to the reference definitions over it.
   */
  class Aggregates {
    /** `total-amount-by-method`: payment method to running total. */
    var totals: map<string, int>
    /** `tx-count-per-minute-by-method`: (payment method, window start) to count. */
    var counts: map<WindowKey, nat>
    ghost var processed: seq<UnifiedTransaction>

    ghost predicate Valid()
      reads this
    {
      && (forall m :: TotalOf(totals, m) == AmountSum(processed, m))
      && (forall m :: m in totals <==> EventCount(processed, m) > 0)
      && (forall k :: CountOf(counts, k) == WindowCount(processed, k))
      && (forall k :: k in counts <==> WindowCount(processed, k) > 0)
      && (forall m :: BucketTotal(counts, m) == EventCount(processed, m))
    }

    constructor ()
      ensures Valid()
      ensures processed == [] && totals == map[] && counts == map[]
    {
      totals := map[];
      counts := map[];
      processed := [];
    }

    /** The `total-amount` query: the running total of `pm`, 0 if it has none. */
    function TotalAmount(pm: string): (r: int)
      reads this
      requires Valid()
      ensures r == AmountSum(processed, pm)
      ensures pm !in totals ==> r == 0
    {
      TotalOf(totals, pm)
    }

    /** The count of the window `key`, 0 if the store has no such window. */
    function WindowCountAt(key: WindowKey): (r: nat)
      reads this
      requires Valid()
      ensures r == WindowCount(processed, key)
      ensures key in counts <==> r > 0
    {
      CountOf(counts, key)
    }

    /** Applies both reducers to one success event. */
    method Add(tx: UnifiedTransaction)
      requires Valid()
      modifies this
      ensures Valid()
      ensures processed == old(processed) + [tx]
      ensures totals == AddToTotal(old(totals), tx)
      ensures counts == IncrementCount(old(counts), tx)
    {
      ghost var before := processed;
      ghost var oldCounts := counts;
      totals := AddToTotal(totals, tx);
      counts := IncrementCount(counts, tx);
      processed := processed + [tx];
      assert processed[..|before|] == before;
      forall k
        ensures CountOf(counts, k) == WindowCount(processed, k)
        ensures k in counts <==> WindowCount(processed, k) > 0
      {
        InWindowIffKey(tx, k);
      }
      forall m
        ensures BucketTotal(counts, m) == EventCount(processed, m)
      {
        BucketTotalIncrement(oldCounts, tx, m);
      }
    }
  }
}
