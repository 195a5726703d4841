# billingstream topology, modelled in Dafny

This project models the core of the billingstream service: the Kafka Streams
topology built by `TransactionTopology.buildTopology`. Card and GPay payment
records are normalised into one `UnifiedTransaction` shape and merged. They
are then split by status and by payment method, and written to four output
topics:

- `failed-transactions-dlq`
- `unified-transactions`
- `transactions-card`
- `transactions-gpay`

Every success event also feeds two per-method aggregates:

- the running total `total-amount-by-method`;
- the one-minute tumbling-window count `tx-count-per-minute-by-method`.

Modules, one per component:

- `Transactions` (`transactions.dfy`): the three record classes as datatypes.
  `amount` is an exact `int` in minor units. `timestamp` is a `nat` in epoch
  milliseconds. `status` and `paymentMethod` stay strings.
- `Normalizer` (`normalizer.dfy`): the two `mapValues` lambdas. Their
  partners are reconstruction functions with round-trip lemmas in both
  directions.
- `Router` (`router.dfy`): the status split, which has a default branch, and
  the method split, which has none. `Destinations` maps an event to its set
  of topics. `TopicStream` gives a topic's contents after a sequence of merged
  events. Partition lemmas cover both splits.
- `Aggregation` (`aggregation.dfy`): the two reducer steps as functions. The
  class `Aggregates` holds the two stores as maps. Its invariant ties each
  store to an independent definition over the processed success events: the
  amount sum, the window count, and the counts of a method summed over all
  of its buckets.
- `Topology` (`topology.dfy`): the class `TransactionTopology`. It holds the
  four topics and the stores. `Consume` processes one source record.
  `ConsumeAll` loops over the merged records.

## Model

| member | source | states |
|---|---|---|
| `Normalizer.NormalizeCard` | src/main/java/com/github/billingstream/topology/TransactionTopology.java:43-53 | method is `CARD`; reference is the card number; detail is the card network; id, user, amount, status and timestamp are copied unchanged |
| `Normalizer.NormalizeGPay` | src/main/java/com/github/billingstream/topology/TransactionTopology.java:55-65 | method is `GPAY`; reference is the UPI id; detail is the GPay reference id; the five common fields are copied unchanged |
| `Normalizer.Normalize` | src/main/java/com/github/billingstream/topology/TransactionTopology.java:43-65 | the method is `CARD` iff the record came from the card topic, and `GPAY` iff it came from the GPay topic |
| `Normalizer.NormalizeAll` | src/main/java/com/github/billingstream/topology/TransactionTopology.java:43-68 | the merged stream has one normalised event per source record, in merge order |
| `Normalizer.CardRoundTrip` | src/main/java/com/github/billingstream/topology/TransactionTopology.java:43-53 | card normalisation loses only the holder name and the expiry date |
| `Normalizer.CardOfInverse` | src/main/java/com/github/billingstream/topology/TransactionTopology.java:43-53 | every unified event labelled `CARD` is the normalisation of some card record |
| `Normalizer.GPayRoundTrip` | src/main/java/com/github/billingstream/topology/TransactionTopology.java:55-65 | GPay normalisation loses only the device id |
| `Normalizer.GPayOfInverse` | src/main/java/com/github/billingstream/topology/TransactionTopology.java:55-65 | every unified event labelled `GPAY` is the normalisation of some GPay record |
| `Normalizer.NormalizersDisjoint` | src/main/java/com/github/billingstream/topology/TransactionTopology.java:49-61 | a card record and a GPay record never normalise to the same event |
| `Router.StatusSplit` | src/main/java/com/github/billingstream/topology/TransactionTopology.java:79-81 | an event is labelled failed iff its status equals `FAILED`; every other status string, known or not, takes the success default |
| `Router.MethodSplit` | src/main/java/com/github/billingstream/topology/TransactionTopology.java:91-94 | `CARD` gives the card branch and `GPAY` the gpay branch; any other method gives no branch |
| `Router.Destinations` | src/main/java/com/github/billingstream/topology/TransactionTopology.java:79-97 | for each of the four topics, the exact condition on status and method under which an event is written to it |
| `Router.TopicStream` | src/main/java/com/github/billingstream/topology/TransactionTopology.java:83-97 | every event written to a topic has that topic among its destinations, and a topic never holds more events than were merged (membership in both directions is `TopicStreamMembers`) |
| `Router.TopicStreamMembers` | src/main/java/com/github/billingstream/topology/TransactionTopology.java:79-97 | an event is on a topic iff it was merged and that topic is one of its destinations |
| `Router.TopicStreamAppend` | src/main/java/com/github/billingstream/topology/TransactionTopology.java:87-97 | routing one more event appends it to exactly its destination topics; the other topics do not change |
| `Router.StatusSplitPartitions` | src/main/java/com/github/billingstream/topology/TransactionTopology.java:68-88 | the dead-letter topic and the unified topic together hold each merged event exactly once (multiset equality) |
| `Router.MethodSplitPartitions` | src/main/java/com/github/billingstream/topology/TransactionTopology.java:91-97 | when every method is `CARD` or `GPAY`, the two method topics together hold exactly the success events |
| `Router.UnknownMethodDropped` | src/main/java/com/github/billingstream/topology/TransactionTopology.java:91-97 | a success event with any other method reaches `unified-transactions` and no method topic |
| `Router.FailedOnlyToDlq` | src/main/java/com/github/billingstream/topology/TransactionTopology.java:79-88 | a failed event reaches the dead-letter topic and nothing else |
| `Aggregation.WindowStart` | src/main/java/com/github/billingstream/topology/TransactionTopology.java:114 | the window start is a multiple of 60000 ms, and the timestamp lies in `[start, start + 60000)` |
| `Aggregation.WindowStartUnique` | src/main/java/com/github/billingstream/topology/TransactionTopology.java:114 | that aligned window is the only one that contains the timestamp |
| `Aggregation.InWindowIffKey` | src/main/java/com/github/billingstream/topology/TransactionTopology.java:111-117 | an event falls in bucket (method, start) iff that bucket is its own key |
| `Aggregation.AddToTotal` | src/main/java/com/github/billingstream/topology/TransactionTopology.java:100-108 | the event's method key gains its amount, starting from 0 when absent; no other key changes |
| `Aggregation.IncrementCount` | src/main/java/com/github/billingstream/topology/TransactionTopology.java:111-117 | bucket (method, t - t % 60000) goes up by one; no other bucket changes |
| `Aggregation.ReplayCountsTwice` | src/main/java/com/github/billingstream/topology/TransactionTopology.java:100-117 | a record delivered twice is summed twice and counted twice, because there is no deduplication |
| `Aggregation.BucketTotalIncrement` | src/main/java/com/github/billingstream/topology/TransactionTopology.java:111-117 | one count step raises the all-bucket count of the event's method by one, and leaves every other method's unchanged |
| `Aggregation.Aggregates.constructor` | src/main/java/com/github/billingstream/topology/TransactionTopology.java:100-117 | both stores start empty, which reads as total 0 and count 0 everywhere |
| `Aggregation.Aggregates.TotalAmount` | src/main/java/com/github/billingstream/controller/QueryController.java:40-43 | the total-amount lookup equals the amount sum of the processed events of that method; an absent key reads as 0 |
| `Aggregation.Aggregates.WindowCountAt` | src/main/java/com/github/billingstream/topology/TransactionTopology.java:111-117 | a bucket's count equals the number of processed events of that method whose timestamp lies in the bucket's minute; a bucket exists iff that number is positive |
| `Aggregation.Aggregates.Add` | src/main/java/com/github/billingstream/topology/TransactionTopology.java:100-117 | both reducers applied to one event; the invariant that each store equals its reference definition is kept |
| `Topology.TransactionTopology.constructor` | src/main/java/com/github/billingstream/topology/TransactionTopology.java:30-118 | all four topics and both stores start empty |
| `Topology.TransactionTopology.Route` | src/main/java/com/github/billingstream/topology/TransactionTopology.java:79-97 | the two splits append one event to exactly its destination topics |
| `Topology.TransactionTopology.Consume` | src/main/java/com/github/billingstream/topology/TransactionTopology.java:43-117 | a failed record goes only to the dead-letter topic and leaves the stores unchanged; a success record goes to `unified-transactions` and to the topic of its own source, and updates both stores |
| `Topology.TransactionTopology.ConsumeAll` | src/main/java/com/github/billingstream/topology/TransactionTopology.java:30-118 | after a merged sequence: dead-letter plus unified equals merged, and card plus gpay equals unified (multisets); each method's total is its amount sum over the unified topic; each bucket holds its window count; a method's counts over all buckets equal its number of events |
| `Topology.RoutedOne` | src/main/java/com/github/billingstream/topology/TransactionTopology.java:83-97 | one more merged event extends each of the four topics exactly by its routing condition |
| `Topology.NormalizedDestinations` | src/main/java/com/github/billingstream/topology/TransactionTopology.java:43-97 | a source record goes to the dead-letter topic alone if it failed; otherwise it goes to `unified-transactions` and to the method topic of its own source |
| `Topology.NormalizedKnown` | src/main/java/com/github/billingstream/topology/TransactionTopology.java:43-65 | every normalised record carries a method the method split recognises |

## Behaviour of the code worth noting

- The second payment method is named `GPAY` (`PaymentMethod.GPAY.name()`,
  `TransactionTopology.java` line 61).
- Both aggregates key the whole success stream by `paymentMethod`
  (lines 100-101 and 111-112), not the output of the method split. A success
  event with an unknown method is therefore still totalled and counted under
  its own key, although it reaches no method topic.
- The adder at line 105 adds any amount: negative amounts are not rejected.
- Status is compared as a string (line 80), so every status other than
  `FAILED`, including unknown strings, takes the success branch.
- There is no deduplication: a record delivered twice is summed and counted
  twice (`ReplayCountsTwice`).

## Left out

- Kafka transport: reading from topics, `.to(...)`, partitioning and
  repartitioning, and broker configuration. Topics are sequences of records.
  The merge order of the two source topics is taken as an input, because
  Kafka interleaves them in an order the code does not control.
- JSON serde: the wrappers over Jackson's `ObjectMapper`. Decode failures
  are therefore not modelled.
- The simulators. They depend on randomness, scheduling, the clock and
  `KafkaTemplate`.
- The query controller, apart from the 0-for-absent lookup (`TotalAmount`).
  Also left out: the `toUpperCase` of the path variable, the 503 mapping of
  exceptions, and the tx-count query's trailing 10-minute range, which
  depends on the wall clock.
- `double` arithmetic. Amounts and totals are exact integers in minor units,
  so rounding is not modelled.
- Window-store internals: retention, durability, recovery and caching. Also
  left out: the library dropping records that arrive after their window has
  closed in stream time (no grace period, line 114). The model bins every
  event by its timestamp.
- Record timestamps. The window at line 114 is assigned by the Kafka record
  timestamp returned by the timestamp extractor. `KafkaStreamsConfig.java`
  sets no custom extractor, so with the default one this is the producer's
  send time. The simulators send without an explicit timestamp. The model
  instead bins each event by its payload `timestamp` field, which amounts to
  assuming an extractor that reads that field. The application properties
  that could configure one are not part of this model. The `Instant`'s
  sub-millisecond precision is also dropped.
- Null or empty records. For an empty payload, `JsonDeserializer.java`
  line 18 returns `null`. The normalise lambdas then dereference it at
  `TransactionTopology.java` lines 45 and 57 and throw, which stops the
  stream thread. The record is redelivered after a restart, so the failure
  repeats. The model's source records are never null, so this failure path is
  not represented.
- Null fields. A Java field may be `null`; Dafny strings and timestamps
  cannot be. Timestamps before the epoch are not represented, because
  `timestamp` is a `nat`.
- Concurrency and per-key atomicity. The code has neither; Kafka Streams
  processes each partition sequentially.
- `PaymentMethod` and `TransactionStatus` are not part of this model. Their
  constant names, used through `name()`, are taken as `CARD`, `GPAY` and
  `FAILED`.
