# Gaffer execution core: job records, the ordered date serialiser, context variables

A Dafny model of three sequential pieces of Gaffer's execution core:

- **The job tracker's record** (`JobTracker`, JobDetail.dfy). A `JobDetail` has eight nullable
  fields: parent job id, job id, user id, status, start time, end time, serialised operation
  chain and description. The merge constructor combines a stored snapshot with an update: each
  non-time field takes the update's value unless it is null. The start time is kept if the stored
  record has one and is otherwise stamped with the clock. The end time is stamped only when a start
  time already existed. `equals` compares every field except the parent job id. The record is
  modelled twice: as a value (`JobDetail`, with `Merge`, `Create`, `CreateFromChain`, `Equal`) and as
  the mutable object with its eight setters (`MutableJobDetail`). The object's `Snapshot()` links
  the two.
- **The order-preserving date serialiser** (`OrderedRawDateSerialiser`). A date is serialised as
  its epoch-millisecond long through a long serialiser. Here that long serialiser is a parameter,
  a `Serialiser<Long>`. Its round-trip and order-preservation properties appear as hypotheses
  (`RoundTrips`, `PreservesOrder` in Serialiser.dfy). The date serialiser is proved to inherit
  round-trip, order preservation and consistency from them. Order means byte-lexicographic order
  with unsigned bytes (`ByteOrder.ByteLess`). `OrderedLongExample` is one long serialiser that
  meets both hypotheses: eight big-endian bytes of the value plus 2^63. It shows the hypotheses can
  hold together. It is not put forward as Gaffer's own long layout.
- **Context variables** (`ExecutionContext`, `VariableHandlers`). A `Context` holds the caller's
  `User` and a map from variable name to value. `SetVariableHandler` stores the value of the
  operation's `VariableDetail` under the name. `GetVariableHandler` looks the name up and returns
  `None` (Java's null) when it is absent.

The clock (`System.currentTimeMillis()`) is the parameter `now`. Java's nullable references are
`Option` values. A `long` is the subset type `JavaLang.Long`.

Two features of the merge rule in the code are easy to miss:
- The two timestamps do not follow "new if non-null". Neither snapshot's end time is ever copied
  (JobDetail.java:57-62): the end time is either left null or set to `now`.
- Every merge into a record that already has a start time stamps the end time, whatever the status
  (JobDetail.java:59-61).

## Model

| member | source | states |
|---|---|---|
| JobTracker.NewOrOld | core/operation/src/main/java/uk/gov/gchq/gaffer/jobtracker/JobDetail.java:244-246 | the result is the new value when it is non-null, otherwise the old value |
| JobTracker.MergeTakesNewOrOld | core/operation/src/main/java/uk/gov/gchq/gaffer/jobtracker/JobDetail.java:50-55 | for jobId, userId, opChain, description, status and parentJobId, the merged value is the update's when non-null, else the stored one's |
| JobTracker.MergeStartsClock | core/operation/src/main/java/uk/gov/gchq/gaffer/jobtracker/JobDetail.java:57-58 | a stored record without a start time is merged with start time `now` and no end time |
| JobTracker.MergeStopsClock | core/operation/src/main/java/uk/gov/gchq/gaffer/jobtracker/JobDetail.java:59-61 | a stored record with a start time keeps it, and its end time becomes `now` |
| JobTracker.MergeIgnoresTimes | core/operation/src/main/java/uk/gov/gchq/gaffer/jobtracker/JobDetail.java:49-63 | changing the update's start or end time, or the stored end time, does not change the merge |
| JobTracker.MergeEmptyUpdate | core/operation/src/main/java/uk/gov/gchq/gaffer/jobtracker/JobDetail.java:50-55 | merging an all-null update keeps every non-time field of the stored record |
| JobTracker.MergeIdempotent | core/operation/src/main/java/uk/gov/gchq/gaffer/jobtracker/JobDetail.java:49-63 | re-applying an update to its own merge result changes nothing except that the end time becomes the second clock reading |
| JobTracker.MergeSelf | core/operation/src/main/java/uk/gov/gchq/gaffer/jobtracker/JobDetail.java:49-63 | merging a record with itself changes only its timestamps: start time kept or stamped, end time stamped only if it had started |
| JobTracker.StartTimeSetOnce | core/operation/src/main/java/uk/gov/gchq/gaffer/jobtracker/JobDetail.java:57-61 | over any series of merges, a start time once present never changes; the first merge fixes it; once started, the end time is the latest merge's clock reading |
| JobTracker.Create | core/operation/src/main/java/uk/gov/gchq/gaffer/jobtracker/JobDetail.java:123-132 | the string-chain constructor stores exactly the given job id, parent id, user id, chain, status and description, starts at `now`, no end time |
| JobTracker.CreateThenMerge | core/operation/src/main/java/uk/gov/gchq/gaffer/jobtracker/JobDetail.java:49-63 | a created record merged later keeps its creation time and ends at the merge time |
| JobTracker.CreateFromChain | core/operation/src/main/java/uk/gov/gchq/gaffer/jobtracker/JobDetail.java:65-121 | the chain constructors fail, with the serialiser's message, exactly when serialising the chain fails; otherwise they store the JSON text and start at `now` |
| JobTracker.CreateFromChainIsCreate | core/operation/src/main/java/uk/gov/gchq/gaffer/jobtracker/JobDetail.java:103-121 | once the chain is serialised, a chain constructor builds the same record as the string constructor, whatever the `repeat` argument |
| JobTracker.Equal | core/operation/src/main/java/uk/gov/gchq/gaffer/jobtracker/JobDetail.java:207-215 | two records are equal exactly when they agree on every field except parentJobId |
| JobTracker.EqualIgnoresParent | core/operation/src/main/java/uk/gov/gchq/gaffer/jobtracker/JobDetail.java:207-215 | changing only parentJobId keeps a record equal to itself; equality is symmetric and transitive |
| JobTracker.EqualAcrossParents | core/operation/src/main/java/uk/gov/gchq/gaffer/jobtracker/JobDetail.java:207-215 | a child record and a top-level record created alike are equal although they are different values |
| JobTracker.MutableJobDetail.constructor | core/operation/src/main/java/uk/gov/gchq/gaffer/jobtracker/JobDetail.java:46-47 | the no-argument constructor leaves every field null |
| JobTracker.MutableJobDetail.Merged | core/operation/src/main/java/uk/gov/gchq/gaffer/jobtracker/JobDetail.java:49-63 | the object built by the merge constructor holds `Merge` of the two snapshots |
| JobTracker.MutableJobDetail.WithSerialisedChain | core/operation/src/main/java/uk/gov/gchq/gaffer/jobtracker/JobDetail.java:123-132 | the object built from a serialised chain holds `Create` of the arguments |
| JobTracker.MutableJobDetail.SetJobId | core/operation/src/main/java/uk/gov/gchq/gaffer/jobtracker/JobDetail.java:138-140 | only the job id changes, to the argument |
| JobTracker.MutableJobDetail.SetUserId | core/operation/src/main/java/uk/gov/gchq/gaffer/jobtracker/JobDetail.java:146-148 | only the user id changes, to the argument |
| JobTracker.MutableJobDetail.SetStatus | core/operation/src/main/java/uk/gov/gchq/gaffer/jobtracker/JobDetail.java:154-156 | only the status changes, to the argument |
| JobTracker.MutableJobDetail.SetStartTime | core/operation/src/main/java/uk/gov/gchq/gaffer/jobtracker/JobDetail.java:162-164 | only the start time changes, to the argument |
| JobTracker.MutableJobDetail.SetEndTime | core/operation/src/main/java/uk/gov/gchq/gaffer/jobtracker/JobDetail.java:170-172 | only the end time changes, to the argument |
| JobTracker.MutableJobDetail.SetParentJobId | core/operation/src/main/java/uk/gov/gchq/gaffer/jobtracker/JobDetail.java:178-180 | only the parent job id changes, to the argument |
| JobTracker.MutableJobDetail.SetOpChain | core/operation/src/main/java/uk/gov/gchq/gaffer/jobtracker/JobDetail.java:186-188 | only the serialised chain changes, to the argument |
| JobTracker.MutableJobDetail.SetDescription | core/operation/src/main/java/uk/gov/gchq/gaffer/jobtracker/JobDetail.java:194-196 | only the description changes, to the argument |
| JobTracker.MutableJobDetail.Equals | core/operation/src/main/java/uk/gov/gchq/gaffer/jobtracker/JobDetail.java:199-216 | an object equals another exactly when the other is a non-null job record whose snapshot agrees on all fields but the parent (the same object included); null and objects of other classes are unequal |
| OrderedRawDateSerialiser.Deterministic | core/serialisation/src/main/java/uk/gov/gchq/gaffer/serialisation/implementation/Ordered/OrderedRawDateSerialiser.java:29-31 | dates with the same epoch milliseconds serialise to identical bytes |
| OrderedRawDateSerialiser.InheritsConsistency | core/serialisation/src/main/java/uk/gov/gchq/gaffer/serialisation/implementation/Ordered/OrderedRawDateSerialiser.java:29-31 | the date serialiser is consistent for `Date.equals` |
| OrderedRawDateSerialiser.Deserialise | core/serialisation/src/main/java/uk/gov/gchq/gaffer/serialisation/implementation/Ordered/OrderedRawDateSerialiser.java:34-36 | decoding succeeds exactly when the long decoding does, with that long as the date's milliseconds; a failure propagates unchanged |
| OrderedRawDateSerialiser.RoundTrip | core/serialisation/src/main/java/uk/gov/gchq/gaffer/serialisation/implementation/Ordered/OrderedRawDateSerialiser.java:29-36 | if the long serialiser round-trips, deserialising a date's bytes gives back that date |
| OrderedRawDateSerialiser.InheritsRoundTrip | core/serialisation/src/main/java/uk/gov/gchq/gaffer/serialisation/implementation/Ordered/OrderedRawDateSerialiser.java:29-36 | if the long serialiser round-trips, so does the date serialiser |
| OrderedRawDateSerialiser.SerialiseInjective | core/serialisation/src/main/java/uk/gov/gchq/gaffer/serialisation/implementation/Ordered/OrderedRawDateSerialiser.java:29-36 | if the long serialiser round-trips, different dates never share bytes |
| OrderedRawDateSerialiser.OrderPreserved | core/serialisation/src/main/java/uk/gov/gchq/gaffer/serialisation/implementation/Ordered/OrderedRawDateSerialiser.java:29-31 | if the long serialiser preserves order, an earlier date's bytes sort strictly before a later date's |
| OrderedRawDateSerialiser.OrderReflected | core/serialisation/src/main/java/uk/gov/gchq/gaffer/serialisation/implementation/Ordered/OrderedRawDateSerialiser.java:29-31 | if the long serialiser preserves order, one date's bytes sort before another's exactly when it is the earlier date |
| OrderedRawDateSerialiser.DeclaredOrderingHolds | core/serialisation/src/main/java/uk/gov/gchq/gaffer/serialisation/implementation/Ordered/OrderedRawDateSerialiser.java:44-46 | the serialiser declares itself order-preserving, and the declaration is true whenever the long serialiser preserves order |
| OrderedRawDateSerialiser.DeserialiseEmpty | core/serialisation/src/main/java/uk/gov/gchq/gaffer/serialisation/implementation/Ordered/OrderedRawDateSerialiser.java:39-41 | decoding an empty value gives null, without consulting the long serialiser |
| OrderedRawDateSerialiser.CanHandle | core/serialisation/src/main/java/uk/gov/gchq/gaffer/serialisation/implementation/Ordered/OrderedRawDateSerialiser.java:49-51 | true for the `java.util.Date` class and false for every other class |
| ExecutionContext.Context.constructor | core/store/src/test/java/uk/gov/gchq/gaffer/store/operation/handler/SetVariableHandlerTest.java:37 | a new context holds the given user and no variables |
| ExecutionContext.Context.GetVariable | core/store/src/test/java/uk/gov/gchq/gaffer/store/operation/handler/SetVariableHandlerTest.java:49 | the value stored under the name, or null exactly when nothing is stored under it |
| ExecutionContext.Context.SetVariable | core/store/src/test/java/uk/gov/gchq/gaffer/store/operation/handler/SetVariableHandlerTest.java:46-50 | the variables become the old ones with the name mapped to the value, nothing else changed |
| VariableHandlers.GetVariableHandler | core/store/src/main/java/uk/gov/gchq/gaffer/store/operation/handler/GetVariableHandler.java:27-29 | the result is the context's entry for the operation's variable name, null exactly when there is none |
| VariableHandlers.GetVariableIgnoresStore | core/store/src/main/java/uk/gov/gchq/gaffer/store/operation/handler/GetVariableHandler.java:27-29 | the result is the same whatever store is passed |
| VariableHandlers.SetVariableHandler | core/store/src/test/java/uk/gov/gchq/gaffer/store/operation/handler/SetVariableHandlerTest.java:40-50 | the detail's value, not the detail, is stored under the operation's variable name; no other entry changes |
| VariableHandlers.SetThenGet | core/store/src/main/java/uk/gov/gchq/gaffer/store/operation/handler/GetVariableHandler.java:28 | after setting a name on a context, getting that name returns the value set, and every other name reads as before |
| VariableHandlers.SetOnFreshContext | core/store/src/test/java/uk/gov/gchq/gaffer/store/operation/handler/SetVariableHandlerTest.java:36-50 | on a fresh context, one set makes the name read back the detail's value and leaves the variables exactly that one entry |

## Left out

- The JSON serialisation of operation chains (`JSONSerialiser`, `OperationChainDAO`) is not part of this model. `CreateFromChain` takes its outcome as the `chainJson` parameter. A null chain, which makes the source dereference null, is not modelled.
- `System.currentTimeMillis()` is the parameter `now`.
- `hashCode` and `toString` are left out. They are built with external builder libraries; only the field set of `equals` is stated.
- The getters of `JobDetail` are left out: they are the class's public fields. `equals` is modelled twice: on values as `Equal`, and on objects as `MutableJobDetail.Equals`, which takes any `object?` and is false for null and for objects of other classes. Subclasses of `JobDetail` are not modelled.
- JobTracker.MutableJobDetail.Merged: takes non-null records only; the source throws NullPointerException when either snapshot is null (JobDetail.java:50).
- OrderedRawDateSerialiser.Serialise: takes a date value only; the source's `serialise(null)` throws NullPointerException at `getTime()` (OrderedRawDateSerialiser.java:30).
- OrderedRawDateSerialiser.CanHandle: takes a class value only; the source's `canHandle(null)` returns false (OrderedRawDateSerialiser.java:50).
- `OrderedRawLongSerialiser` is not part of this model. Its byte layout is not modelled, and its round-trip and order properties are hypotheses of the date lemmas.
- The long serialiser's `serialise` is total in the model. The date serialiser adds no failure of its own, so only `deserialise` carries `SerialisationException`.
- `SetVariableHandler` and `Context` are not part of this model as source. Their behaviour is taken from the test: the detail's value is what gets stored. Null names and null inputs are not modelled.
- GetVariableHandler: its Java return type is `VariableDetail`, but the test shows the context holds plain values. The model returns the stored value without a cast.
- The caller identity `User` is opaque. The value type of a variable is a type parameter, so `valueClass` is carried but never checked.
- The scheduler, repeat ticks, cancellation and job-status transitions are left out. So are the handler registry, dispatch and the operation-chain engine. None of them are in the modelled sources. The tracker's store is reduced to `ApplyUpdates`, a fold of merges. Concurrency and atomicity of the read-modify-write are not modelled.
- The sketch serialiser in the sketches library is left out. It only wraps an external library.
