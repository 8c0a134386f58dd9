# Window function executor of Pulsar Functions, in Dafny

This project models `WindowFunctionExecutor`, the glue between a windowed
Pulsar function and its windowing engine. The executor:

- initializes itself from the function's window configuration when the first record arrives;
- picks one of four eviction policies and one of four trigger policies from the shape of that configuration;
- routes each incoming record, in event-time mode, to the window manager's buffer or to the late-data path;
- acts as the manager's lifecycle listener: it acknowledges expired events, and for each activation it runs the user's window function and publishes any non-null result.

Modules:

- `Wrappers` (`wrappers.dfy`): `Option` (Java's `null`) and `Result` (Java's exceptions).
- `Longs` (`longs.dfy`): Java `int`/`long` ranges and the two's-complement wrap-around of `long` subtraction (`Sub`), with addition (`Add`) as its inverse.
- `WindowPolicies` (`policies.dfy`): the parsed `WindowConfig`; the closed `EvictionPolicy` and `TriggerPolicy` variants; the selection functions; the window start timestamp.
- `Windowing` (`executor.dfy`): the executor as a class whose fields record what happened: `initialized`, the configuration, the window function, the extractor, the watermark generator, the manager's policies, the output topic captured by the lifecycle listener, every event handed to the manager's `add` in `buffer` (in order; eviction inside the manager does not remove from it), every `ack()` in `acked` and every `publish` in `published`. It also holds the routing specification `Route` and lemmas about sequences of records (`RouteAll`).

The collaborators this file only calls are inputs of the model:

- The parsed configuration, the input and output topics, and the outcome of loading the user function and the timestamp extractor by reflection are fields of `Context`.
- What the extractor returns on a record, or the exception it throws, is `Arrival.extractedTs`. The watermark generator's `track` verdict is `Arrival.onTime`. `System.currentTimeMillis()` is `Arrival.now`.
- The user's window function is a pure function value that returns an optional output or throws.

`IsEventTime` models `isEventTime`. `ProcessInputWindow` models `process(Window, WindowContext)`: it applies the window function to the window's current values.

## Model

| member | source | states |
|---|---|---|
| `WindowPolicies.SelectEvictionPolicy` | pulsar-functions/instance/src/main/java/org/apache/pulsar/functions/windowing/WindowFunctionExecutor.java:189-204 | The policy is count-based iff a window length count is set, and watermark-driven iff in event-time mode. Count variants carry the count. Time variants carry the configured length duration. The watermark time variant also carries the configured max lag. |
| `WindowPolicies.SelectTriggerPolicy` | pulsar-functions/instance/src/main/java/org/apache/pulsar/functions/windowing/WindowFunctionExecutor.java:170-187 | The policy is count-based iff a sliding interval count is set, and watermark-driven iff in event-time mode. It carries the sliding count, or else the sliding duration. |
| `WindowPolicies.TriggerDependsOnlyOnSlidingInterval` | pulsar-functions/instance/src/main/java/org/apache/pulsar/functions/windowing/WindowFunctionExecutor.java:170-187 | Two configurations with the same sliding interval settings get the same trigger in the same mode. Nothing else in the configuration matters. |
| `WindowPolicies.EvictionDependsOnlyOnWindowLength` | pulsar-functions/instance/src/main/java/org/apache/pulsar/functions/windowing/WindowFunctionExecutor.java:189-204 | Two configurations with the same window length settings and lag get the same eviction policy in the same mode. |
| `WindowPolicies.PoliciesShareTimeDomain` | pulsar-functions/instance/src/main/java/org/apache/pulsar/functions/windowing/WindowFunctionExecutor.java:170-204 | The selected eviction and trigger policies are both watermark-driven or both not. |
| `WindowPolicies.WindowStartTs` | pulsar-functions/instance/src/main/java/org/apache/pulsar/functions/windowing/WindowFunctionExecutor.java:244-250 | The start is present iff both the end and a window length duration are. Start plus length equals end in `long` arithmetic. Without overflow, the start is exactly end minus length. |
| `Longs.Sub` | pulsar-functions/instance/src/main/java/org/apache/pulsar/functions/windowing/WindowFunctionExecutor.java:247 | Java `long` subtraction. It equals the mathematical difference whenever that fits in a `long`. |
| `Longs.SubThenAdd` | pulsar-functions/instance/src/main/java/org/apache/pulsar/functions/windowing/WindowFunctionExecutor.java:247 | Adding back what was subtracted restores the end timestamp, even when the subtraction wraps around. |
| `Windowing.ActivationWindow` | pulsar-functions/instance/src/main/java/org/apache/pulsar/functions/windowing/WindowFunctionExecutor.java:234 | The activation window holds the three value lists. It ends at the reference time itself. When a length duration is configured, it starts exactly that long before. |
| `Windowing.WindowFunctionExecutor.IsEventTime` | pulsar-functions/instance/src/main/java/org/apache/pulsar/functions/windowing/WindowFunctionExecutor.java:271-273 | On a consistent executor, event-time mode holds iff a watermark generator exists. Once initialized, it holds iff an extractor class is configured, and a configured late-data topic implies it. |
| `Windowing.InitializationFailure` | pulsar-functions/instance/src/main/java/org/apache/pulsar/functions/windowing/WindowFunctionExecutor.java:63-121 | Initialization succeeds iff all of these hold: the window configuration is present; the user function loads; an extractor loads whenever an extractor class is configured; no late-data topic is configured without an extractor class. A late-data topic without an extractor class is exactly the late-data error. |
| `Windowing.WindowFunctionExecutor.Initialize` | pulsar-functions/instance/src/main/java/org/apache/pulsar/functions/windowing/WindowFunctionExecutor.java:63-130 | Returns `InitializationFailure` and is initialized iff that is none. The configuration and function are assigned even if a later step fails. On success, all of these hold: the listener's output topic is the context's; event-time mode holds iff an extractor class is configured; a watermark generator exists only in that mode, built with the configured interval, lag and input topics; the manager has the two selected policies and an empty buffer. The late-data check fails before any policy is built. |
| `Windowing.Route` | pulsar-functions/instance/src/main/java/org/apache/pulsar/functions/windowing/WindowFunctionExecutor.java:281-300 | An extraction exception propagates. Each handled record lands in exactly one place. An on-time event-time record is buffered with its extracted timestamp and record, and is not acked or published. A processing-time record is buffered with the supplied time. A late record is never buffered and is acked once. It is published exactly once, as a late input on the late-data topic, when that topic is configured. Otherwise nothing is published. |
| `Windowing.WindowFunctionExecutor.Process` | pulsar-functions/instance/src/main/java/org/apache/pulsar/functions/windowing/WindowFunctionExecutor.java:275-301 | Initializes only when not yet initialized, and it initializes from the given context. On the first call, the configuration and window function are the context's when present and loadable; otherwise they keep their old values. On success the output topic is the context's. When that call succeeds, event-time mode holds iff the context configures an extractor class, and then the extractor and the watermark generator come from the context. A failed initialization throws and leaves the buffer, acks and publications unchanged. A later call changes none of the configuration state, the output topic included. After that, buffer, acks and publications grow exactly by `Route`'s effects, or stay unchanged when extraction throws. It returns null whenever it does not throw. |
| `Windowing.RouteAccountsForRecord` | pulsar-functions/instance/src/main/java/org/apache/pulsar/functions/windowing/WindowFunctionExecutor.java:283-299 | A handled record appears exactly once among the buffered and the acked records. |
| `Windowing.RouteAllAccountsForEveryRecord` | pulsar-functions/instance/src/main/java/org/apache/pulsar/functions/windowing/WindowFunctionExecutor.java:283-299 | Over any sequence of arrivals, the buffered records plus the acked records are, as a multiset, exactly the records handled without an exception. None is lost or duplicated. |
| `Windowing.RouteAllForwardsOnlyLateRecords` | pulsar-functions/instance/src/main/java/org/apache/pulsar/functions/windowing/WindowFunctionExecutor.java:287-296 | Over any sequence of arrivals, the number of publications equals the number of acked (late) records when a late-data topic is configured, and is zero otherwise. Every publication is a late input sent to the late-data topic. |
| `Windowing.RouteAllProcessingTimeBuffersAll` | pulsar-functions/instance/src/main/java/org/apache/pulsar/functions/windowing/WindowFunctionExecutor.java:297-298 | In processing-time mode every record is buffered, in arrival order, as an event with its input, the supplied time and its record. Nothing is acked or published. |
| `Windowing.Records` | pulsar-functions/instance/src/main/java/org/apache/pulsar/functions/windowing/WindowFunctionExecutor.java:210-212 | The records of the events, with the same length and order. |
| `Windowing.WindowFunctionExecutor.OnExpiry` | pulsar-functions/instance/src/main/java/org/apache/pulsar/functions/windowing/WindowFunctionExecutor.java:209-213 | Appends the record of every expired event to the acks, once each and in list order. Nothing else changes. |
| `Windowing.Values` | pulsar-functions/instance/src/main/java/org/apache/pulsar/functions/windowing/WindowFunctionExecutor.java:216-223 | The values of the events, with the same length and order. |
| `Windowing.WindowFunctionExecutor.ProcessInputWindowSeesOnlyCurrentValues` | pulsar-functions/instance/src/main/java/org/apache/pulsar/functions/windowing/WindowFunctionExecutor.java:303-305 | The default `process(Window, WindowContext)` applies the window function to the current values only. Two windows with the same current values get the same result, whatever their new and expired values and time bounds. |
| `Windowing.OutputPublications` | pulsar-functions/instance/src/main/java/org/apache/pulsar/functions/windowing/WindowFunctionExecutor.java:239-241 | At most one publication, present iff the user function returned a non-null value. It is that value on the output topic. |
| `Windowing.WindowFunctionExecutor.ProcessWindow` | pulsar-functions/instance/src/main/java/org/apache/pulsar/functions/windowing/WindowFunctionExecutor.java:228-242 | Runs the user function on the activation window. Its exception is rethrown and nothing is published. Otherwise exactly `OutputPublications` of its result, on the output topic stored at initialization, is published. Only `published` changes. |
| `Windowing.WindowFunctionExecutor.OnActivation` | pulsar-functions/instance/src/main/java/org/apache/pulsar/functions/windowing/WindowFunctionExecutor.java:215-224 | Processes the window formed by the value projections of the current, new and expired events. The projections keep length and order. Only `published` changes. |

## Left out

- Reflection on the user function and the timestamp extractor (lines 72-89, 132-168), including the type-argument checks. These are runtime class-loading calls, so the model receives only their outcome: a loaded value or an error message.
- Reading the configuration from the user config, the JSON round trip and `WindowUtils.inferDefaultConfigs` (lines 91-103). These are library code and code that is not part of this model. The model takes the parsed configuration, or its absence.
- Defaults are not applied: `WindowFunctionExecutor.java` declares `DEFAULT_MAX_LAG_MS` and `DEFAULT_WATERMARK_EVENT_INTERVAL_MS` (lines 58-59) but never uses them. Where a duration or lag is unset, the policies carry the unset value exactly as the configuration holds it. The policy constructors are not part of this model, so whether they accept an unset value is not modelled.
- A configuration that sets neither a window length nor a sliding interval is not rejected here. That check is done outside `WindowFunctionExecutor.java`.
- The internals of `WindowManager`, `WaterMarkEventGenerator` and the eviction and trigger policies: buffering order beyond appending, eviction, trigger firing and watermark computation. These are not part of this model. `track` is the input `Arrival.onTime`, and `add` appends to `buffer`.
- `start()` and `shutdown()` (lines 252-269) are background timers and threads, so they are concurrency and are not modelled.
- Evaluations that `add` itself triggers are not modelled. With the processing-time count trigger (`CountTriggerPolicy`), the trigger runs synchronously inside `windowManager.add` at line 298. The event-time `add` at line 286 never runs it, because event-time mode never selects `CountTriggerPolicy`. So one `process` call can also run `onExpiry` and `onActivation`: it can ack expired records and publish a window output. The model's `Process` leaves this out, because `add` is an append to `buffer` (see the window-manager line above). Its acks and publications are only those of the late-data path. An embedding host calls `OnExpiry` and `OnActivation` separately for such an evaluation.
- Interleaving with the time trigger and the two watermark triggers is not modelled. There, `onExpiry` and `onActivation` run on the trigger's timer thread or the watermark generator's thread, concurrently with `process`. The model runs `OnExpiry`, `OnActivation` and `Process` one at a time, each as an atomic step. So it does not capture a late ack from `process` landing between the acks of one `onExpiry`.
- State inside the user's window function is not modelled. The function is a pure function value of the current values. In the source, a stateful `java.util.function.Function` can return different outputs for equal value lists on different activations. `ProcessInputWindowSeesOnlyCurrentValues` holds only under this purity.
- Logging of the configuration and of dropped late records (lines 66, 291-293) is left out, and so are the `WindowContextImpl` wrapper and the output schema type passed to `publish`. Publishing is modelled as appending to `published`.
- `Windowing.WindowFunctionExecutor.Process`: the record's topic name, which is the partition passed to `track`, is not modelled. An absent topic name, which would throw when read, is therefore not modelled either.
