/** The executor that runs a user's window function inside a windowed
    Pulsar function: it initializes itself from the function's configuration
    on the first record, routes each record to the window manager's buffer or
    to the late-data path, and serves as the manager's lifecycle listener
    (acknowledging expired events, aggregating and publishing activations). */
module Windowing {
  import opened Wrappers
  import opened Longs
  import opened WindowPolicies

  /** The acknowledgement handle of one input record. */
  type RecordId = nat

  /** One buffered element: its value, its timestamp and its record. */
  datatype Event<I> = Event(value: I, timestamp: Int64, record: RecordId)

  /** The view of one activation handed to the user's window function. */
  datatype Window<I> = Window(
    tuples: seq<I>,
    newTuples: seq<I>,
    expiredTuples: seq<I>,
    startTimestamp: Option<Int64>,
    endTimestamp: Option<Int64>)

  /** What the user's window function does on one window: return a value
      (`None` is Java's `null`) or throw. */
  datatype UserResult<O> = Returned(output: Option<O>) | Threw(reason: string)

  /** A message the executor publishes: a late input forwarded to the
      late-data topic, or the output of a window. */
  datatype Message<I, O> = LateInput(input: I) | WindowOutput(output: O)
  datatype Publication<I, O> = Publication(topic: Topic, message: Message<I, O>)

  /** The loaded timestamp extractor, identified by its class. */
  datatype TimestampExtractor = TimestampExtractor(className: string)

  /** The watermark generator's construction parameters. */
  datatype WaterMarkEventGenerator = WaterMarkEventGenerator(
    watermarkEmitIntervalMs: Option<Int64>,
    maxLagMs: Option<Int64>,
    inputTopics: set<Topic>)

  /** The window manager's policies; its event queue is the executor's
      `buffer`. */
  datatype WindowManager = WindowManager(evictionPolicy: EvictionPolicy, triggerPolicy: TriggerPolicy)

  /** What the host context supplies to initialization: the window
      configuration found in the user config (if any), the outcome of
      loading the user's window function and the timestamp extractor by
      reflection (a failure carries the exception's message), the input
      topics and the output topic. */
  datatype Context<-I, O> = Context(
    windowConfig: Option<WindowConfig>,
    windowFunction: Result<seq<I> -> UserResult<O>, string>,
    timestampExtractor: Result<TimestampExtractor, string>,
    inputTopics: set<Topic>,
    outputTopic: Topic)

  datatype InitError =
    | WindowConfigsNotFound
    | WindowFunctionRejected(reason: string)
    | TimestampExtractorRejected(reason: string)
    | LateDataTopicWithoutExtractor

  datatype ProcessError = InitFailed(cause: InitError) | ExtractionFailed(reason: string)

  /** One call of `process(input, context)`: the input, its record, what the
      timestamp extractor yields on it (it may throw), the watermark
      generator's on-time verdict for it, and the wall-clock time. */
  datatype Arrival<I> = Arrival(
    input: I,
    record: RecordId,
    extractedTs: Result<Int64, string>,
    onTime: bool,
    now: Int64)

  /** What handling records adds to the buffer, to the acknowledged records
      and to the published messages. */
  datatype Effects<I, O> = Effects(added: seq<Event<I>>, acked: seq<RecordId>, published: seq<Publication<I, O>>)
  {
    function Then(next: Effects<I, O>): Effects<I, O>
    {
      Effects(added + next.added, acked + next.acked, published + next.published)
    }
  }

  /** The values of a list of events, in order. */
  function Values<I>(events: seq<Event<I>>): (vs: seq<I>)
    ensures |vs| == |events|
    ensures forall i :: 0 <= i < |events| ==> vs[i] == events[i].value
  {
    if events == [] then [] else [events[0].value] + Values(events[1..])
  }

  /** The records of a list of events, in order. */
  function Records<I>(events: seq<Event<I>>): (rs: seq<RecordId>)
    ensures |rs| == |events|
    ensures forall i :: 0 <= i < |events| ==> rs[i] == events[i].record
  {
    if events == [] then [] else [events[0].record] + Records(events[1..])
  }

  lemma RecordsAppend<I>(xs: seq<Event<I>>, ys: seq<Event<I>>)
    ensures Records(xs + ys) == Records(xs) + Records(ys)
  {
    assert forall i :: 0 <= i < |xs + ys| ==> Records(xs + ys)[i] == (Records(xs) + Records(ys))[i];
  }

  /** The error initialization raises for a context, if any: the window
      configuration must be present and the user function loadable; with an
      extractor class configured the extractor must load, and without one no
      late-data topic may be configured. */
  function InitializationFailure<I, O>(ctx: Context<I, O>): (e: Option<InitError>)
    ensures e.None? <==>
      && ctx.windowConfig.Some?
      && ctx.windowFunction.Success?
      && (ctx.windowConfig.value.timestampExtractorClassName.Some? ==> ctx.timestampExtractor.Success?)
      && (ctx.windowConfig.value.timestampExtractorClassName.None? ==> ctx.windowConfig.value.lateDataTopic.None?)
    ensures e == Some(LateDataTopicWithoutExtractor) <==>
      && ctx.windowConfig.Some?
      && ctx.windowFunction.Success?
      && ctx.windowConfig.value.timestampExtractorClassName.None?
      && ctx.windowConfig.value.lateDataTopic.Some?
  {
    if ctx.windowConfig.None? then Some(WindowConfigsNotFound)
    else if ctx.windowFunction.Failure? then Some(WindowFunctionRejected(ctx.windowFunction.error))
    else if ctx.windowConfig.value.timestampExtractorClassName.Some? then
      if ctx.timestampExtractor.Failure? then Some(TimestampExtractorRejected(ctx.timestampExtractor.error))
      else None
    else if ctx.windowConfig.value.lateDataTopic.Some? then Some(LateDataTopicWithoutExtractor)
    else None
  }

  /** What `process(input, context)` does with one arrival once the executor
      is initialized. Each handled record lands in exactly one place: an
      on-time (or processing-time) record is buffered with its timestamp and
      is neither acknowledged nor published; a late record is acknowledged
      once, never buffered, and forwarded once exactly when a late-data topic
      is configured. Extraction failures propagate. */
  function Route<I, O>(eventTime: bool, lateDataTopic: Option<Topic>, a: Arrival<I>): (r: Result<Effects<I, O>, string>)
    ensures r.Failure? <==> eventTime && a.extractedTs.Failure?
    ensures r.Success? ==> |r.value.added| + |r.value.acked| == 1
    ensures r.Success? && (!eventTime || a.onTime) ==>
      && r.value.added == [Event(a.input, if eventTime then a.extractedTs.value else a.now, a.record)]
      && r.value.acked == []
      && r.value.published == []
    ensures r.Success? && eventTime && !a.onTime ==>
      && r.value.added == []
      && r.value.acked == [a.record]
      && r.value.published == (if lateDataTopic.Some? then [Publication(lateDataTopic.value, LateInput(a.input))] else [])
  {
    if eventTime then
      match a.extractedTs
      case Failure(reason) => Failure(reason)
      case Success(ts) =>
        if a.onTime then Success(Effects([Event(a.input, ts, a.record)], [], []))
        else
          var forwarded := if lateDataTopic.Some? then [Publication(lateDataTopic.value, LateInput(a.input))] else [];
          Success(Effects([], [a.record], forwarded))
    else
      Success(Effects([Event(a.input, a.now, a.record)], [], []))
  }

  /** The combined effect of a sequence of arrivals on an initialized
      executor; an arrival whose extraction throws changes nothing. */
  function RouteAll<I, O>(eventTime: bool, lateDataTopic: Option<Topic>, arrivals: seq<Arrival<I>>): Effects<I, O>
    decreases |arrivals|
  {
    if arrivals == [] then Effects([], [], [])
    else
      var before: Effects<I, O> := RouteAll(eventTime, lateDataTopic, arrivals[..|arrivals| - 1]);
      match Route(eventTime, lateDataTopic, arrivals[|arrivals| - 1])
      case Success(e) => before.Then(e)
      case Failure(_) => before
  }

  /** The records of the arrivals that are handled without an exception. */
  function HandledRecords<I>(eventTime: bool, arrivals: seq<Arrival<I>>): seq<RecordId>
    decreases |arrivals|
  {
    if arrivals == [] then []
    else
      var last := arrivals[|arrivals| - 1];
      HandledRecords(eventTime, arrivals[..|arrivals| - 1])
        + (if !eventTime || last.extractedTs.Success? then [last.record] else [])
  }

  /** One handled arrival accounts for its own record exactly once. */
  lemma RouteAccountsForRecord<I, O>(eventTime: bool, lateDataTopic: Option<Topic>, a: Arrival<I>)
    requires Route<I, O>(eventTime, lateDataTopic, a).Success?
    ensures var e := Route<I, O>(eventTime, lateDataTopic, a).value;
      multiset(Records(e.added)) + multiset(e.acked) == multiset{a.record}
  {
  }

  /** Unfolding `RouteAll` and `HandledRecords` at the last arrival. */
  lemma RouteAllLast<I, O>(eventTime: bool, lateDataTopic: Option<Topic>, arrivals: seq<Arrival<I>>)
    requires arrivals != []
    ensures var prefix := arrivals[..|arrivals| - 1];
      var last := arrivals[|arrivals| - 1];
      var before: Effects<I, O> := RouteAll(eventTime, lateDataTopic, prefix);
      && (Route<I, O>(eventTime, lateDataTopic, last).Success? ==>
            && RouteAll<I, O>(eventTime, lateDataTopic, arrivals) == before.Then(Route<I, O>(eventTime, lateDataTopic, last).value)
            && HandledRecords(eventTime, arrivals) == HandledRecords(eventTime, prefix) + [last.record])
      && (Route<I, O>(eventTime, lateDataTopic, last).Failure? ==>
            && RouteAll<I, O>(eventTime, lateDataTopic, arrivals) == before
            && HandledRecords(eventTime, arrivals) == HandledRecords(eventTime, prefix))
  {
  }

  /** Over any sequence of arrivals, no record is lost or counted twice:
      the buffered and the acknowledged records together are exactly the
      records of the arrivals handled without an exception. */
  lemma {:induction false} RouteAllAccountsForEveryRecord<I, O>(eventTime: bool, lateDataTopic: Option<Topic>, arrivals: seq<Arrival<I>>)
    ensures var e: Effects<I, O> := RouteAll(eventTime, lateDataTopic, arrivals);
      multiset(Records(e.added)) + multiset(e.acked) == multiset(HandledRecords(eventTime, arrivals))
    decreases |arrivals|
  {
    if arrivals != [] {
      var prefix := arrivals[..|arrivals| - 1];
      var last := arrivals[|arrivals| - 1];
      RouteAllAccountsForEveryRecord<I, O>(eventTime, lateDataTopic, prefix);
      RouteAllLast<I, O>(eventTime, lateDataTopic, arrivals);
      var before: Effects<I, O> := RouteAll(eventTime, lateDataTopic, prefix);
      var r := Route<I, O>(eventTime, lateDataTopic, last);
      if r.Success? {
        RecordsAppend(before.added, r.value.added);
        RouteAccountsForRecord<I, O>(eventTime, lateDataTopic, last);
      }
    }
  }

  /** Over any sequence of arrivals, one message is forwarded per
      acknowledged (late) record when a late-data topic is configured and
      none otherwise, and every forwarded message is a late input sent to
      that topic. */
  lemma {:induction false} RouteAllForwardsOnlyLateRecords<I, O>(eventTime: bool, lateDataTopic: Option<Topic>, arrivals: seq<Arrival<I>>)
    ensures var e: Effects<I, O> := RouteAll(eventTime, lateDataTopic, arrivals);
      && |e.published| == (if lateDataTopic.Some? then |e.acked| else 0)
      && (forall p :: p in e.published ==> lateDataTopic == Some(p.topic) && p.message.LateInput?)
    decreases |arrivals|
  {
    if arrivals != [] {
      RouteAllForwardsOnlyLateRecords<I, O>(eventTime, lateDataTopic, arrivals[..|arrivals| - 1]);
      RouteAllLast<I, O>(eventTime, lateDataTopic, arrivals);
    }
  }

  /** In processing-time mode every record is buffered with the supplied
      wall-clock time, in arrival order, and none is acknowledged or
      forwarded. */
  lemma {:induction false} RouteAllProcessingTimeBuffersAll<I, O>(lateDataTopic: Option<Topic>, arrivals: seq<Arrival<I>>)
    ensures var e: Effects<I, O> := RouteAll(false, lateDataTopic, arrivals);
      && Records(e.added) == HandledRecords(false, arrivals)
      && |e.added| == |arrivals|
      && (forall i :: 0 <= i < |arrivals| ==>
            e.added[i] == Event(arrivals[i].input, arrivals[i].now, arrivals[i].record))
      && e.acked == [] && e.published == []
    decreases |arrivals|
  {
    if arrivals != [] {
      var prefix := arrivals[..|arrivals| - 1];
      RouteAllProcessingTimeBuffersAll<I, O>(lateDataTopic, prefix);
      RouteAllLast<I, O>(false, lateDataTopic, arrivals);
      var before: Effects<I, O> := RouteAll(false, lateDataTopic, prefix);
      RecordsAppend(before.added, Route<I, O>(false, lateDataTopic, arrivals[|arrivals| - 1]).value.added);
    }
  }

  /** The window view of one activation: it ends at the reference time and,
      when a window length duration is configured, starts exactly that long
      before it. */
  function ActivationWindow<I>(
    tuples: seq<I>, newTuples: seq<I>, expiredTuples: seq<I>,
    referenceTime: Option<Int64>, windowLengthDurationMs: Option<Int64>): (w: Window<I>)
    ensures w.tuples == tuples && w.newTuples == newTuples && w.expiredTuples == expiredTuples
    ensures w.endTimestamp == referenceTime
    ensures w.startTimestamp.Some? <==> referenceTime.Some? && windowLengthDurationMs.Some?
    ensures w.startTimestamp.Some? ==> Add(w.startTimestamp.value, windowLengthDurationMs.value) == referenceTime.value
  {
    Window(tuples, newTuples, expiredTuples, WindowStartTs(referenceTime, windowLengthDurationMs), referenceTime)
  }

  /** What an activation publishes: the window function's result on the
      output topic when it returned a non-null value, and nothing otherwise. */
  function OutputPublications<I, O>(result: UserResult<O>, outputTopic: Topic): (ps: seq<Publication<I, O>>)
    ensures |ps| <= 1
    ensures ps != [] <==> result.Returned? && result.output.Some?
    ensures ps != [] ==> ps[0] == Publication(outputTopic, WindowOutput(result.output.value))
  {
    if result.Returned? && result.output.Some? then [Publication(outputTopic, WindowOutput(result.output.value))]
    else []
  }

  class WindowFunctionExecutor<I, O> {
    var initialized: bool
    var windowConfig: Option<WindowConfig>
    var windowFunction: Option<seq<I> -> UserResult<O>>
    var timestampExtractor: Option<TimestampExtractor>
    var waterMarkEventGenerator: Option<WaterMarkEventGenerator>
    var windowManager: Option<WindowManager>
    /** The output topic of the context the lifecycle listener captured. */
    var outputTopic: Option<Topic>
    /** Every event handed to `windowManager.add`, in order (eviction is
        done inside the window manager and is not reflected here). */
    var buffer: seq<Event<I>>
    /** Every `ack()` on a record, in order. */
    var acked: seq<RecordId>
    /** Every `context.publish(...)`, in order. */
    var published: seq<Publication<I, O>>

    /** `isEventTime`: a timestamp extractor has been loaded. On a
        consistent executor this is the case exactly when a watermark generator
        exists and, once initialized, exactly when an extractor class is
        configured; a late-data topic is then only configured in this mode. */
    function IsEventTime(): (eventTime: bool)
      reads this
      ensures Valid() ==> (eventTime <==> waterMarkEventGenerator.Some?)
      ensures Valid() && initialized ==>
        && (eventTime <==> windowConfig.value.timestampExtractorClassName.Some?)
        && (windowConfig.value.lateDataTopic.Some? ==> eventTime)
    {
      timestampExtractor.Some?
    }

    /** Before initialization nothing is built and nothing is buffered; after
        it, the configuration and window function are set, event-time mode
        holds exactly when an extractor class is configured, a watermark
        generator exists exactly in that mode, the manager's policies are the
        ones selected by the configuration and mode, and a late-data topic is
        only ever configured in event-time mode. */
    ghost predicate Valid()
      reads this
    {
      && (!initialized ==>
            windowManager.None? && timestampExtractor.None? && waterMarkEventGenerator.None?
            && outputTopic.None? && buffer == [])
      && (initialized ==>
            && windowConfig.Some?
            && windowFunction.Some?
            && outputTopic.Some?
            && var cfg := windowConfig.value;
            && (timestampExtractor.Some? <==> cfg.timestampExtractorClassName.Some?)
            && (waterMarkEventGenerator.Some? <==> timestampExtractor.Some?)
            && (waterMarkEventGenerator.Some? ==>
                  && waterMarkEventGenerator.value.watermarkEmitIntervalMs == cfg.watermarkEmitIntervalMs
                  && waterMarkEventGenerator.value.maxLagMs == cfg.maxLagMs)
            && windowManager == Some(WindowManager(SelectEvictionPolicy(cfg, timestampExtractor.Some?),
                                                   SelectTriggerPolicy(cfg, timestampExtractor.Some?)))
            && (cfg.lateDataTopic.Some? ==> timestampExtractor.Some?))
    }

    constructor ()
      ensures Valid() && !initialized
      ensures windowConfig.None? && windowFunction.None?
      ensures buffer == [] && acked == [] && published == []
    {
      initialized := false;
      windowConfig := None;
      windowFunction := None;
      timestampExtractor := None;
      waterMarkEventGenerator := None;
      windowManager := None;
      outputTopic := None;
      buffer := [];
      acked := [];
      published := [];
    }

    /** `initialize(context)`: read the configuration, load the window
        function, then build the window manager, loading the extractor and
        creating the watermark generator in event-time mode and rejecting a
        late-data topic otherwise, before any policy is built. A step that
        fails leaves the steps before it done and the executor
        uninitialized. */
    method Initialize(ctx: Context<I, O>) returns (failure: Option<InitError>)
      requires Valid() && !initialized
      modifies this
      ensures Valid()
      ensures failure == InitializationFailure(ctx)
      ensures initialized <==> failure.None?
      ensures buffer == [] && acked == old(acked) && published == old(published)
      ensures windowConfig == if ctx.windowConfig.Some? then ctx.windowConfig else old(windowConfig)
      ensures windowFunction ==
        if ctx.windowConfig.Some? && ctx.windowFunction.Success? then Some(ctx.windowFunction.value)
        else old(windowFunction)
      ensures initialized ==> outputTopic == Some(ctx.outputTopic)
      ensures initialized && IsEventTime() ==>
        && timestampExtractor == Some(ctx.timestampExtractor.value)
        && waterMarkEventGenerator == Some(WaterMarkEventGenerator(ctx.windowConfig.value.watermarkEmitIntervalMs,
                                                                   ctx.windowConfig.value.maxLagMs, ctx.inputTopics))
    {
      if ctx.windowConfig.None? {
        return Some(WindowConfigsNotFound);
      }
      windowConfig := ctx.windowConfig;
      if ctx.windowFunction.Failure? {
        return Some(WindowFunctionRejected(ctx.windowFunction.error));
      }
      windowFunction := Some(ctx.windowFunction.value);

      var cfg := ctx.windowConfig.value;
      if cfg.timestampExtractorClassName.Some? {
        if ctx.timestampExtractor.Failure? {
          return Some(TimestampExtractorRejected(ctx.timestampExtractor.error));
        }
        timestampExtractor := Some(ctx.timestampExtractor.value);
        waterMarkEventGenerator :=
          Some(WaterMarkEventGenerator(cfg.watermarkEmitIntervalMs, cfg.maxLagMs, ctx.inputTopics));
      } else if cfg.lateDataTopic.Some? {
        return Some(LateDataTopicWithoutExtractor);
      }
      var evictionPolicy := SelectEvictionPolicy(cfg, IsEventTime());
      var triggerPolicy := SelectTriggerPolicy(cfg, IsEventTime());
      windowManager := Some(WindowManager(evictionPolicy, triggerPolicy));
      outputTopic := Some(ctx.outputTopic);
      buffer := [];
      initialized := true;
      failure := None;
    }

    /** `process(input, context)`: initialize on the first call only, then
        route the record as `Route` says. It returns null whenever it does
        not throw. */
    method Process(ctx: Context<I, O>, a: Arrival<I>) returns (r: Result<Option<O>, ProcessError>)
      requires Valid()
      modifies this
      ensures Valid()
      ensures r.Success? ==> r.value.None?
      ensures old(initialized) ==>
        && windowConfig == old(windowConfig) && windowFunction == old(windowFunction)
        && timestampExtractor == old(timestampExtractor)
        && waterMarkEventGenerator == old(waterMarkEventGenerator)
        && windowManager == old(windowManager)
        && outputTopic == old(outputTopic)
      ensures !old(initialized) ==> (initialized <==> InitializationFailure(ctx).None?)
      ensures !old(initialized) ==>
        windowConfig == if ctx.windowConfig.Some? then ctx.windowConfig else old(windowConfig)
      ensures !old(initialized) ==>
        windowFunction ==
          if ctx.windowConfig.Some? && ctx.windowFunction.Success? then Some(ctx.windowFunction.value)
          else old(windowFunction)
      ensures !old(initialized) && initialized ==> outputTopic == Some(ctx.outputTopic)
      ensures !old(initialized) && initialized ==>
        && (IsEventTime() <==> ctx.windowConfig.value.timestampExtractorClassName.Some?)
        && (IsEventTime() ==>
              && timestampExtractor == Some(ctx.timestampExtractor.value)
              && waterMarkEventGenerator == Some(WaterMarkEventGenerator(ctx.windowConfig.value.watermarkEmitIntervalMs,
                                                                         ctx.windowConfig.value.maxLagMs, ctx.inputTopics)))
      ensures !old(initialized) && InitializationFailure(ctx).Some? ==>
        && r == Failure(InitFailed(InitializationFailure(ctx).value))
        && !initialized
        && buffer == old(buffer) && acked == old(acked) && published == old(published)
      ensures old(initialized) || InitializationFailure(ctx).None? ==>
        && initialized
        && match Route<I, O>(IsEventTime(), windowConfig.value.lateDataTopic, a)
           case Success(e) =>
             && r == Success(None)
             && buffer == old(buffer) + e.added
             && acked == old(acked) + e.acked
             && published == old(published) + e.published
           case Failure(reason) =>
             && r == Failure(ExtractionFailed(reason))
             && buffer == old(buffer) && acked == old(acked) && published == old(published)
    {
      if !initialized {
        var failure := Initialize(ctx);
        if failure.Some? {
          return Failure(InitFailed(failure.value));
        }
      }
      if IsEventTime() {
        if a.extractedTs.Failure? {
          return Failure(ExtractionFailed(a.extractedTs.error));
        }
        var ts := a.extractedTs.value;
        if a.onTime {
          buffer := buffer + [Event(a.input, ts, a.record)];
        } else {
          var lateDataTopic := windowConfig.value.lateDataTopic;
          if lateDataTopic.Some? {
            published := published + [Publication(lateDataTopic.value, LateInput(a.input))];
          }
          acked := acked + [a.record];
        }
      } else {
        buffer := buffer + [Event(a.input, a.now, a.record)];
      }
      r := Success(None);
    }

    /** The listener's `onExpiry`: acknowledge the record of every expired
        event, once each, in list order, and change nothing else. */
    method OnExpiry(events: seq<Event<I>>)
      modifies this`acked
      ensures acked == old(acked) + Records(events)
    {
      for i := 0 to |events|
        invariant acked == old(acked) + Records(events[..i])
      {
        assert events[..i + 1] == events[..i] + [events[i]];
        RecordsAppend(events[..i], [events[i]]);
        acked := acked + [events[i].record];
      }
      assert events[..|events|] == events;
    }

    /** `process(window, windowContext)`: apply the user's window function to
        the window's current values. */
    function ProcessInputWindow(w: Window<I>): UserResult<O>
      reads this
      requires windowFunction.Some?
    {
      windowFunction.value(w.tuples)
    }

    /** The default `process(window, windowContext)` sees only the window's
        current values: windows that agree on them get the same result,
        whatever their new and expired values and their time bounds. */
    lemma ProcessInputWindowSeesOnlyCurrentValues(w1: Window<I>, w2: Window<I>)
      requires windowFunction.Some?
      requires w1.tuples == w2.tuples
      ensures ProcessInputWindow(w1) == ProcessInputWindow(w2)
    {
    }

    /** `processWindow`: build the activation's window, run the user function
        on it, rethrow its exception without publishing, and publish its
        result on the captured context's output topic only when it is
        non-null. */
    method ProcessWindow(
      tuples: seq<I>, newTuples: seq<I>, expiredTuples: seq<I>,
      referenceTime: Option<Int64>) returns (failure: Option<string>)
      requires Valid() && initialized
      modifies this`published
      ensures Valid()
      ensures var result := ProcessInputWindow(ActivationWindow(tuples, newTuples, expiredTuples,
                                                                referenceTime, windowConfig.value.windowLengthDurationMs));
        && failure == (if result.Threw? then Some(result.reason) else None)
        && published == old(published) + OutputPublications(result, outputTopic.value)
    {
      var window := ActivationWindow(tuples, newTuples, expiredTuples,
                                     referenceTime, windowConfig.value.windowLengthDurationMs);
      var result := ProcessInputWindow(window);
      if result.Threw? {
        return Some(result.reason);
      }
      if result.output.Some? {
        published := published + [Publication(outputTopic.value, WindowOutput(result.output.value))];
      }
      failure := None;
    }

    /** The listener's `onActivation`: project the current, new and expired
        events to their values (same lengths, same order) and process the
        window they form. */
    method OnActivation(
      tuples: seq<Event<I>>, newTuples: seq<Event<I>>, expiredTuples: seq<Event<I>>,
      referenceTime: Option<Int64>) returns (failure: Option<string>)
      requires Valid() && initialized
      modifies this`published
      ensures Valid()
      ensures var result := ProcessInputWindow(ActivationWindow(Values(tuples), Values(newTuples), Values(expiredTuples),
                                                                referenceTime, windowConfig.value.windowLengthDurationMs));
        && failure == (if result.Threw? then Some(result.reason) else None)
        && published == old(published) + OutputPublications(result, outputTopic.value)
    {
      failure := ProcessWindow(Values(tuples), Values(newTuples), Values(expiredTuples), referenceTime);
    }
  }
}
