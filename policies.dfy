/** The window configuration of a windowed function, the four eviction and
    four trigger policy variants, and the configuration-driven choice among
    them made by `WindowFunctionExecutor`. */
module WindowPolicies {
  import opened Wrappers
  import opened Longs

  type Topic = string

  /** An already-parsed window configuration. Every field may be unset, as
      the boxed `Integer`/`Long`/`String` fields of the source may be null. */
  datatype WindowConfig = WindowConfig(
    windowLengthCount: Option<Int32>,
    windowLengthDurationMs: Option<Int64>,
    slidingIntervalCount: Option<Int32>,
    slidingIntervalDurationMs: Option<Int64>,
    lateDataTopic: Option<Topic>,
    maxLagMs: Option<Int64>,
    watermarkEmitIntervalMs: Option<Int64>,
    timestampExtractorClassName: Option<string>)

  /** Which buffered events expire. The parameters are the configuration
      values handed to the policy's constructor. */
  datatype EvictionPolicy =
    | CountEviction(windowLengthCount: Int32)
    | TimeEviction(windowLengthMs: Option<Int64>)
    | WatermarkCountEviction(windowLengthCount: Int32)
    | WatermarkTimeEviction(windowLengthMs: Option<Int64>, maxLagMs: Option<Int64>)
  {
    predicate IsCountBased() { CountEviction? || WatermarkCountEviction? }
    predicate IsWatermarkBased() { WatermarkCountEviction? || WatermarkTimeEviction? }
  }

  /** When the window is evaluated. */
  datatype TriggerPolicy =
    | CountTrigger(slidingIntervalCount: Int32)
    | TimeTrigger(slidingIntervalMs: Option<Int64>)
    | WatermarkCountTrigger(slidingIntervalCount: Int32)
    | WatermarkTimeTrigger(slidingIntervalMs: Option<Int64>)
  {
    predicate IsCountBased() { CountTrigger? || WatermarkCountTrigger? }
    predicate IsWatermarkBased() { WatermarkCountTrigger? || WatermarkTimeTrigger? }
  }

  /** The eviction policy for a configuration, in event-time mode or not:
      count-based exactly when a window length count is set, watermark-driven
      exactly in event-time mode, and carrying the configured length (and, for
      the watermark time variant, the configured lag). */
  function SelectEvictionPolicy(cfg: WindowConfig, eventTime: bool): (p: EvictionPolicy)
    ensures p.IsCountBased() <==> cfg.windowLengthCount.Some?
    ensures p.IsWatermarkBased() <==> eventTime
    ensures p.IsCountBased() ==> p.windowLengthCount == cfg.windowLengthCount.value
    ensures !p.IsCountBased() ==> p.windowLengthMs == cfg.windowLengthDurationMs
    ensures p.WatermarkTimeEviction? ==> p.maxLagMs == cfg.maxLagMs
  {
    if cfg.windowLengthCount.Some? then
      if eventTime then WatermarkCountEviction(cfg.windowLengthCount.value)
      else CountEviction(cfg.windowLengthCount.value)
    else
      if eventTime then WatermarkTimeEviction(cfg.windowLengthDurationMs, cfg.maxLagMs)
      else TimeEviction(cfg.windowLengthDurationMs)
  }

  /** The trigger policy for a configuration, in event-time mode or not:
      count-based exactly when a sliding interval count is set, watermark-driven
      exactly in event-time mode, carrying the configured slide. */
  function SelectTriggerPolicy(cfg: WindowConfig, eventTime: bool): (p: TriggerPolicy)
    ensures p.IsCountBased() <==> cfg.slidingIntervalCount.Some?
    ensures p.IsWatermarkBased() <==> eventTime
    ensures p.IsCountBased() ==> p.slidingIntervalCount == cfg.slidingIntervalCount.value
    ensures !p.IsCountBased() ==> p.slidingIntervalMs == cfg.slidingIntervalDurationMs
  {
    if cfg.slidingIntervalCount.Some? then
      if eventTime then WatermarkCountTrigger(cfg.slidingIntervalCount.value)
      else CountTrigger(cfg.slidingIntervalCount.value)
    else
      if eventTime then WatermarkTimeTrigger(cfg.slidingIntervalDurationMs)
      else TimeTrigger(cfg.slidingIntervalDurationMs)
  }

  /** The trigger depends on the sliding interval settings and the mode only:
      window length, lag, late-data topic and extractor do not influence it. */
  lemma TriggerDependsOnlyOnSlidingInterval(c1: WindowConfig, c2: WindowConfig, eventTime: bool)
    requires c1.slidingIntervalCount == c2.slidingIntervalCount
    requires c1.slidingIntervalDurationMs == c2.slidingIntervalDurationMs
    ensures SelectTriggerPolicy(c1, eventTime) == SelectTriggerPolicy(c2, eventTime)
  {
  }

  /** The eviction policy depends on the window length settings, the lag and
      the mode only. */
  lemma EvictionDependsOnlyOnWindowLength(c1: WindowConfig, c2: WindowConfig, eventTime: bool)
    requires c1.windowLengthCount == c2.windowLengthCount
    requires c1.windowLengthDurationMs == c2.windowLengthDurationMs
    requires c1.maxLagMs == c2.maxLagMs
    ensures SelectEvictionPolicy(c1, eventTime) == SelectEvictionPolicy(c2, eventTime)
  {
  }

  /** The two selected policies always agree on the time domain: both are
      watermark-driven, or neither is. */
  lemma PoliciesShareTimeDomain(cfg: WindowConfig, eventTime: bool)
    ensures SelectEvictionPolicy(cfg, eventTime).IsWatermarkBased()
        == SelectTriggerPolicy(cfg, eventTime).IsWatermarkBased()
  {
  }

  /** The start timestamp of a window ending at endTs: present exactly when
      both the end and a window length duration are, and then the window spans
      exactly the configured length in `long` arithmetic (the plain difference
      whenever that does not overflow). */
  function WindowStartTs(endTs: Option<Int64>, windowLengthDurationMs: Option<Int64>): (r: Option<Int64>)
    ensures r.Some? <==> endTs.Some? && windowLengthDurationMs.Some?
    ensures r.Some? ==> Add(r.value, windowLengthDurationMs.value) == endTs.value
    ensures r.Some? && MIN_LONG <= endTs.value - windowLengthDurationMs.value <= MAX_LONG
            ==> r.value == endTs.value - windowLengthDurationMs.value
  {
    if endTs.Some? && windowLengthDurationMs.Some? then
      SubThenAdd(endTs.value, windowLengthDurationMs.value);
      Some(Sub(endTs.value, windowLengthDurationMs.value))
    else
      None
  }
}
