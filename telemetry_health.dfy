/** Advisory health checks on the telemetry buffer: a list of warnings that
    never blocks anything and never changes the buffer. */
module TelemetryHealth {
  import opened Builtins
  import opened StateBuffer

  const DEFAULT_STALE_THRESHOLD_S: real := 5.0
  const DEFAULT_MIN_UPDATE_RATE_HZ: real := 1.0

  /** The warnings, by kind; the message text is not modelled. */
  datatype Warning =
    | NoSource
    | NoTelemetry
    | Stale(age: Option<real>, threshold: real)
    | LowRate(rate: real, minimum: real)
    | RateUnknown

  /** `check_telemetry_health` at the instant `now`: no source, or no frame
      yet, each give that one warning; otherwise a stale warning when the
      buffer is stale, then a low-rate warning when the rate is below the
      minimum or a rate-unknown warning when it cannot be estimated. */
  method CheckTelemetryHealth<F>(buffer: Option<StateBuffer<F>>, staleThreshold: real, minRate: real, now: real)
    returns (warnings: seq<Warning>)
    requires buffer.Some? ==> buffer.value.Valid()
    ensures buffer.None? ==> warnings == [NoSource]
    ensures buffer.Some? && |buffer.value.frames| == 0 ==> warnings == [NoTelemetry]
    ensures buffer.Some? && |buffer.value.frames| > 0 ==> (
      var b := buffer.value;
      var stale := b.IsStale(staleThreshold, now);
      var rate := b.EstimateUpdateRateHz();
      var rateWarning := rate.None? || rate.value < minRate;
      && |warnings| == (if stale then 1 else 0) + (if rateWarning then 1 else 0) <= 2
      && (stale ==> warnings[0] == Stale(b.GetAgeSeconds(now), staleThreshold))
      && (rate.None? ==> warnings[|warnings| - 1] == RateUnknown)
      && (rate.Some? && rate.value < minRate ==> warnings[|warnings| - 1] == LowRate(rate.value, minRate)))
  {
    warnings := [];
    if buffer.None? {
      warnings := warnings + [NoSource];
      return;
    }
    var b := buffer.value;
    var latest := b.GetLatest();
    if latest.None? {
      warnings := warnings + [NoTelemetry];
      return;
    }
    if b.IsStale(staleThreshold, now) {
      var age := b.GetAgeSeconds(now);
      warnings := warnings + [Stale(age, staleThreshold)];
    }
    var rate := b.EstimateUpdateRateHz();
    if rate.Some? {
      if rate.value < minRate {
        warnings := warnings + [LowRate(rate.value, minRate)];
      }
    } else {
      warnings := warnings + [RateUnknown];
    }
  }

  /** A buffer that has had exactly one update, checked within the stale
      threshold, reports only that the rate cannot be determined. */
  method FirstUpdateHealth<F>(b: StateBuffer<F>, now: real) returns (warnings: seq<Warning>)
    requires b.Valid() && |b.arrivals| == 1
    requires now - b.arrivals[0] <= DEFAULT_STALE_THRESHOLD_S
    ensures warnings == [RateUnknown]
  {
    b.SingleUpdate(DEFAULT_STALE_THRESHOLD_S, now);
    warnings := CheckTelemetryHealth(Some(b), DEFAULT_STALE_THRESHOLD_S, DEFAULT_MIN_UPDATE_RATE_HZ, now);
  }
}
