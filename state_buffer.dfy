/** The telemetry state buffer: the latest frame, when it arrived, and the
    arrival times of the last few updates for estimating the update rate.
    The wall clock is the parameter `now`. */
module StateBuffer {
  import opened Builtins

  /** How many update times are kept for the rate estimate. */
  const MAX_UPDATE_HISTORY: nat := 10

  /** The last MAX_UPDATE_HISTORY entries of `s` (all of `s` when shorter). */
  function Window(s: seq<real>): (r: seq<real>)
    ensures |r| == if |s| <= MAX_UPDATE_HISTORY then |s| else MAX_UPDATE_HISTORY
  {
    if |s| <= MAX_UPDATE_HISTORY then s else s[|s| - MAX_UPDATE_HISTORY..]
  }

  /** Appending a time and then dropping the oldest when over the limit
      keeps the window: the history stays the last ten update times. */
  lemma WindowStep(s: seq<real>, t: real)
    ensures var w := Window(s) + [t];
      (if |w| > MAX_UPDATE_HISTORY then w[1..] else w) == Window(s + [t])
  {
    var w := Window(s) + [t];
    if |s| >= MAX_UPDATE_HISTORY {
      assert w[1..] == (s + [t])[|s| + 1 - MAX_UPDATE_HISTORY..];
    }
  }

  function Sum(xs: seq<real>): real {
    if xs == [] then 0.0 else xs[0] + Sum(xs[1..])
  }

  /** The gaps between consecutive update times. */
  function Intervals(ts: seq<real>): (r: seq<real>)
    ensures |r| == if ts == [] then 0 else |ts| - 1
    ensures forall i :: 0 <= i < |r| ==> r[i] == ts[i + 1] - ts[i]
  {
    if |ts| < 2 then [] else [ts[1] - ts[0]] + Intervals(ts[1..])
  }

  /** The gaps add up to the span from the first time to the last. */
  lemma {:induction false} IntervalsTelescope(ts: seq<real>)
    requires ts != []
    ensures Sum(Intervals(ts)) == ts[|ts| - 1] - ts[0]
  {
    if |ts| >= 2 {
      IntervalsTelescope(ts[1..]);
    }
  }

  /** `estimate_update_rate_hz` on a history: None with fewer than two
      times or a non-positive average gap, else one over the average gap. */
  function RateOf(ts: seq<real>): (r: Option<real>)
    ensures |ts| < 2 ==> r.None?
  {
    if |ts| < 2 then None
    else
      var avg := Sum(Intervals(ts)) / (|ts| - 1) as real;
      if avg <= 0.0 then None else Some(1.0 / avg)
  }

  lemma Reciprocal(span: real, m: real, avg: real)
    requires m >= 1.0
    requires avg == span / m
    ensures avg > 0.0 <==> span > 0.0
    ensures span > 0.0 ==> 1.0 / avg == m / span
  {
    assert avg * m == span;
    if span > 0.0 {
      assert avg > 0.0;
      assert (m / span) * avg == 1.0;
    }
  }

  /** The rate is known iff there are two times and the last is later than
      the first; it is then the number of gaps over the span they cover. */
  lemma RateFromSpan(ts: seq<real>)
    requires |ts| >= 2
    ensures RateOf(ts).Some? <==> ts[|ts| - 1] > ts[0]
    ensures RateOf(ts).Some? ==> RateOf(ts).value == (|ts| - 1) as real / (ts[|ts| - 1] - ts[0])
  {
    IntervalsTelescope(ts);
    Reciprocal(ts[|ts| - 1] - ts[0], (|ts| - 1) as real, Sum(Intervals(ts)) / (|ts| - 1) as real);
  }

  /** `StateBuffer`: the latest frame stored as given, the time it arrived,
      and the last MAX_UPDATE_HISTORY arrival times. `frames` and `arrivals`
      record every update ever made, for the specification only. */
  class StateBuffer<F> {
    var latest: Option<F>
    var lastUpdateTime: Option<real>
    var updateTimes: seq<real>
    ghost var frames: seq<F>
    ghost var arrivals: seq<real>

    /** The fields are what the updates so far make them: the last frame and
        time, and the window of the last arrival times. */
    ghost predicate Valid()
      reads this
    {
      && |frames| == |arrivals|
      && (|frames| == 0 ==> latest.None? && lastUpdateTime.None?)
      && (|frames| > 0 ==> latest == Some(frames[|frames| - 1]) && lastUpdateTime == Some(arrivals[|arrivals| - 1]))
      && updateTimes == Window(arrivals)
    }

    constructor ()
      ensures Valid() && |frames| == 0 && |arrivals| == 0
    {
      latest := None;
      lastUpdateTime := None;
      updateTimes := [];
      frames := [];
      arrivals := [];
    }

    /** `update`: store `frame` verbatim as the latest, record `now` as its
        arrival, and keep the last ten arrival times. */
    method Update(frame: F, now: real)
      requires Valid()
      modifies this
      ensures Valid()
      ensures frames == old(frames) + [frame] && arrivals == old(arrivals) + [now]
      ensures latest == Some(frame) && lastUpdateTime == Some(now)
    {
      latest := Some(frame);
      lastUpdateTime := Some(now);
      ghost var next := arrivals + [now];
      WindowStep(arrivals, now);
      updateTimes := updateTimes + [now];
      if |updateTimes| > MAX_UPDATE_HISTORY {
        updateTimes := updateTimes[1..];
      }
      assert updateTimes == Window(next);
      frames := frames + [frame];
      arrivals := next;
    }

    /** `get_latest`: None before any update, else the last frame passed to Update. */
    function GetLatest(): (r: Option<F>)
      requires Valid()
      reads this
      ensures r.None? <==> |frames| == 0
      ensures r.Some? ==> r.value == frames[|frames| - 1]
    {
      latest
    }

    /** `is_stale`: true before any update, else whether the last update is
        strictly older than `maxAge` at `now`. */
    function IsStale(maxAge: real, now: real): (r: bool)
      requires Valid()
      reads this
      ensures |arrivals| == 0 ==> r
      ensures |arrivals| > 0 ==> (r <==> now - arrivals[|arrivals| - 1] > maxAge)
    {
      match lastUpdateTime
      case None => true
      case Some(t) => now - t > maxAge
    }

    /** After exactly one update, checked within `maxAge` of it, the buffer
        is fresh and its rate cannot be estimated yet. */
    lemma SingleUpdate(maxAge: real, now: real)
      requires Valid() && |arrivals| == 1 && now - arrivals[0] <= maxAge
      ensures |frames| == 1
      ensures EstimateUpdateRateHz().None?
      ensures !IsStale(maxAge, now)
    {
      var r := EstimateUpdateRateHz();
      assert r.None?;
      var last := arrivals[|arrivals| - 1];
      assert last == arrivals[0];
    }

    /** `get_age_seconds`: None before any update, else the time since the last one. */
    function GetAgeSeconds(now: real): (r: Option<real>)
      requires Valid()
      reads this
      ensures r.None? <==> |arrivals| == 0
      ensures r.Some? ==> r.value == now - arrivals[|arrivals| - 1]
    {
      match lastUpdateTime
      case None => None
      case Some(t) => Some(now - t)
    }

    /** `estimate_update_rate_hz`: None with fewer than two updates or a
        span that is not positive; otherwise the number of gaps over the span
        of the kept arrival times. */
    function EstimateUpdateRateHz(): (r: Option<real>)
      requires Valid()
      reads this
      ensures |arrivals| < 2 ==> r.None?
      ensures |updateTimes| >= 2 ==> (r.Some? <==> updateTimes[|updateTimes| - 1] > updateTimes[0])
      ensures r.Some? ==> (|updateTimes| >= 2
        && r.value == (|updateTimes| - 1) as real / (updateTimes[|updateTimes| - 1] - updateTimes[0]))
    {
      if |updateTimes| < 2 then None
      else
        RateFromSpan(updateTimes);
        RateOf(updateTimes)
    }
  }

  /** The kept history is the last ten arrival times: its newest entry is
      the last update's time and its oldest is the time of update number
      max(0, n - 10). */
  lemma HistoryIsLastTen<F>(b: StateBuffer<F>)
    requires b.Valid()
    ensures |b.updateTimes| == if |b.arrivals| <= MAX_UPDATE_HISTORY then |b.arrivals| else MAX_UPDATE_HISTORY
    ensures forall i :: 0 <= i < |b.updateTimes| ==>
      b.updateTimes[i] == b.arrivals[|b.arrivals| - |b.updateTimes| + i]
  {
  }
}
