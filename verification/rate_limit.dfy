/** The per-request-class throttle that geocoding.py and data_fetching.py
    both embed. Time is an abstract clock reading passed in by the caller,
    and a sleep is taken to last exactly as long as requested. */
module RateLimit {
  import opened Common

  /** One request class: its minimum spacing in seconds and when its last
      request was issued (`None` before the first). */
  datatype Timer = Timer(limit: real, last: Option<real>)

  /** How long a call slept and the timer it left behind. */
  datatype Throttled = Throttled(slept: real, timer: Timer)

  /** `_rate_limit_wait` at clock reading `now`: sleep off what is left of
      the spacing, then stamp the current time. */
  function Wait(t: Timer, now: real): (r: Throttled)
    ensures r.slept >= 0.0
    ensures t.last.None? ==> r.slept == 0.0
    ensures r.timer.limit == t.limit
    ensures r.timer.last == Some(now + r.slept)
    ensures t.last.Some? ==> now + r.slept == Max(now, t.last.value + t.limit)
  {
    var slept :=
      if t.last.Some? && now - t.last.value < t.limit then t.limit - (now - t.last.value)
      else 0.0;
    Throttled(slept, Timer(t.limit, Some(now + slept)))
  }

  /** The times at which a run of throttled requests is issued, when the
      i-th of them reaches the throttle at clock reading `arrivals[i]`. */
  function IssueTimes(t: Timer, arrivals: seq<real>): (r: seq<real>)
    ensures |r| == |arrivals|
    ensures forall i :: 0 <= i < |r| ==> r[i] >= arrivals[i]
    ensures |r| > 0 && t.last.None? ==> r[0] == arrivals[0]
    ensures |r| > 0 && t.last.Some? ==> r[0] >= t.last.value + t.limit
    ensures forall i :: 0 < i < |r| ==> r[i] >= r[i - 1] + t.limit
    decreases |arrivals|
  {
    if arrivals == [] then []
    else
      var w := Wait(t, arrivals[0]);
      [arrivals[0] + w.slept] + IssueTimes(w.timer, arrivals[1..])
  }
}
