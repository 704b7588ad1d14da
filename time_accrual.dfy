/** The arithmetic of the time accumulator: how one tick changes the
    time-tracking map for the focused, tracked domain, when the domain's
    limit blocks it, and the usage a completed quiz reports. Time stamps are
    integer milliseconds; accumulated time is (fractional) seconds. */
module TimeAccrual {
  import opened Wrappers
  import opened Storage

  /** `(now - lastTick) / 1000`: the seconds since the previous tick. */
  function ElapsedSeconds(now: int, lastTick: int): (e: real)
    ensures e * 1000.0 == (now - lastTick) as real
    ensures now >= lastTick ==> e >= 0.0
  {
    (now - lastTick) as real / 1000.0
  }

  /** Elapsed time adds up: the seconds from `t0` to `t2` are those from `t0`
      to `t1` plus those from `t1` to `t2`, so resetting `lastTick` at every
      tick loses no time. */
  lemma ElapsedAdds(t0: int, t1: int, t2: int)
    ensures ElapsedSeconds(t2, t0) == ElapsedSeconds(t1, t0) + ElapsedSeconds(t2, t1)
  {
  }

  /** `timeLimitMinutes * 60`: a whole number of minutes in seconds. */
  function LimitSeconds(timeLimitMinutes: int): (l: int)
    ensures l % 60 == 0 && l / 60 == timeLimitMinutes
    ensures timeLimitMinutes > 0 ==> l >= 60
  {
    timeLimitMinutes * 60
  }

  /** The map a tick of `elapsed` seconds on the tracked `domain` leaves, or
      `None` when the domain is already blocked (the tick returns before
      saving anything). Otherwise the record is created empty and unblocked
      if missing, gets `elapsed` added and `lastActive := now`, and ends up
      blocked exactly when its total reaches `limit`. No other record
      changes. */
  function Accrue(data: TimeTrackingData, domain: string, now: int, elapsed: real,
                  limit: int): (r: Option<TimeTrackingData>)
    ensures r.None? <==> domain in data && data[domain].blocked
    ensures r.Some? ==> r.value.Keys == data.Keys + {domain}
    ensures r.Some? ==> r.value[domain].totalSeconds == PriorTotal(data, domain) + elapsed
    ensures r.Some? ==> r.value[domain].lastActive == now
    ensures r.Some? ==> (r.value[domain].blocked <==> r.value[domain].totalSeconds >= limit as real)
    ensures r.Some? ==> forall d :: d in data && d != domain ==> r.value[d] == data[d]
  {
    var record := if domain in data then data[domain] else TimeRecord(0.0, now, false);
    if record.blocked then None
    else
      var total := record.totalSeconds + elapsed;
      Some(data[domain := TimeRecord(total, now, total >= limit as real)])
  }

  /** The total a domain has accumulated so far (none recorded: zero). */
  function PriorTotal(data: TimeTrackingData, domain: string): real {
    if domain in data then data[domain].totalSeconds else 0.0
  }

  /** The map after one tick on a tracked domain. */
  function TickData(data: TimeTrackingData, domain: string, now: int, elapsed: real,
                    limit: int): TimeTrackingData
  {
    match Accrue(data, domain, now, elapsed, limit)
    case None => data
    case Some(r) => r
  }

  /** Blocking is sticky under ticks: a blocked domain's record never changes
      and stays blocked, whatever time passes. */
  lemma BlockedStaysBlocked(data: TimeTrackingData, domain: string, now: int,
                            elapsed: real, limit: int)
    requires domain in data && data[domain].blocked
    ensures TickData(data, domain, now, elapsed, limit) == data
  {
  }

  /** Two ticks below the limit accrue the wall time from the first clock
      reading to the last, whatever the reading in between. */
  lemma TwoTicksAddUp(data: TimeTrackingData, domain: string, t0: int, t1: int, t2: int, limit: int)
    requires !(domain in data && data[domain].blocked)
    requires PriorTotal(data, domain) + ElapsedSeconds(t1, t0) < limit as real
    ensures var d1 := TickData(data, domain, t1, ElapsedSeconds(t1, t0), limit);
            var d2 := TickData(d1, domain, t2, ElapsedSeconds(t2, t1), limit);
            domain in d2 && d2[domain].totalSeconds == PriorTotal(data, domain) + ElapsedSeconds(t2, t0)
  {
    ElapsedAdds(t0, t1, t2);
  }

  /** The map after `n` one-second ticks on `domain`, the k-th at
      `start + 1000 * k` milliseconds. */
  function SteadyTicks(data: TimeTrackingData, domain: string, start: int, n: nat,
                       limit: int): TimeTrackingData
    decreases n
  {
    if n == 0 then data
    else TickData(SteadyTicks(data, domain, start, n - 1, limit), domain, start + 1000 * n,
                  ElapsedSeconds(start + 1000 * n, start + 1000 * (n - 1)), limit)
  }

  /** Staying on a tracked site from a fresh start: after `n` seconds the
      record holds `min(n, limit)` seconds, and it is blocked exactly from the
      tick that reaches the limit on; time stops accruing once blocked. */
  lemma {:induction false} SteadyTicksBlockAtLimit(domain: string, start: int, n: nat, limit: nat)
    requires limit > 0
    ensures var r := SteadyTicks(map[], domain, start, n, limit);
            && (n == 0 ==> r == map[])
            && (n > 0 ==> r.Keys == {domain})
            && (n > 0 ==> r[domain].totalSeconds == (if n < limit then n else limit) as real)
            && (n > 0 ==> (r[domain].blocked <==> n >= limit))
    decreases n
  {
    if n > 0 {
      SteadyTicksBlockAtLimit(domain, start, n - 1, limit);
      var r0 := SteadyTicks(map[], domain, start, n - 1, limit);
      var e := ElapsedSeconds(start + 1000 * n, start + 1000 * (n - 1));
      assert e == 1.0;
      if n - 1 >= limit {
        BlockedStaysBlocked(r0, domain, start + 1000 * n, e, limit);
      }
    }
  }

  /** `Math.floor(totalSeconds || 0)` of the domain's record, or 0 when the
      domain has none: the whole seconds a completed quiz reports. */
  function UsageSeconds(data: TimeTrackingData, domain: string): (u: int)
    ensures domain !in data ==> u == 0
    ensures domain in data ==> u as real <= data[domain].totalSeconds < u as real + 1.0
  {
    if domain in data then data[domain].totalSeconds.Floor else 0
  }
}
