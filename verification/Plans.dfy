/** What one session has scheduled: its six alarms and the display-off time, on a shared timer. */
module Plans {
  import opened Alarms

  datatype TimeoutType = NoTimeout | Normal | PostNotification | Reduced

  datatype TimePoint = At(t: int) | Never

  predicate Later(t: int, p: TimePoint) {
    p.At? && t > p.t
  }

  // Timeouts are in milliseconds; the largest 64-bit value stands for "no timeout".
  const INFINITE: int := 0x7FFF_FFFF_FFFF_FFFF

  datatype Plan = Plan(
    dimDuration: int,
    longPress: AlarmId,
    dim: AlarmId,
    off: AlarmId,
    suspend: AlarmId,
    proximity: AlarmId,
    expiration: AlarmId,
    offTime: TimePoint,
    kind: TimeoutType,
    clock: Clock)
  {
    function Cancel(id: AlarmId): Plan {
      if id != INVALID then this.(clock := clock.Cancel(id)) else this
    }

    function CancelOff(): Plan {
      Cancel(dim).Cancel(off).(dim := INVALID, off := INVALID, offTime := At(0), kind := NoTimeout)
    }

    function ScheduleDim(t: int): Plan {
      if t > dimDuration then
        this.(clock := clock.ScheduleIn(t - dimDuration), dim := clock.next)
      else this
    }

    function ScheduleOff(t: int, k: TimeoutType): Plan {
      this.(clock := clock.ScheduleIn(t), off := clock.next, offTime := At(clock.now + t), kind := k)
    }

    function NormalOff(t: int): Plan {
      if t == INFINITE then CancelOff().(kind := Normal, offTime := Never)
      else CancelOff().ScheduleDim(t).ScheduleOff(t, Normal)
    }

    function NormalSuspend(t: int): Plan {
      var p := Cancel(suspend).(suspend := INVALID);
      if t == INFINITE then p else p.(clock := p.clock.ScheduleIn(t), suspend := p.clock.next)
    }

    /** The shorter timeouts only ever postpone the display-off time. */
    function Postpone(t: int, k: TimeoutType): Plan {
      if Later(clock.now + t, offTime) then CancelOff().ScheduleOff(t, k) else this
    }

    function ProximityDisable(t: int): Plan {
      var p := Cancel(proximity);
      p.(clock := p.clock.ScheduleIn(t), proximity := p.clock.next)
    }

    function CancelExpiration(): Plan {
      Cancel(expiration).(expiration := INVALID)
    }

    function Expiration(t: int): Plan {
      var p := CancelExpiration();
      p.(clock := p.clock.ScheduleIn(t), expiration := p.clock.next)
    }

    /** A second press leaves the alarm of the first one running. */
    function LongPress(t: int): Plan {
      this.(clock := clock.ScheduleIn(t), longPress := clock.next)
    }

    function CancelLongPress(): Plan {
      Cancel(longPress).(longPress := INVALID)
    }

    /** Is this alarm id one the session still waits for? */
    predicate Owns(id: AlarmId) {
      || id == longPress || id == dim || id == off
      || id == suspend || id == proximity || id == expiration
    }

    // ---------- Invariants ----------

    /** The six alarm ids never coincide. */
    predicate Distinct() {
      && Apart(longPress, dim) && Apart(longPress, off) && Apart(longPress, suspend)
      && Apart(longPress, proximity) && Apart(longPress, expiration)
      && Apart(dim, off) && Apart(dim, suspend) && Apart(dim, proximity) && Apart(dim, expiration)
      && Apart(off, suspend) && Apart(off, proximity) && Apart(off, expiration)
      && Apart(suspend, proximity) && Apart(suspend, expiration)
      && Apart(proximity, expiration)
    }

    predicate Awaited(id: AlarmId) {
      id == INVALID || clock.Live(id)
    }

    /** Every alarm the session waits for will really arrive. */
    predicate AllLive() {
      && Awaited(longPress) && Awaited(dim) && Awaited(off)
      && Awaited(suspend) && Awaited(proximity) && Awaited(expiration)
    }

    predicate Sound() {
      clock.Valid() && Distinct() && AllLive()
    }

    /** The display-off alarm, the off time and the kind of timeout describe one schedule. */
    predicate OffSchedule() {
      && (off != INVALID <==> kind != NoTimeout && offTime != Never)
      && (off in clock.pending ==> offTime == At(clock.pending[off]))
      && (dim in clock.pending ==> offTime == At(clock.pending[dim] + dimDuration))
    }

    predicate Valid() {
      Sound() && OffSchedule()
    }

    /** Only the display-off schedule differs. */
    predicate OffRescheduled(p: Plan) {
      && p == this.(dim := p.dim, off := p.off, offTime := p.offTime, kind := p.kind, clock := p.clock)
      && p.clock.now == clock.now
    }
  }

  predicate Apart(a: AlarmId, b: AlarmId) {
    a == INVALID || a != b
  }

  function NoPlan(dimDuration: int, clock: Clock): Plan {
    Plan(dimDuration, INVALID, INVALID, INVALID, INVALID, INVALID, INVALID, At(0), NoTimeout, clock)
  }

  lemma CancelOffKeeps(p: Plan)
    requires p.Sound()
    ensures p.CancelOff().Valid() && p.OffRescheduled(p.CancelOff())
  {
  }

  lemma ScheduleDimKeeps(p: Plan, t: int)
    requires p.Sound() && p.dim == INVALID
    ensures var q := p.ScheduleDim(t);
      && q.Sound() && p.OffRescheduled(q) && q == p.(dim := q.dim, clock := q.clock)
      && (q.dim in q.clock.pending ==> q.clock.pending[q.dim] + p.dimDuration == p.clock.now + t)
  {
  }

  lemma ScheduleOffKeeps(p: Plan, t: int, k: TimeoutType)
    requires p.Sound() && p.off == INVALID && k != NoTimeout
    requires p.dim in p.clock.pending ==> p.clock.pending[p.dim] + p.dimDuration == p.clock.now + t
    ensures p.ScheduleOff(t, k).Valid() && p.OffRescheduled(p.ScheduleOff(t, k))
  {
  }

  lemma NormalOffKeeps(p: Plan, t: int)
    requires p.Sound()
    ensures var q := p.NormalOff(t);
      && q.Valid() && p.OffRescheduled(q) && q.kind == Normal
      && q.offTime == (if t == INFINITE then Never else At(p.clock.now + t))
  {
    CancelOffKeeps(p);
    if t != INFINITE {
      ScheduleDimKeeps(p.CancelOff(), t);
      ScheduleOffKeeps(p.CancelOff().ScheduleDim(t), t, Normal);
    }
  }

  lemma NormalSuspendKeeps(p: Plan, t: int)
    requires p.Valid()
    ensures var q := p.NormalSuspend(t);
      q.Valid() && q == p.(suspend := q.suspend, clock := q.clock) && q.clock.now == p.clock.now
  {
  }

  lemma PostponeKeeps(p: Plan, t: int, k: TimeoutType)
    requires p.Valid() && k != NoTimeout
    ensures var q := p.Postpone(t, k);
      && q.Valid() && p.OffRescheduled(q)
      && (q.kind == p.kind || q.kind == k)
      && (if Later(p.clock.now + t, p.offTime) then q.kind == k && q.offTime == At(p.clock.now + t) else q == p)
  {
    if Later(p.clock.now + t, p.offTime) {
      CancelOffKeeps(p);
      ScheduleOffKeeps(p.CancelOff(), t, k);
    }
  }

  lemma ProximityDisableKeeps(p: Plan, t: int)
    requires p.Valid()
    ensures var q := p.ProximityDisable(t);
      q.Valid() && q == p.(proximity := q.proximity, clock := q.clock)
  {
  }

  lemma ExpirationKeeps(p: Plan, t: int)
    requires p.Valid()
    ensures var q := p.Expiration(t);
      q.Valid() && q == p.(expiration := q.expiration, clock := q.clock) && q.expiration != INVALID
  {
  }

  lemma CancelExpirationKeeps(p: Plan)
    requires p.Valid()
    ensures var q := p.CancelExpiration();
      q.Valid() && q == p.(expiration := INVALID, clock := q.clock)
  {
  }

  lemma LongPressKeeps(p: Plan, t: int)
    requires p.Valid()
    ensures var q := p.LongPress(t);
      q.Valid() && q == p.(longPress := q.longPress, clock := q.clock)
  {
  }

  lemma CancelLongPressKeeps(p: Plan)
    requires p.Valid()
    ensures var q := p.CancelLongPress();
      q.Valid() && q == p.(longPress := INVALID, clock := q.clock)
  {
  }
}
