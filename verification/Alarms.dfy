/** The timer: fresh alarm ids, a clock that never goes back, no early firing.

    An alarm that goes off is first queued (`fired`) and delivered later, so cancelling it in
    between comes too late and its event still arrives. */
module Alarms {

  type AlarmId = int

  const INVALID: AlarmId := -1

  datatype Clock = Clock(now: nat, next: AlarmId, pending: map<AlarmId, int>, fired: set<AlarmId>)
  {
    predicate Valid() {
      && next >= 1
      && (forall id :: id in pending ==> 1 <= id < next)
      && (forall id :: id in fired ==> 1 <= id < next && id !in pending)
    }

    /** The new alarm gets the id `next`. */
    function ScheduleIn(t: int): Clock {
      this.(next := next + 1, pending := pending[next := now + t])
    }

    function Cancel(id: AlarmId): Clock {
      this.(pending := pending - {id})
    }

    function Advance(t: nat): Clock {
      this.(now := now + t)
    }

    predicate Due(id: AlarmId) {
      id in pending && pending[id] <= now
    }

    function Fire(id: AlarmId): Clock {
      this.(pending := pending - {id}, fired := fired + {id})
    }

    function Delivered(id: AlarmId): Clock {
      this.(fired := fired - {id})
    }

    /** The event of this alarm is still to come. */
    predicate Live(id: AlarmId) {
      id in pending || id in fired
    }
  }

  const START_OF_TIME := Clock(0, 1, map[], {})

  class Timer {
    var now: nat
    var nextAlarmId: AlarmId
    var pending: map<AlarmId, int>
    var fired: set<AlarmId>

    function View(): Clock
      reads this
    {
      Clock(now, nextAlarmId, pending, fired)
    }

    constructor ()
      ensures View() == START_OF_TIME
    {
      now, nextAlarmId, pending, fired := 0, 1, map[], {};
    }

    method ScheduleAlarmIn(t: int) returns (id: AlarmId)
      modifies this
      ensures id == old(nextAlarmId)
      ensures View() == old(View()).ScheduleIn(t) && now == old(now)
    {
      id := nextAlarmId;
      nextAlarmId := nextAlarmId + 1;
      pending := pending[id := now + t];
    }

    method CancelAlarm(id: AlarmId)
      modifies this
      ensures View() == old(View()).Cancel(id) && now == old(now)
    {
      pending := pending - {id};
    }
  }
}
