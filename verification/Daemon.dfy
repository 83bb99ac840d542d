/** The daemon as an object: it keeps the map of sessions, the active one among them and those
    with calls, and carries out the queued actions one at a time. */
module Daemons {
  import opened Alarms
  import opened Plans
  import opened PowerModel
  import opened Sessions

  class Daemon {
    const options: Options

    var sessions: map<string, Slot>
    var activeSession: string
    var sessionsWithActiveCalls: seq<string>
    var clock: Clock
    var proximitySensor: bool
    var suspendBlock: bool

    function View(): Hub
      reads this
    {
      Hub(options, sessions, activeSession, sessionsWithActiveCalls, clock, proximitySensor, suspendBlock)
    }

    /** Exactly the active session is unpaused, and every session keeps its own invariant. */
    ghost predicate Valid()
      reads this
    {
      HubInv(View())
    }

    constructor (options: Options)
      ensures View() == Boot(options)
      ensures options.reducedOffTimeout > 0 ==> Valid()
    {
      this.options := options;
      sessions, activeSession := map[NOBODY := Null], NOBODY;
      sessionsWithActiveCalls, clock, proximitySensor, suspendBlock := [], START_OF_TIME, false, false;
    }

    /** One session's machine handles one event. */
    method Dispatch(id: string, e: Event)
      modifies `sessions, `clock, `proximitySensor, `suspendBlock
      ensures View() == old(View()).On(id, e)
    {
      hide Step;
      if id in sessions && sessions[id].Real? {
        StoreSession(id, Step(Placed(sessions[id].w, clock, proximitySensor, suspendBlock), e));
      }
    }

    method EnqueueActionToActiveSession(e: Event)
      modifies `sessions, `clock, `proximitySensor, `suspendBlock
      ensures View() == old(View()).Apply(ToActive(e))
      ensures old(Valid()) && ForActive(e) ==> Valid()
    {
      hide Sane, Hub.On;
      if Valid() && ForActive(e) { ApplyKeeps(View(), ToActive(e)); }
      Dispatch(activeSession, e);
    }

    method EnqueueActionToSessions(targets: seq<string>, e: Event)
      modifies `sessions, `clock, `proximitySensor, `suspendBlock
      ensures View() == old(View()).ToSessions(targets, e)
      ensures old(Valid()) && ForClients(e) ==> Valid()
    {
      hide Sane, Hub.On;
      if Valid() && ForClients(e) { ApplyKeeps(View(), ToClients(targets, e)); }
      for i := 0 to |targets|
        invariant View() == old(View()).ToSessions(targets[..i], e)
      {
        assert targets[..i + 1][..i] == targets[..i];
        Dispatch(targets[i], e);
      }
      assert targets[..|targets|] == targets;
    }

    /** All sessions hear of an alarm, in the order in which the map happens to be walked. */
    method AlarmToAllSessions(alarm: AlarmId) returns (ghost order: seq<string>)
      modifies `sessions, `clock, `proximitySensor, `suspendBlock
      ensures Enumerates(order, old(sessions).Keys)
      ensures View() == old(View()).Apply(AlarmArrives(order, alarm))
      ensures old(Valid()) && alarm in old(clock).fired ==> Valid()
    {
      hide Sane, Hub.AlarmAt;
      order := [];
      var todo := sessions.Keys;
      while todo != {}
        invariant View() == old(View()).AlarmTo(order, alarm)
        invariant sessions.Keys == old(sessions).Keys && todo <= old(sessions).Keys
        invariant Enumerates(order, old(sessions).Keys - todo)
        decreases |todo|
      {
        var id :| id in todo;
        assert (order + [id])[..|order|] == order;
        DispatchAlarm(id, alarm);
        order := order + [id];
        todo := todo - {id};
      }
      clock := clock.Delivered(alarm);
      if old(Valid()) && alarm in old(clock).fired { ApplyKeeps(old(View()), AlarmArrives(order, alarm)); }
    }

    method DispatchAlarm(id: string, alarm: AlarmId)
      modifies `sessions, `clock, `proximitySensor, `suspendBlock
      ensures View() == old(View()).AlarmAt(id, alarm) && sessions.Keys == old(sessions).Keys
    {
      hide World.HandleAlarm;
      if id in sessions && sessions[id].Real? {
        StoreSession(id, Placed(sessions[id].w, clock, proximitySensor, suspendBlock).HandleAlarm(alarm));
      }
    }

    method HandleActiveCall(far: bool)
      modifies `sessions, `clock, `proximitySensor, `suspendBlock, `sessionsWithActiveCalls
      ensures View() == old(View()).Apply(CallBegins(far))
      ensures old(Valid()) ==> Valid()
    {
      hide Sane, Hub.On;
      if Valid() { ApplyKeeps(View(), CallBegins(far)); }
      if activeSession !in sessionsWithActiveCalls {
        sessionsWithActiveCalls := sessionsWithActiveCalls + [activeSession];
      }
      Dispatch(activeSession, ActiveCall(far));
    }

    method HandleNoActiveCall(far: bool)
      modifies `sessions, `clock, `proximitySensor, `suspendBlock
      ensures View() == old(View()).Apply(CallEnds(far))
      ensures old(Valid()) ==> Valid()
    {
      hide Sane, Hub.On;
      if Valid() { ApplyKeeps(View(), CallEnds(far)); }
      EnqueueActionToSessions(sessionsWithActiveCalls, NoActiveCall(far));
    }

    method HandleSessionActivated(id: string, compatible: bool, battery: bool)
      modifies this
      ensures View() == old(View()).Apply(SessionActivated(id, compatible, battery))
      ensures old(Valid()) ==> Valid()
    {
      hide Sane, Hub.On, Hub.NewSession;
      if Valid() { ApplyKeeps(View(), SessionActivated(id, compatible, battery)); }
      Dispatch(activeSession, Pausing);
      if !compatible {
        activeSession := NOBODY;
      } else {
        if id !in sessions {
          CreateSession(id, battery);
        } else {
          Dispatch(id, Resuming);
        }
        activeSession := id;
      }
    }

    method CreateSession(id: string, battery: bool)
      modifies `sessions, `clock, `proximitySensor, `suspendBlock
      ensures View() == old(View()).NewSession(id, battery)
    {
      hide Hub.On, NewMachine, NoPlan;
      StoreSession(id, View().Fresh());
      Dispatch(id, Starting(battery));
    }

    method StoreSession(id: string, w: World)
      modifies `sessions, `clock, `proximitySensor, `suspendBlock
      ensures sessions.Keys == old(sessions).Keys + {id}
      ensures View() == old(View()).Store(id, w)
    {
      sessions := sessions[id := Real(Placed(w, START_OF_TIME, false, false))];
      clock, proximitySensor, suspendBlock := w.p.clock, w.out.sensor, w.out.block;
    }

    /** The session that stands for nobody is never removed. */
    method HandleSessionRemoved(id: string)
      requires id != NOBODY
      modifies this
      ensures View() == old(View()).Apply(Action.SessionRemoved(id))
      ensures old(Valid()) ==> Valid()
    {
      hide Sane, Hub.On;
      if Valid() { ApplyKeeps(View(), Action.SessionRemoved(id)); }
      if id in sessions {
        if activeSession == id {
          Dispatch(activeSession, Pausing);
          activeSession := NOBODY;
        }
        sessions := sessions - {id};
      }
    }

    /** A process without an id speaks for all sessions. */
    method SessionsForPid(pid: int, tracked: string) returns (ids: seq<string>)
      ensures pid == 0 ==> Enumerates(ids, sessions.Keys)
      ensures pid != 0 ==> ids == [tracked]
    {
      if pid != 0 { return [tracked]; }
      ids := [];
      var todo := sessions.Keys;
      while todo != {}
        invariant todo <= sessions.Keys && Enumerates(ids, sessions.Keys - todo)
        decreases |todo|
      {
        var id :| id in todo;
        ids := ids + [id];
        todo := todo - {id};
      }
    }
  }
}
