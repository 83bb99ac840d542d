/** The screen service and the state event adapter as objects: requests are counted under ids in
    string sets, and the machine hears of it when a set changes or runs empty. */
module ScreenService {
  import opened PowerModel
  import opened StateMachine
  import opened Clients
  import opened Text

  // The id under which logind's own suspend block is filed.
  const LOGIND: string := "LogindSystemPowerControl"

  class StateEventAdapter {
    const machine: DefaultStateMachine

    var inactivityTimeoutDisallowances: set<string>
    var activeNotifications: set<string>
    var suspendDisallowances: set<string>

    constructor (machine: DefaultStateMachine)
      ensures this.machine == machine
      ensures inactivityTimeoutDisallowances == {} && activeNotifications == {} && suspendDisallowances == {}
    {
      this.machine := machine;
      inactivityTimeoutDisallowances, activeNotifications, suspendDisallowances := {}, {}, {};
    }

    method HandleEnableInactivityTimeout(id: string)
      modifies `inactivityTimeoutDisallowances, machine, machine.timer, machine.ports
      ensures inactivityTimeoutDisallowances == old(inactivityTimeoutDisallowances) - {id}
      ensures machine.View() ==
        if inactivityTimeoutDisallowances == {} then old(machine.View()).HandleEnableInactivityTimeout()
        else old(machine.View())
      ensures old(machine.Valid()) ==> machine.Valid()
    {
      inactivityTimeoutDisallowances := inactivityTimeoutDisallowances - {id};
      if inactivityTimeoutDisallowances == {} {
        machine.HandleEnableInactivityTimeout();
      }
    }

    method HandleDisableInactivityTimeout(id: string)
      modifies `inactivityTimeoutDisallowances, machine, machine.timer, machine.ports
      ensures inactivityTimeoutDisallowances == old(inactivityTimeoutDisallowances) + {id}
      ensures machine.View() == old(machine.View()).HandleDisableInactivityTimeout()
      ensures old(machine.Valid()) ==> machine.Valid()
    {
      inactivityTimeoutDisallowances := inactivityTimeoutDisallowances + {id};
      machine.HandleDisableInactivityTimeout();
    }

    method HandleNotification(id: string, far: bool)
      modifies `activeNotifications, machine, machine.timer, machine.ports
      ensures activeNotifications == old(activeNotifications) + {id}
      ensures machine.View() == old(machine.View()).HandleNotification(far)
      ensures old(machine.Valid()) ==> machine.Valid()
    {
      activeNotifications := activeNotifications + {id};
      machine.HandleNotification(far);
    }

    method HandleNotificationDone(id: string)
      modifies `activeNotifications, machine, machine.timer, machine.ports
      ensures activeNotifications == old(activeNotifications) - {id}
      ensures machine.View() ==
        if id in old(activeNotifications) && activeNotifications == {} then old(machine.View()).HandleNoNotification()
        else old(machine.View())
      ensures old(machine.Valid()) ==> machine.Valid()
    {
      var removed := id in activeNotifications;
      activeNotifications := activeNotifications - {id};
      if removed && activeNotifications == {} {
        machine.HandleNoNotification();
      }
    }

    method HandleAllowSuspend(id: string)
      modifies `suspendDisallowances, machine, machine.timer, machine.ports
      ensures suspendDisallowances == old(suspendDisallowances) - {id}
      ensures machine.View() ==
        if suspendDisallowances == {} then old(machine.View()).HandleAllowSuspend() else old(machine.View())
      ensures old(machine.Valid()) ==> machine.Valid()
    {
      suspendDisallowances := suspendDisallowances - {id};
      if suspendDisallowances == {} {
        machine.HandleAllowSuspend();
      }
    }

    method HandleDisallowSuspend(id: string)
      modifies `suspendDisallowances, machine, machine.timer, machine.ports
      ensures suspendDisallowances == old(suspendDisallowances) + {id}
      ensures machine.View() == old(machine.View()).HandleDisallowSuspend()
      ensures old(machine.Valid()) ==> machine.Valid()
    {
      suspendDisallowances := suspendDisallowances + {id};
      machine.HandleDisallowSuspend();
    }
  }

  // ---------- The two ways to count ----------

  /** The adapter's ids for the service's requests. */
  function Ids(requests: set<Request>): set<string> {
    set r: Request | r in requests :: Decimal(r.1)
  }

  /** The adapter's ids for the service's notifications: sender-0, sender-1, ... */
  ghost function NoteIds(notes: multiset<string>): iset<string> {
    iset sender: string, i: nat | i < notes[sender] :: Tagged(sender, '-', i)
  }

  /** No id is shared, so releasing a request frees exactly its own id. */
  lemma IdsOfRest(requests: set<Request>, r: Request, next: int)
    requires Issued(requests, next) && r in requests
    ensures Ids(requests - {r}) == Ids(requests) - {Decimal(r.1)}
  {
    hide Decimal;
    forall q | q in requests && Decimal(q.1) == Decimal(r.1) ensures q == r {
      DecimalInjective(q.1, r.1);
    }
    forall id | id in Ids(requests) && id != Decimal(r.1) ensures id in Ids(requests - {r}) {
      var q :| q in requests && Decimal(q.1) == id;
      assert q in requests - {r};
    }
  }

  lemma IdsOfMore(requests: set<Request>, r: Request)
    ensures Ids(requests + {r}) == Ids(requests) + {Decimal(r.1)}
  {
    hide Decimal;
    assert r in requests + {r};
    forall id | id in Ids(requests) ensures id in Ids(requests + {r}) {
      var q :| q in requests && Decimal(q.1) == id;
      assert q in requests + {r};
    }
  }

  /** A numeral is not logind's id. */
  lemma LogindIsNoNumeral(requests: set<Request>)
    ensures LOGIND !in Ids(requests)
  {
    forall r | r in requests ensures Decimal(r.1) != LOGIND {
      assert LOGIND[0] == 'L' && !IsDigit('L');
      var s := ToString(if r.1 < 0 then -r.1 else r.1);
      assert s[0] in s;
    }
  }

  /** A sender's next notification id is not in use. */
  lemma NoteIdsOfMore(notes: multiset<string>, sender: string)
    ensures var id := Tagged(sender, '-', notes[sender]);
      id !in NoteIds(notes) && NoteIds(notes + multiset{sender}) == NoteIds(notes) + iset{id}
  {
    var id := Tagged(sender, '-', notes[sender]);
    var more := notes + multiset{sender};
    if id in NoteIds(notes) {
      var q, i: nat :| i < notes[q] && Tagged(q, '-', i) == id;
      TaggedInjective(q, sender, '-', i, notes[sender]);
      assert false;
    }
    forall x | x in NoteIds(notes) + iset{id} ensures x in NoteIds(more) {
      if x == id {
        assert notes[sender] < more[sender];
      } else {
        var q, i: nat :| i < notes[q] && Tagged(q, '-', i) == x;
        assert i < more[q];
      }
    }
    forall x | x in NoteIds(more) ensures x in NoteIds(notes) + iset{id} {
      var q, i: nat :| i < more[q] && Tagged(q, '-', i) == x;
      if i < notes[q] {
      } else {
        assert q == sender && i == notes[sender];
      }
    }
  }

  /** Counts and ids run out together. */
  lemma NoteIdsEmpty(notes: multiset<string>)
    ensures NoteIds(notes) == iset{} <==> notes == multiset{}
  {
    if notes != multiset{} {
      var sender :| sender in notes;
      assert Tagged(sender, '-', 0) in NoteIds(notes);
    }
  }

  lemma IdsEmpty(requests: set<Request>)
    ensures Ids(requests) == {} <==> requests == {}
  {
    hide Decimal;
    if requests != {} {
      var r :| r in requests;
      assert Decimal(r.1) in Ids(requests);
    }
  }

  /** The same with logind's own id set aside. */
  lemma StateIdsOfRest(ids: set<string>, requests: set<Request>, r: Request, next: int)
    requires Issued(requests, next) && r in requests && ids - {LOGIND} == Ids(requests)
    ensures (ids - {Decimal(r.1)}) - {LOGIND} == Ids(requests - {r})
    ensures Decimal(r.1) != LOGIND
    ensures ids - {Decimal(r.1)} == {} <==> requests - {r} == {} && LOGIND !in ids
  {
    hide Issued, Decimal, Ids;
    IdsOfRest(requests, r, next);
    IdsEmpty(requests - {r});
    LogindIsNoNumeral(requests);
    assert Decimal(r.1) in Ids(requests) by { InIds(requests, r); }
  }

  lemma InIds(requests: set<Request>, r: Request)
    requires r in requests
    ensures Decimal(r.1) in Ids(requests)
  {
  }

  /** One of sender-from, ..., sender-(to - 1). */
  ghost predicate Among(sender: string, from: nat, to: nat, id: string) {
    exists i: nat :: from <= i < to && id == Tagged(sender, '-', i)
  }

  lemma AmongAll(rest: multiset<string>, sender: string, count: nat, id: string)
    requires rest[sender] == 0
    ensures id in NoteIds(rest[sender := count]) <==> id in NoteIds(rest) || Among(sender, 0, count, id)
  {
    hide Tagged;
    var all := rest[sender := count];
    if id in NoteIds(all) {
      var q, i: nat :| i < all[q] && Tagged(q, '-', i) == id;
      if q == sender { assert Among(sender, 0, count, id); } else { assert i < rest[q]; }
    }
    if id in NoteIds(rest) {
      var q, i: nat :| i < rest[q] && Tagged(q, '-', i) == id;
      assert i < all[q];
    }
    if Among(sender, 0, count, id) {
      var i: nat :| 0 <= i < count && id == Tagged(sender, '-', i);
      assert i < all[sender];
    }
  }

  /** The first of the remaining ids is there once. */
  lemma AmongFirst(rest: multiset<string>, sender: string, from: nat, to: nat, id: string)
    requires rest[sender] == 0 && from < to
    ensures var first := Tagged(sender, '-', from);
      && (Among(sender, from, to, id) <==> id == first || Among(sender, from + 1, to, id))
      && first !in NoteIds(rest) && !Among(sender, from + 1, to, first)
  {
    hide Tagged;
    var first := Tagged(sender, '-', from);
    if first in NoteIds(rest) {
      var q, i: nat :| i < rest[q] && Tagged(q, '-', i) == first;
      TaggedInjective(q, sender, '-', i, from);
      assert false;
    }
    if Among(sender, from + 1, to, first) {
      var i: nat :| from + 1 <= i < to && first == Tagged(sender, '-', i);
      TaggedInjective(sender, sender, '-', i, from);
      assert false;
    }
  }

  /** What is left once the first remaining id has ended. */
  lemma EndFirst(ids: set<string>, rest: multiset<string>, sender: string, from: nat, to: nat)
    requires rest[sender] == 0 && from < to
    requires forall id :: id in ids <==> id in NoteIds(rest) || Among(sender, from, to, id)
    ensures var first := Tagged(sender, '-', from);
      && first in ids
      && (forall id :: id in ids - {first} <==> id in NoteIds(rest) || Among(sender, from + 1, to, id))
      && (ids - {first} == {} <==> from + 1 == to && rest == multiset{})
  {
    hide Tagged, NoteIds, Among;
    var first := Tagged(sender, '-', from);
    forall id ensures id in ids - {first} <==> id in NoteIds(rest) || Among(sender, from + 1, to, id) {
      AmongFirst(rest, sender, from, to, id);
    }
    AmongFirst(rest, sender, from, to, first);
    NoteIdsEmpty(rest);
    NoneLeft(ids - {first}, rest, sender, from + 1, to);
  }

  lemma NoneLeft(ids: set<string>, rest: multiset<string>, sender: string, from: nat, to: nat)
    requires from <= to
    requires forall id :: id in ids <==> id in NoteIds(rest) || Among(sender, from, to, id)
    ensures ids == {} <==> from == to && rest == multiset{}
  {
    hide Tagged, NoteIds;
    NoteIdsEmpty(rest);
    if from < to {
      assert Among(sender, from, to, Tagged(sender, '-', from));
    } else {
      assert forall id :: !Among(sender, from, to, id);
      if rest != multiset{} {
        var id :| id in NoteIds(rest);
        assert id in ids;
      }
    }
  }

  lemma NoneAmong(sender: string, to: nat, id: string)
    ensures !Among(sender, to, to, id)
  {
  }

  lemma EmptyAlike(ids: set<string>, notes: multiset<string>)
    requires forall id :: id in ids <==> id in NoteIds(notes)
    ensures ids == {} <==> notes == multiset{}
  {
    hide NoteIds;
    NoteIdsEmpty(notes);
    if notes != multiset{} {
      var id :| id in NoteIds(notes);
      assert id in ids;
    }
  }

  // ---------- The service ----------

  datatype Reply = Cookie(text: string) | InvalidState

  class JingosScreenService {
    const adapter: StateEventAdapter

    var keepDisplayOnIds: set<Request>
    var nextKeepDisplayOnId: int
    var requestSysStateIds: set<Request>
    var nextRequestSysStateId: int
    var activeNotifications: multiset<string>

    /** Who holds what, and the machine behind it. */
    ghost function View(): System
      reads this, adapter, adapter.machine, adapter.machine.timer, adapter.machine.ports
    {
      System(
        keepDisplayOnIds, nextKeepDisplayOnId, requestSysStateIds, nextRequestSysStateId,
        activeNotifications, LOGIND in adapter.suspendDisallowances, adapter.machine.View())
    }

    /** The adapter's three id sets name exactly the service's requests. */
    ghost predicate Agrees()
      reads this, adapter
    {
      && KeepAgrees()
      && StatesAgree()
      && NotesAgree()
    }

    ghost predicate KeepAgrees()
      reads `keepDisplayOnIds, `nextKeepDisplayOnId, adapter`inactivityTimeoutDisallowances
    {
      && Issued(keepDisplayOnIds, nextKeepDisplayOnId)
      && adapter.inactivityTimeoutDisallowances == Ids(keepDisplayOnIds)
    }

    ghost predicate StatesAgree()
      reads `requestSysStateIds, `nextRequestSysStateId, adapter`suspendDisallowances
    {
      && Issued(requestSysStateIds, nextRequestSysStateId)
      && adapter.suspendDisallowances - {LOGIND} == Ids(requestSysStateIds)
    }

    ghost predicate NotesAgree()
      reads `activeNotifications, adapter`activeNotifications
    {
      forall id :: id in adapter.activeNotifications <==> id in NoteIds(activeNotifications)
    }

    constructor (adapter: StateEventAdapter)
      requires adapter.inactivityTimeoutDisallowances == {}
      requires adapter.activeNotifications == {} && adapter.suspendDisallowances == {}
      ensures this.adapter == adapter && Agrees()
      ensures View() == System({}, 1, {}, 1, multiset{}, false, adapter.machine.View())
    {
      this.adapter := adapter;
      keepDisplayOnIds, nextKeepDisplayOnId := {}, 1;
      requestSysStateIds, nextRequestSysStateId := {}, 1;
      activeNotifications := multiset{};
    }

    method KeepDisplayOn(sender: string) returns (id: int)
      requires Agrees()
      modifies `keepDisplayOnIds, `nextKeepDisplayOnId, adapter`inactivityTimeoutDisallowances
      modifies adapter.machine, adapter.machine.timer, adapter.machine.ports
      ensures Agrees() && id == old(nextKeepDisplayOnId)
      ensures View() == old(View()).Apply(Call.KeepDisplayOn(sender))
      ensures old(Sound(View())) ==> Sound(View())
    {
      hide Sound, DefaultStateMachine.View, World.HandleDisableInactivityTimeout, Ids, Issued;
      if Sound(View()) { CallKeepsSound(View(), Call.KeepDisplayOn(sender)); }
      id := nextKeepDisplayOnId;
      IdsOfMore(keepDisplayOnIds, (sender, id));
      IssuedStays(keepDisplayOnIds, nextKeepDisplayOnId, {}, sender);
      nextKeepDisplayOnId := nextKeepDisplayOnId + 1;
      keepDisplayOnIds := keepDisplayOnIds + {(sender, id)};
      adapter.HandleDisableInactivityTimeout(Decimal(id));
    }

    method RemoveDisplayOnRequest(sender: string, id: int)
      requires Agrees()
      modifies `keepDisplayOnIds, adapter`inactivityTimeoutDisallowances
      modifies adapter.machine, adapter.machine.timer, adapter.machine.ports
      ensures Agrees()
      ensures View() == old(View()).Apply(Call.RemoveDisplayOnRequest(sender, id))
      ensures old(Sound(View())) ==> Sound(View())
    {
      hide Sound, DefaultStateMachine.View, World.HandleEnableInactivityTimeout, Ids, Issued;
      if Sound(View()) { CallKeepsSound(View(), Call.RemoveDisplayOnRequest(sender, id)); }
      var r := (sender, id);
      if r in keepDisplayOnIds {
        IdsOfRest(keepDisplayOnIds, r, nextKeepDisplayOnId);
        IdsEmpty(keepDisplayOnIds - {r});
        IssuedStays(keepDisplayOnIds, nextKeepDisplayOnId, {r}, "");
        keepDisplayOnIds := keepDisplayOnIds - {r};
        adapter.HandleEnableInactivityTimeout(Decimal(id));
      } else {
        NothingGone(keepDisplayOnIds, {r});
      }
    }

    // ---------- Disconnecting ----------

    /** The adapter is told about each of these requests, in any order. */
    method EnableEach(mine: set<Request>, ghost all: set<Request>, ghost next: int)
      requires Issued(all, next) && mine <= all
      requires adapter.inactivityTimeoutDisallowances == Ids(all)
      modifies adapter`inactivityTimeoutDisallowances
      modifies adapter.machine, adapter.machine.timer, adapter.machine.ports
      ensures adapter.inactivityTimeoutDisallowances == Ids(all - mine)
      ensures adapter.machine.View() ==
        if mine != {} && all - mine == {} then old(adapter.machine.View()).HandleEnableInactivityTimeout()
        else old(adapter.machine.View())
    {
      hide DefaultStateMachine.View, World.HandleEnableInactivityTimeout, Ids, Issued;
      var todo := mine;
      ghost var held := all;
      while todo != {}
        invariant todo <= mine && todo <= held && held - todo == all - mine && Issued(held, next)
        invariant adapter.inactivityTimeoutDisallowances == Ids(held)
        invariant adapter.machine.View() ==
          if mine != {} && held == {} then old(adapter.machine.View()).HandleEnableInactivityTimeout()
          else old(adapter.machine.View())
        decreases |todo|
      {
        var r :| r in todo;
        IdsOfRest(held, r, next);
        IssuedStays(held, next, {r}, "");
        IdsEmpty(held - {r});
        adapter.HandleEnableInactivityTimeout(Decimal(r.1));
        held := held - {r};
        todo := todo - {r};
      }
      assert held == all - mine;
    }

    method AllowEach(mine: set<Request>, ghost all: set<Request>, ghost next: int)
      requires Issued(all, next) && mine <= all
      requires adapter.suspendDisallowances - {LOGIND} == Ids(all)
      modifies adapter`suspendDisallowances
      modifies adapter.machine, adapter.machine.timer, adapter.machine.ports
      ensures adapter.suspendDisallowances - {LOGIND} == Ids(all - mine)
      ensures LOGIND in adapter.suspendDisallowances <==> LOGIND in old(adapter.suspendDisallowances)
      ensures adapter.machine.View() ==
        if mine != {} && all - mine == {} && LOGIND !in adapter.suspendDisallowances then
          old(adapter.machine.View()).HandleAllowSuspend()
        else old(adapter.machine.View())
    {
      hide DefaultStateMachine.View, World.HandleAllowSuspend, Ids, Issued;
      var todo := mine;
      ghost var held := all;
      while todo != {}
        invariant todo <= mine && todo <= held && held - todo == all - mine && Issued(held, next)
        invariant adapter.suspendDisallowances - {LOGIND} == Ids(held)
        invariant LOGIND in adapter.suspendDisallowances <==> LOGIND in old(adapter.suspendDisallowances)
        invariant adapter.machine.View() ==
          if mine != {} && held == {} && LOGIND !in adapter.suspendDisallowances then
            old(adapter.machine.View()).HandleAllowSuspend()
          else old(adapter.machine.View())
        decreases |todo|
      {
        var r :| r in todo;
        StateIdsOfRest(adapter.suspendDisallowances, held, r, next);
        IssuedStays(held, next, {r}, "");
        adapter.HandleAllowSuspend(Decimal(r.1));
        held := held - {r};
        todo := todo - {r};
      }
      assert held == all - mine;
    }

    /** The ids of this sender's `count` notifications end in turn. */
    method EndEach(name: string, count: nat, ghost rest: multiset<string>)
      requires rest[name] == 0
      requires forall id :: id in adapter.activeNotifications <==> id in NoteIds(rest[name := count])
      modifies adapter`activeNotifications
      modifies adapter.machine, adapter.machine.timer, adapter.machine.ports
      ensures forall id :: id in adapter.activeNotifications <==> id in NoteIds(rest)
      ensures adapter.machine.View() ==
        if count != 0 && rest == multiset{} then old(adapter.machine.View()).HandleNoNotification()
        else old(adapter.machine.View())
    {
      hide DefaultStateMachine.View, World.HandleNoNotification, NoteIds, Among, Tagged;
      forall id ensures id in NoteIds(rest[name := count]) <==> id in NoteIds(rest) || Among(name, 0, count, id) {
        AmongAll(rest, name, count, id);
      }
      var i := 0;
      while i < count
        invariant 0 <= i <= count
        invariant forall id :: id in adapter.activeNotifications <==> id in NoteIds(rest) || Among(name, i, count, id)
        invariant adapter.machine.View() ==
          if count != 0 && i == count && rest == multiset{} then old(adapter.machine.View()).HandleNoNotification()
          else old(adapter.machine.View())
      {
        EndFirst(adapter.activeNotifications, rest, name, i, count);
        adapter.HandleNotificationDone(Tagged(name, '-', i));
        i := i + 1;
      }
      forall id ensures !Among(name, count, count, id) {
        NoneAmong(name, count, id);
      }
    }

    method NameOwnerChanged(name: string, oldOwner: string, newOwner: string)
      requires Agrees()
      modifies `keepDisplayOnIds, `requestSysStateIds, `activeNotifications, adapter
      modifies adapter.machine, adapter.machine.timer, adapter.machine.ports
      ensures Agrees()
      ensures View() == old(View()).Apply(Call.NameOwnerChanged(name, oldOwner, newOwner))
      ensures old(Sound(View())) ==> Sound(View())
    {
      hide Sound, DefaultStateMachine.View, System.Release, System.ReleaseStates, System.Leave, Of, Ids, Issued;
      hide NoteIds;
      if Sound(View()) { CallKeepsSound(View(), Call.NameOwnerChanged(name, oldOwner, newOwner)); }
      if newOwner == "" && oldOwner == name {
        ReleaseKeepDisplayOnIds(name);
        ReleaseRequestSysStateIds(name);
        EndNotifications(name);
      }
    }

    method ReleaseKeepDisplayOnIds(name: string)
      requires KeepAgrees()
      modifies `keepDisplayOnIds, adapter`inactivityTimeoutDisallowances
      modifies adapter.machine, adapter.machine.timer, adapter.machine.ports
      ensures KeepAgrees()
      ensures View() == old(View().Release(Of(keepDisplayOnIds, name)))
    {
      hide DefaultStateMachine.View, World.HandleEnableInactivityTimeout, Ids, Issued;
      var mine := Of(keepDisplayOnIds, name);
      IssuedStays(keepDisplayOnIds, nextKeepDisplayOnId, mine, "");
      assert keepDisplayOnIds * mine == mine;
      EnableEach(mine, keepDisplayOnIds, nextKeepDisplayOnId);
      keepDisplayOnIds := keepDisplayOnIds - mine;
    }

    method ReleaseRequestSysStateIds(name: string)
      requires StatesAgree()
      modifies `requestSysStateIds, adapter`suspendDisallowances
      modifies adapter.machine, adapter.machine.timer, adapter.machine.ports
      ensures StatesAgree()
      ensures View() == old(View().ReleaseStates(Of(requestSysStateIds, name)))
    {
      hide DefaultStateMachine.View, World.HandleAllowSuspend, Ids, Issued;
      var mine := Of(requestSysStateIds, name);
      IssuedStays(requestSysStateIds, nextRequestSysStateId, mine, "");
      assert requestSysStateIds * mine == mine;
      AllowEach(mine, requestSysStateIds, nextRequestSysStateId);
      requestSysStateIds := requestSysStateIds - mine;
    }

    method EndNotifications(name: string)
      requires NotesAgree()
      modifies `activeNotifications, adapter`activeNotifications
      modifies adapter.machine, adapter.machine.timer, adapter.machine.ports
      ensures NotesAgree()
      ensures View() == old(View()).Leave(name, 0)
    {
      hide DefaultStateMachine.View, World.HandleNoNotification, NoteIds;
      var count := activeNotifications[name];
      assert activeNotifications[name := 0][name := count] == activeNotifications;
      activeNotifications := activeNotifications[name := 0];
      EndEach(name, count, activeNotifications);
    }

    // ---------- The other calls ----------

    method SetScreenPowerMode(sender: string, mode: string, reason: int, far: bool) returns (known: bool)
      requires Agrees()
      modifies `activeNotifications, adapter`activeNotifications
      modifies adapter.machine, adapter.machine.timer, adapter.machine.ports
      ensures Agrees()
      ensures known == (ForNotification(reason) || ForDisplay(reason))
      ensures View() == old(View()).Apply(Call.SetScreenPowerMode(sender, mode, reason, far))
      ensures old(Sound(View())) ==> Sound(View())
    {
      hide Sound, DefaultStateMachine.View, System.Notified, System.Leave, Ids, Issued, NoteIds;
      hide World.HandleTurnOnDisplay, World.HandleTurnOffDisplay;
      if Sound(View()) { CallKeepsSound(View(), Call.SetScreenPowerMode(sender, mode, reason, far)); }
      if reason == 4 || reason == 5 {
        if mode == "on" {
          BeginNotification(sender, far);
        } else if mode == "off" {
          if sender in activeNotifications { EndNotification(sender); }
        }
        return true;
      } else if reason == 1 || reason == 2 {
        if mode == "on" {
          adapter.machine.HandleTurnOnDisplay();
        } else if mode == "off" {
          adapter.machine.HandleTurnOffDisplay();
        }
        return true;
      }
      return false;
    }

    method BeginNotification(sender: string, far: bool)
      requires NotesAgree()
      modifies `activeNotifications, adapter`activeNotifications
      modifies adapter.machine, adapter.machine.timer, adapter.machine.ports
      ensures NotesAgree()
      ensures View() == old(View()).Notified(sender, far)
    {
      hide DefaultStateMachine.View, World.HandleNotification, NoteIds, Tagged;
      var id := Tagged(sender, '-', activeNotifications[sender]);
      NoteIdsOfMore(activeNotifications, sender);
      activeNotifications := activeNotifications + multiset{sender};
      adapter.HandleNotification(id, far);
    }

    method EndNotification(sender: string)
      requires NotesAgree() && sender in activeNotifications
      modifies `activeNotifications, adapter`activeNotifications
      modifies adapter.machine, adapter.machine.timer, adapter.machine.ports
      ensures NotesAgree()
      ensures View() == old(View()).Leave(sender, old(activeNotifications)[sender] - 1)
    {
      hide DefaultStateMachine.View, World.HandleNoNotification, NoteIds, Tagged;
      ghost var before := activeNotifications;
      activeNotifications := activeNotifications[sender := activeNotifications[sender] - 1];
      NoteIdsOfMore(activeNotifications, sender);
      assert activeNotifications + multiset{sender} == before;
      NoteIdsEmpty(activeNotifications);
      var id := Tagged(sender, '-', activeNotifications[sender]);
      EmptyAlike(adapter.activeNotifications - {id}, activeNotifications);
      adapter.HandleNotificationDone(id);
    }

    method RequestSysState(sender: string, state: int) returns (reply: Reply)
      requires Agrees()
      modifies `requestSysStateIds, `nextRequestSysStateId, adapter`suspendDisallowances
      modifies adapter.machine, adapter.machine.timer, adapter.machine.ports
      ensures Agrees()
      ensures reply == if state == ACTIVE_STATE then Cookie(Decimal(old(nextRequestSysStateId))) else InvalidState
      ensures View() == old(View()).Apply(Call.RequestSysState(sender, state))
      ensures old(Sound(View())) ==> Sound(View())
    {
      hide Sound, DefaultStateMachine.View, World.HandleDisallowSuspend, Ids, Issued, Decimal, NoteIds;
      if Sound(View()) { CallKeepsSound(View(), Call.RequestSysState(sender, state)); }
      if state != ACTIVE_STATE { return InvalidState; }
      var id := nextRequestSysStateId;
      var r := (sender, id);
      IdsOfMore(requestSysStateIds, r);
      IssuedStays(requestSysStateIds, nextRequestSysStateId, {}, sender);
      LogindIsNoNumeral(requestSysStateIds + {r});
      InIds(requestSysStateIds + {r}, r);
      nextRequestSysStateId := nextRequestSysStateId + 1;
      requestSysStateIds := requestSysStateIds + {r};
      adapter.HandleDisallowSuspend(Decimal(id));
      return Cookie(Decimal(id));
    }

    method ClearSysState(sender: string, cookie: string)
      requires Agrees()
      modifies `requestSysStateIds, adapter`suspendDisallowances
      modifies adapter.machine, adapter.machine.timer, adapter.machine.ports
      ensures Agrees()
      ensures View() == old(View()).Apply(Call.ClearSysState(sender, cookie))
      ensures old(Sound(View())) ==> Sound(View())
    {
      hide Sound, DefaultStateMachine.View, World.HandleAllowSuspend, Ids, Issued, Decimal, Number, NoteIds;
      if Sound(View()) { CallKeepsSound(View(), Call.ClearSysState(sender, cookie)); }
      var id := Number(cookie);
      var r := (sender, id);
      if r in requestSysStateIds {
        StateIdsOfRest(adapter.suspendDisallowances, requestSysStateIds, r, nextRequestSysStateId);
        IssuedStays(requestSysStateIds, nextRequestSysStateId, {r}, "");
        requestSysStateIds := requestSysStateIds - {r};
        adapter.HandleAllowSuspend(Decimal(id));
      } else {
        NothingGone(requestSysStateIds, {r});
      }
    }

    /** Logind's own suspend block is filed with the adapter too. */
    method SystemBlocksSuspend(blocked: bool)
      requires Agrees()
      modifies adapter`suspendDisallowances, adapter.machine, adapter.machine.timer, adapter.machine.ports
      ensures Agrees()
      ensures View() == old(View()).Apply(if blocked then SystemDisallowsSuspend else SystemAllowsSuspend)
      ensures old(Sound(View())) ==> Sound(View())
    {
      hide Sound, DefaultStateMachine.View, World.HandleAllowSuspend, World.HandleDisallowSuspend, Ids, Issued, NoteIds;
      if Sound(View()) { CallKeepsSound(View(), if blocked then SystemDisallowsSuspend else SystemAllowsSuspend); }
      LogindIsNoNumeral(requestSysStateIds);
      IdsEmpty(requestSysStateIds);
      if blocked {
        adapter.HandleDisallowSuspend(LOGIND);
      } else {
        adapter.HandleAllowSuspend(LOGIND);
      }
    }
  }
}
