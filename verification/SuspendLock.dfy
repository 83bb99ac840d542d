/** The wake lock that keeps the system from suspending: counted by the ids that disallow it, and
    held through timed windows. */
module SuspendLock {
  import opened Text

  // The id under which every session's machine disallows suspending.
  const MACHINE: string := "repowerd_default_state_machine"

  /** Who disallows suspending, and what was asked of the kernel. */
  datatype Lock = Lock(ids: set<string>, held: bool, acquired: nat, released: nat)
  {
    function Disallow(id: string): Lock {
      var l := this.(ids := ids + {id});
      if ids == {} then l.(held := true, acquired := acquired + 1) else l
    }

    function Allow(id: string): Lock {
      var l := this.(ids := ids - {id});
      if id in ids && l.ids == {} then l.(held := false, released := released + 1) else l
    }

    /** The lock is held exactly while somebody disallows suspending, and the requests to the
        kernel alternate. */
    predicate Valid() {
      && (held <==> ids != {})
      && acquired == released + (if held then 1 else 0)
    }
  }

  const UNLOCKED := Lock({}, false, 0, 0)

  lemma LockKeeps(l: Lock, id: string)
    requires l.Valid()
    ensures l.Disallow(id).Valid() && l.Allow(id).Valid()
    ensures l.Disallow(id).held
    ensures l.Allow(id).held <==> l.ids - {id} != {}
  {
    if id !in l.ids {
      assert l.ids - {id} == l.ids;
    }
    assert id in l.Disallow(id).ids;
  }

  /** Allowing undoes disallowing. */
  lemma AllowUndoesDisallow(l: Lock, id: string)
    requires l.Valid() && id !in l.ids
    ensures var m := l.Disallow(id).Allow(id);
      m.ids == l.ids && m.held == l.held
  {
    assert l.ids + {id} - {id} == l.ids;
  }

  class LibsuspendSystemPowerControl {
    var suspendDisallowances: set<string>
    var wakeLockHeld: bool
    var acquired: nat
    var released: nat

    function View(): Lock
      reads this
    {
      Lock(suspendDisallowances, wakeLockHeld, acquired, released)
    }

    constructor ()
      ensures View() == UNLOCKED && View().Valid()
    {
      suspendDisallowances, wakeLockHeld, acquired, released := {}, false, 0, 0;
    }

    method AllowAutomaticSuspend(id: string)
      modifies this
      ensures View() == old(View()).Allow(id)
      ensures old(View().Valid()) ==> View().Valid()
    {
      if View().Valid() { LockKeeps(View(), id); }
      var erased := id in suspendDisallowances;
      suspendDisallowances := suspendDisallowances - {id};
      if erased && suspendDisallowances == {} {
        ReleaseWakeLock();
      }
    }

    method DisallowAutomaticSuspend(id: string)
      modifies this
      ensures View() == old(View()).Disallow(id)
      ensures old(View().Valid()) ==> View().Valid()
    {
      if View().Valid() { LockKeeps(View(), id); }
      var couldBeSuspended := suspendDisallowances == {};
      suspendDisallowances := suspendDisallowances + {id};
      if couldBeSuspended {
        AcquireWakeLock();
      }
    }

    method AcquireWakeLock()
      modifies `wakeLockHeld, `acquired
      ensures wakeLockHeld && acquired == old(acquired) + 1
    {
      wakeLockHeld, acquired := true, acquired + 1;
    }

    method ReleaseWakeLock()
      modifies `wakeLockHeld, `released
      ensures !wakeLockHeld && released == old(released) + 1
    {
      wakeLockHeld, released := false, released + 1;
    }
  }

  // ---------- Timed windows ----------

  /** `windows` tells when each open window is due to close. */
  datatype Inhibitions = Inhibitions(lock: Lock, next: nat, windows: map<string, int>, now: nat)
  {
    function Inhibit(timeout: int, name: string): Inhibitions {
      var id := Tagged(name, '_', next);
      this.(lock := lock.Disallow(id), next := next + 1, windows := windows[id := now + timeout])
    }

    function Close(id: string): Inhibitions {
      this.(lock := lock.Allow(id), windows := windows - {id})
    }
  }

  datatype Event =
    | InhibitFor(timeout: int, name: string) | Closes(id: string)
    | MachineDisallows | MachineAllows | Passes(t: nat)

  function Step(s: Inhibitions, e: Event): Inhibitions {
    match e
    case InhibitFor(timeout, name) => s.Inhibit(timeout, name)
    case Closes(id) => s.Close(id)
    case MachineDisallows => s.(lock := s.lock.Disallow(MACHINE))
    case MachineAllows => s.(lock := s.lock.Allow(MACHINE))
    case Passes(t) => s.(now := s.now + t)
  }

  /** A window closes once, and not before it is due. */
  predicate Possible(s: Inhibitions, e: Event) {
    e.Closes? ==> e.id in s.windows && s.windows[e.id] <= s.now
  }

  ghost predicate PossibleRun(s: Inhibitions, es: seq<Event>)
    decreases |es|
  {
    es == [] || (Possible(s, es[0]) && PossibleRun(Step(s, es[0]), es[1..]))
  }

  ghost function Run(s: Inhibitions, es: seq<Event>): Inhibitions
    decreases |es|
  {
    if es == [] then s else Run(Step(s, es[0]), es[1..])
  }

  /** One of the ids given to windows so far. */
  ghost predicate Given(id: string, next: nat) {
    exists name: string, n: nat :: n < next && id == Tagged(name, '_', n)
  }

  /** The lock is valid, and besides the machine exactly the open windows hold it. */
  ghost predicate Covered(s: Inhibitions) {
    && s.lock.Valid()
    && (forall id :: id in s.windows ==> Given(id, s.next))
    && s.lock.ids - {MACHINE} == s.windows.Keys
  }

  /** The machine's id is no window's: it does not end in a digit. */
  lemma MachineIsNoWindow(name: string, n: nat)
    ensures Tagged(name, '_', n) != MACHINE
  {
    TaggedEndsInDigit(name, '_', n);
    assert !IsDigit(MACHINE[|MACHINE| - 1]);
  }

  /** The id of a new window was never given before, whatever its name. */
  lemma NewIdIsFresh(name: string, next: nat)
    ensures !Given(Tagged(name, '_', next), next)
  {
    hide Tagged;
    if Given(Tagged(name, '_', next), next) {
      var other: string, n: nat :| n < next && Tagged(name, '_', next) == Tagged(other, '_', n);
      TaggedInjective(name, other, '_', next, n);
      assert false;
    }
  }

  lemma StepKeepsCovered(s: Inhibitions, e: Event)
    requires Covered(s) && Possible(s, e)
    ensures Covered(Step(s, e))
  {
    hide Tagged, Lock.Disallow, Lock.Allow, Given, Lock.Valid;
    match e
    case InhibitFor(timeout, name) =>
      var id := Tagged(name, '_', s.next);
      LockKeeps(s.lock, id);
      LockIds(s.lock, id);
      MachineIsNoWindow(name, s.next);
      GivenLater(s.next);
      assert Given(id, s.next + 1) by { JustGiven(name, s.next); }
    case Closes(id) =>
      LockKeeps(s.lock, id);
      LockIds(s.lock, id);
    case MachineDisallows =>
      LockKeeps(s.lock, MACHINE);
      LockIds(s.lock, MACHINE);
    case MachineAllows =>
      LockKeeps(s.lock, MACHINE);
      LockIds(s.lock, MACHINE);
    case Passes(_) =>
  }

  lemma LockIds(l: Lock, id: string)
    ensures l.Disallow(id).ids == l.ids + {id} && l.Allow(id).ids == l.ids - {id}
  {
  }

  lemma JustGiven(name: string, n: nat)
    ensures Given(Tagged(name, '_', n), n + 1)
  {
  }

  lemma GivenLater(next: nat)
    ensures forall id :: Given(id, next) ==> Given(id, next + 1)
  {
    forall id | Given(id, next) ensures Given(id, next + 1) {
      var name: string, n: nat :| n < next && id == Tagged(name, '_', n);
      assert n < next + 1;
    }
  }

  /** A window stays open, with the same end, until it is due. */
  lemma StepKeepsWindow(s: Inhibitions, e: Event, id: string)
    requires Covered(s) && Possible(s, e) && id in s.windows
    ensures s.now <= Step(s, e).now
    ensures Step(s, e).now < s.windows[id] ==> id in Step(s, e).windows && Step(s, e).windows[id] == s.windows[id]
  {
    hide Tagged, Lock.Disallow, Lock.Allow, Given;
    if e.InhibitFor? {
      NewIdIsFresh(e.name, s.next);
    }
  }

  lemma {:induction false} RunKeepsWindow(s: Inhibitions, es: seq<Event>, id: string)
    requires Covered(s) && PossibleRun(s, es) && id in s.windows
    ensures Covered(Run(s, es)) && s.now <= Run(s, es).now
    ensures Run(s, es).now < s.windows[id] ==> id in Run(s, es).windows
    decreases |es|
  {
    hide Step, Possible, Covered;
    if es != [] {
      StepKeepsCovered(s, es[0]);
      StepKeepsWindow(s, es[0], id);
      var v := Step(s, es[0]);
      if id in v.windows {
        RunKeepsWindow(v, es[1..], id);
      } else {
        RunGoesOn(v, es[1..]);
      }
    }
  }

  lemma {:induction false} RunGoesOn(s: Inhibitions, es: seq<Event>)
    requires Covered(s) && PossibleRun(s, es)
    ensures Covered(Run(s, es)) && s.now <= Run(s, es).now
    decreases |es|
  {
    hide Covered, Possible, Lock.Allow, Lock.Disallow, Tagged;
    if es != [] {
      StepKeepsCovered(s, es[0]);
      RunGoesOn(Step(s, es[0]), es[1..]);
    }
  }

  /** An inhibition covers its whole window: whatever the machine and other, overlapping windows
      do, the wake lock is held at every moment before the timeout has passed. */
  lemma HeldThroughoutWindow(s: Inhibitions, timeout: int, name: string, es: seq<Event>)
    requires Covered(s) && PossibleRun(s.Inhibit(timeout, name), es)
    ensures var v := Run(s.Inhibit(timeout, name), es);
      && (v.lock.held <==> v.lock.ids != {})
      && (v.now < s.now + timeout ==> v.lock.held)
  {
    hide Tagged, Given, Lock.Disallow, Lock.Allow, Inhibitions.Inhibit;
    var u := s.Inhibit(timeout, name);
    StepKeepsCovered(s, InhibitFor(timeout, name));
    Opened(s, timeout, name);
    RunKeepsWindow(u, es, Tagged(name, '_', s.next));
  }

  lemma Opened(s: Inhibitions, timeout: int, name: string)
    ensures var u := s.Inhibit(timeout, name);
      Tagged(name, '_', s.next) in u.windows && u.windows[Tagged(name, '_', s.next)] == s.now + timeout
  {
  }

  // ---------- What came before ----------

  lemma {:induction false} RunOfMore(s: Inhibitions, es: seq<Event>, e: Event)
    requires PossibleRun(s, es + [e])
    ensures PossibleRun(s, es) && Possible(Run(s, es), e) && Run(s, es + [e]) == Step(Run(s, es), e)
    decreases |es|
  {
    hide Possible, Step;
    if es == [] {
      assert [e][1..] == [];
      assert Run(Step(s, e), []) == Step(s, e);
    } else {
      assert (es + [e])[1..] == es[1..] + [e];
      RunOfMore(Step(s, es[0]), es[1..], e);
    }
  }

  const START := Inhibitions(UNLOCKED, 0, map[], 0)

  /** Of machine and windows, who has asked to hold off suspending and not yet given it back; windows
      are numbered in the order in which they are asked for. */
  function Holders(es: seq<Event>): set<string>
    decreases |es|
  {
    if es == [] then {}
    else
      var init := es[..|es| - 1];
      match es[|es| - 1]
      case InhibitFor(_, name) => Holders(init) + {Tagged(name, '_', Asked(init))}
      case Closes(id) => Holders(init) - {id}
      case MachineDisallows => Holders(init) + {MACHINE}
      case MachineAllows => Holders(init) - {MACHINE}
      case Passes(_) => Holders(init)
  }

  function Asked(es: seq<Event>): nat
    decreases |es|
  {
    if es == [] then 0 else Asked(es[..|es| - 1]) + (if es[|es| - 1].InhibitFor? then 1 else 0)
  }

  function Passed(es: seq<Event>): nat
    decreases |es|
  {
    if es == [] then 0
    else Passed(es[..|es| - 1]) + (if es[|es| - 1].Passes? then es[|es| - 1].t else 0)
  }

  lemma {:induction false} HeldByHolders(es: seq<Event>)
    requires PossibleRun(START, es)
    ensures var s := Run(START, es);
      s.lock.ids == Holders(es) && s.next == Asked(es) && s.now == Passed(es) && Covered(s)
    decreases |es|
  {
    hide Covered, Possible, Lock.Disallow, Lock.Allow, Tagged;
    if es == [] {
      StartIsCovered();
    } else {
      var init, e := es[..|es| - 1], es[|es| - 1];
      assert es == init + [e];
      RunOfMore(START, init, e);
      HeldByHolders(init);
      var s := Run(START, init);
      StepKeepsCovered(s, e);
      LockIds(s.lock, MACHINE);
      match e
      case InhibitFor(_, name) => LockIds(s.lock, Tagged(name, '_', s.next));
      case Closes(id) => LockIds(s.lock, id);
      case _ =>
    }
  }

  lemma StartIsCovered()
    ensures Covered(START)
  {
    assert START.lock.ids - {MACHINE} == START.windows.Keys;
  }

  /** Over every run the wake lock is held exactly while somebody has asked to hold off suspending and
      not given it back: the machine, or a window that has not been closed. */
  lemma LockFollowsHolders(es: seq<Event>)
    requires PossibleRun(START, es)
    ensures Run(START, es).lock.held <==> Holders(es) != {}
  {
    hide Possible, Step;
    HeldByHolders(es);
  }

  /** A window can be closed as soon as its timeout has passed, and then it holds nothing any more. */
  lemma WindowCanClose(es: seq<Event>, timeout: nat, name: string)
    requires PossibleRun(START, es)
    ensures var s := Run(START, es);
      var id := Tagged(name, '_', Asked(es));
      var run := [InhibitFor(timeout, name), Passes(timeout), Closes(id)];
      && PossibleRun(s, run)
      && Run(s, run).lock.ids == s.lock.ids && Run(s, run).lock.held == s.lock.held
  {
    hide Tagged, Lock.Disallow, Lock.Allow;
    HeldByHolders(es);
    var s := Run(START, es);
    var id := Tagged(name, '_', s.next);
    NotYetHeld(s, name);
    LockKeeps(s.lock, id);
    AllowUndoesDisallow(s.lock, id);
    var u := Step(s, InhibitFor(timeout, name));
    var v := Step(u, Passes(timeout));
    var w := Step(v, Closes(id));
    var run := [InhibitFor(timeout, name), Passes(timeout), Closes(id)];
    assert run[1..] == [Passes(timeout), Closes(id)] && run[1..][1..] == [Closes(id)] && run[1..][1..][1..] == [];
    assert PossibleRun(w, []) && Run(w, []) == w;
    assert PossibleRun(v, [Closes(id)]) && Run(v, [Closes(id)]) == w;
    assert PossibleRun(u, run[1..]) && Run(u, run[1..]) == w;
  }

  lemma NotYetHeld(s: Inhibitions, name: string)
    requires Covered(s)
    ensures Tagged(name, '_', s.next) !in s.lock.ids
  {
    hide Tagged;
    MachineIsNoWindow(name, s.next);
    NewIdIsFresh(name, s.next);
    var id := Tagged(name, '_', s.next);
    assert id in s.lock.ids - {MACHINE} <==> id in s.windows;
  }

  // ---------- The inhibitor as an object ----------

  class RealTemporarySuspendInhibition {
    const systemPowerControl: LibsuspendSystemPowerControl

    var id: nat
    var scheduled: map<string, int>
    var now: nat

    function View(): Inhibitions
      reads this, systemPowerControl
    {
      Inhibitions(systemPowerControl.View(), id, scheduled, now)
    }

    constructor (systemPowerControl: LibsuspendSystemPowerControl)
      ensures this.systemPowerControl == systemPowerControl
      ensures View() == Inhibitions(systemPowerControl.View(), 0, map[], 0)
      ensures systemPowerControl.View() == UNLOCKED ==> Covered(View())
    {
      this.systemPowerControl := systemPowerControl;
      id, scheduled, now := 0, map[], 0;
    }

    method InhibitSuspendFor(timeout: int, name: string)
      modifies this, systemPowerControl
      ensures View() == old(View()).Inhibit(timeout, name)
      ensures old(Covered(View())) ==> Covered(View())
    {
      hide Covered, Tagged;
      if Covered(View()) { StepKeepsCovered(View(), InhibitFor(timeout, name)); }
      var suspendId := Tagged(name, '_', id);
      id := id + 1;
      systemPowerControl.DisallowAutomaticSuspend(suspendId);
      scheduled := scheduled[suspendId := now + timeout];
    }

    /** The event loop runs the release scheduled for this window. */
    method RunRelease(suspendId: string)
      modifies this, systemPowerControl
      ensures View() == old(View()).Close(suspendId)
      ensures old(Covered(View()) && Possible(View(), Closes(suspendId))) ==> Covered(View())
    {
      hide Covered;
      if Covered(View()) && Possible(View(), Closes(suspendId)) { StepKeepsCovered(View(), Closes(suspendId)); }
      scheduled := scheduled - {suspendId};
      systemPowerControl.AllowAutomaticSuspend(suspendId);
    }
  }
}
