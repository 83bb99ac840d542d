/** The suspend thread and the calls that enable and disable it, interleaved step by step over
    their semaphore. */
module Autosuspend {

  // Microseconds.
  const BASE_SLEEP_TIME: int := 100000
  const MAX_SLEEP_TIME: int := 60000000

  function Min(a: int, b: int): int {
    if a < b then a else b
  }

  /** Where the suspend thread is. */
  datatype Thread = NotCreated | LoopTop | Asleep | AtWait | Inside | Suspending | AtPost

  /** Where the caller of enable or disable is. */
  datatype Caller = Free | EnableBegun | EnablePosted | DisableBegun | DisableWaited

  /** `wakeups` is the kernel's count of wakeup events, `remembered` what the thread last read of it. */
  datatype State = State(
    semaphore: nat,
    thread: Thread,
    caller: Caller,
    enabled: bool,
    success: bool,
    sleepTime: int,
    failures: nat,
    lost: nat,
    suspends: nat,
    wakeups: nat,
    remembered: nat)
  {
    predicate Working() {
      thread == Inside || thread == Suspending || thread == AtPost
    }

    function Tokens(): nat {
      semaphore + lost + (if Working() then 1 else 0)
    }

    /** What the caller has already done to the semaphore but not yet to the flag. */
    function Expected(): int {
      (if enabled then 1 else 0)
      + (if caller == EnablePosted then 1 else 0)
      - (if caller == DisableWaited then 1 else 0)
    }

    function UpdateSleepTime(): State {
      if success then this.(sleepTime := BASE_SLEEP_TIME, failures := 0)
      else this.(sleepTime := Min(sleepTime * 2, MAX_SLEEP_TIME), failures := failures + 1)
    }
  }

  datatype Event =
    | CallEnable | EnableInitFails | EnablePosts(posted: bool) | EnableSetsFlag
    | CallDisable | DisableWaits(waited: bool) | DisableClearsFlag
    | ThreadSleeps | ThreadReads(read: bool) | ThreadWaits(entered: bool)
    | ThreadWrites(written: bool) | ThreadSuspends(suspended: bool) | ThreadPosts(released: bool)
    | WakeupCounted

  /** A step is possible where its owner stands there. Waiting for the semaphore succeeds only when it
      is positive, and the kernel takes a wakeup count only while it is still the current one; both may
      fail at any time. */
  predicate Possible(s: State, e: Event) {
    match e
    case CallEnable => s.caller == Free
    case EnableInitFails => s.caller == EnableBegun && s.thread == NotCreated
    case EnablePosts(_) => s.caller == EnableBegun
    case EnableSetsFlag => s.caller == EnablePosted
    case CallDisable => s.caller == Free
    case DisableWaits(waited) => s.caller == DisableBegun && (waited ==> s.semaphore > 0)
    case DisableClearsFlag => s.caller == DisableWaited
    case ThreadSleeps => s.thread == LoopTop
    case ThreadReads(_) => s.thread == Asleep
    case ThreadWaits(entered) => s.thread == AtWait && (entered ==> s.semaphore > 0)
    case ThreadWrites(written) => s.thread == Inside && (written ==> s.remembered == s.wakeups)
    case ThreadSuspends(_) => s.thread == Suspending
    case ThreadPosts(_) => s.thread == AtPost
    case WakeupCounted => true
  }

  function Step(s: State, e: Event): State
    requires Possible(s, e)
  {
    match e
    // Enabling what is enabled, and disabling what is not, returns at once.
    case CallEnable => if s.enabled then s else s.(caller := EnableBegun)
    case EnableInitFails => s.(caller := Free)
    case EnablePosts(posted) =>
      var s := if s.thread == NotCreated then s.(thread := LoopTop, success := true) else s;
      if posted then s.(semaphore := s.semaphore + 1, caller := EnablePosted) else s.(caller := Free)
    case EnableSetsFlag => s.(enabled := true, caller := Free)
    case CallDisable => if !s.enabled then s else s.(caller := DisableBegun)
    case DisableWaits(waited) =>
      if waited then s.(semaphore := s.semaphore - 1, caller := DisableWaited) else s.(caller := Free)
    case DisableClearsFlag => s.(enabled := false, caller := Free)
    case ThreadSleeps => s.UpdateSleepTime().(success := false, thread := Asleep)
    case ThreadReads(read) =>
      if read then s.(remembered := s.wakeups, thread := AtWait) else s.(thread := LoopTop)
    case ThreadWaits(entered) =>
      if entered then s.(semaphore := s.semaphore - 1, thread := Inside) else s.(thread := LoopTop)
    case ThreadWrites(written) => s.(thread := if written then Suspending else AtPost)
    case ThreadSuspends(suspended) => s.(success := suspended, suspends := s.suspends + 1, thread := AtPost)
    case ThreadPosts(released) =>
      if released then s.(semaphore := s.semaphore + 1, thread := LoopTop)
      else s.(lost := s.lost + 1, thread := LoopTop)
    case WakeupCounted => s.(wakeups := s.wakeups + 1)
  }

  const START := State(0, NotCreated, Free, false, true, BASE_SLEEP_TIME, 0, 0, 0, 0, 0)

  ghost predicate PossibleRun(s: State, es: seq<Event>)
    decreases |es|
  {
    es == [] || (Possible(s, es[0]) && PossibleRun(Step(s, es[0]), es[1..]))
  }

  ghost function Run(s: State, es: seq<Event>): State
    requires PossibleRun(s, es)
    decreases |es|
  {
    if es == [] then s else Run(Step(s, es[0]), es[1..])
  }

  // ---------- One token ----------

  /** The semaphore, the thread at work and what was lost make up exactly what was enabled. */
  predicate Balanced(s: State) {
    && s.Tokens() == s.Expected()
    && (s.caller == EnableBegun || s.caller == EnablePosted ==> !s.enabled)
    && (s.caller == DisableBegun || s.caller == DisableWaited ==> s.enabled)
    && (s.thread == NotCreated ==> s.success && s.failures == 0 && !s.enabled && s.caller != EnablePosted)
  }

  function Power2(k: nat): nat {
    if k == 0 then 1 else 2 * Power2(k - 1)
  }

  /** After `k` failed rounds in a row the sleep time is 100 ms doubled `k` times, but no more than
      a minute; a successful round starts over. */
  predicate BackedOff(s: State) {
    s.sleepTime == Min(BASE_SLEEP_TIME * Power2(s.failures), MAX_SLEEP_TIME)
  }

  lemma StepKeepsBalance(s: State, e: Event)
    requires Balanced(s) && Possible(s, e)
    ensures Balanced(Step(s, e))
  {
  }

  lemma PowerIsPositive(k: nat)
    ensures Power2(k) >= 1
  {
  }

  lemma StepBacksOff(s: State, e: Event)
    requires BackedOff(s) && Possible(s, e)
    ensures BackedOff(Step(s, e))
  {
    PowerIsPositive(s.failures);
  }

  lemma {:induction false} RunKeeps(s: State, es: seq<Event>)
    requires Balanced(s) && BackedOff(s) && PossibleRun(s, es)
    ensures Balanced(Run(s, es)) && BackedOff(Run(s, es))
    decreases |es|
  {
    hide Balanced, BackedOff, Possible, Step;
    if es != [] {
      StepKeepsBalance(s, es[0]);
      StepBacksOff(s, es[0]);
      RunKeeps(Step(s, es[0]), es[1..]);
    }
  }

  /** Over all interleavings, with no call in progress: the semaphore plus the thread at work is
      one when enabled and zero when not, as long as no release of the semaphore has failed. */
  lemma SemaphoreCountsEnabled(es: seq<Event>)
    requires PossibleRun(START, es)
    ensures var s := Run(START, es);
      s.caller == Free && s.lost == 0 ==>
        s.semaphore + (if s.Working() then 1 else 0) == (if s.enabled then 1 else 0)
  {
    RunKeeps(START, es);
  }

  /** Once disabling has returned there is no suspend in progress, and the thread cannot begin one
      before somebody enables again. */
  lemma DisabledMeansAwake(es: seq<Event>)
    requires PossibleRun(START, es)
    ensures var s := Run(START, es);
      !s.enabled && s.caller != EnablePosted ==>
        && !s.Working() && s.semaphore == 0
        && !Possible(s, ThreadWaits(true))
        && forall b :: !Possible(s, ThreadSuspends(b))
  {
    RunKeeps(START, es);
  }

  predicate OfThread(e: Event) {
    || e.ThreadSleeps? || e.ThreadReads? || e.ThreadWaits? || e.ThreadWrites?
    || e.ThreadSuspends? || e.ThreadPosts? || e.WakeupCounted?
  }

  /** So the number of suspends stands still while only the thread runs and wakeups are counted. */
  lemma {:induction false} NoSuspendWhileDisabled(s: State, es: seq<Event>)
    requires Balanced(s) && !s.enabled && s.caller == Free
    requires PossibleRun(s, es) && forall i :: 0 <= i < |es| ==> OfThread(es[i])
    ensures Run(s, es).suspends == s.suspends && !Run(s, es).enabled
    decreases |es|
  {
    if es != [] {
      StepKeepsBalance(s, es[0]);
      NoSuspendWhileDisabled(Step(s, es[0]), es[1..]);
    }
  }

  /** If a release of the semaphore fails the token is gone: the thread never works again, and
      disabling cannot succeed any more. */
  lemma LostReleaseIsFinal(es: seq<Event>)
    requires PossibleRun(START, es)
    ensures var s := Run(START, es);
      s.lost > 0 ==>
        && s.lost == 1 && s.semaphore == 0 && !s.Working()
        && !Possible(s, ThreadWaits(true)) && !Possible(s, DisableWaits(true))
  {
    RunKeeps(START, es);
  }

  // ---------- What came before ----------

  lemma {:induction false} RunOfMore(s: State, es: seq<Event>, e: Event)
    requires PossibleRun(s, es + [e])
    ensures PossibleRun(s, es) && Possible(Run(s, es), e) && Run(s, es + [e]) == Step(Run(s, es), e)
    decreases |es|
  {
    hide Possible, Step;
    if es == [] {
      assert [e][1..] == [];
      assert Run(Step(s, e), []) == Step(s, e);
    } else {
      assert (es + [e])[1..] == es[1..] + [e];
      RunOfMore(Step(s, es[0]), es[1..], e);
    }
  }

  function One(b: bool): nat {
    if b then 1 else 0
  }

  /** The rounds of the thread, counted step by step: every step of a round was reached through the
      successful step before it. */
  ghost predicate InOrder(s: State, n: multiset<Event>) {
    && n[ThreadReads(true)] + n[ThreadReads(false)] + One(s.thread == Asleep) == n[ThreadSleeps]
    && n[ThreadWaits(true)] + n[ThreadWaits(false)] + One(s.thread == AtWait) == n[ThreadReads(true)]
    && n[ThreadWrites(true)] + n[ThreadWrites(false)] + One(s.thread == Inside) == n[ThreadWaits(true)]
    && n[ThreadSuspends(true)] + n[ThreadSuspends(false)] == s.suspends
    && s.suspends + One(s.thread == Suspending) == n[ThreadWrites(true)]
    && n[ThreadPosts(true)] + n[ThreadPosts(false)] + One(s.Working()) == n[ThreadWaits(true)]
  }

  lemma StepInOrder(s: State, e: Event, n: multiset<Event>)
    requires InOrder(s, n) && Possible(s, e)
    ensures InOrder(Step(s, e), n + multiset{e})
  {
    hide State.Tokens, State.Expected;
    if e.ThreadReads? || e.ThreadWaits? || e.ThreadWrites? || e.ThreadSuspends? || e.ThreadPosts? {
      RoundStepInOrder(s, e, n);
    }
  }

  lemma RoundStepInOrder(s: State, e: Event, n: multiset<Event>)
    requires InOrder(s, n) && Possible(s, e)
    requires e.ThreadReads? || e.ThreadWaits? || e.ThreadWrites? || e.ThreadSuspends? || e.ThreadPosts?
    ensures InOrder(Step(s, e), n + multiset{e})
  {
    hide State.Tokens, State.Expected, State.UpdateSleepTime;
  }

  /** The system is suspended once for each wakeup count that the kernel took, which happens only
      inside the semaphore and after a count was read: over every run the steps of the thread's rounds
      count up in this order, and each entry is left again by one release. */
  lemma {:induction false} SuspendsFollowWrites(es: seq<Event>)
    requires PossibleRun(START, es)
    ensures InOrder(Run(START, es), multiset(es))
    decreases |es|
  {
    hide InOrder, Possible, Step;
    if es == [] {
      NothingInOrder();
    } else {
      var init, e := es[..|es| - 1], es[|es| - 1];
      assert es == init + [e];
      RunOfMore(START, init, e);
      SuspendsFollowWrites(init);
      StepInOrder(Run(START, init), e, multiset(init));
    }
  }

  lemma NothingInOrder()
    ensures InOrder(START, multiset{})
  {
  }

  /** No wakeup was counted since the thread last read the count. */
  ghost predicate Undisturbed(es: seq<Event>)
    decreases |es|
  {
    es != []
    && var e := es[|es| - 1];
       e == ThreadReads(true) || (e != WakeupCounted && Undisturbed(es[..|es| - 1]))
  }

  /** How many wakeups were counted, and how many of them before the thread last read the count. */
  lemma {:induction false} RemembersLastRead(es: seq<Event>)
    requires PossibleRun(START, es)
    ensures var s := Run(START, es);
      && s.remembered <= s.wakeups
      && (ThreadReads(true) in es && s.remembered == s.wakeups ==> Undisturbed(es))
    decreases |es|
  {
    if es != [] {
      var init, e := es[..|es| - 1], es[|es| - 1];
      assert es == init + [e];
      RunOfMore(START, init, e);
      RemembersLastRead(init);
    }
  }

  /** The race guard: whenever the kernel takes a wakeup count, no wakeup has been counted since the
      thread read it, however long it waited for the semaphore in between. */
  lemma NoWakeupBeforeSuspend(es: seq<Event>)
    requires PossibleRun(START, es + [ThreadWrites(true)])
    ensures Undisturbed(es)
  {
    hide Undisturbed;
    RunOfMore(START, es, ThreadWrites(true));
    RemembersLastRead(es);
    SuspendsFollowWrites(es);
    InsideHasRead(Run(START, es), multiset(es));
  }

  lemma InsideHasRead(s: State, n: multiset<Event>)
    requires InOrder(s, n) && s.thread == Inside
    ensures ThreadReads(true) in n
  {
  }

  /** The thread's last attempt to suspend, if it made one since it last went to sleep, succeeded;
      at first it counts as if it had. */
  predicate Succeeded(es: seq<Event>)
    decreases |es|
  {
    es == []
    || var e := es[|es| - 1];
       if e.ThreadSuspends? then e.suspended
       else !e.ThreadSleeps? && Succeeded(es[..|es| - 1])
  }

  /** How many rounds have ended without a successful suspend since the last that had one, as the
      thread counts them when it goes to sleep. */
  function FailedRounds(es: seq<Event>): nat
    decreases |es|
  {
    if es == [] then 0
    else
      var init := es[..|es| - 1];
      if es[|es| - 1] != ThreadSleeps then FailedRounds(init)
      else if Succeeded(init) then 0
      else FailedRounds(init) + 1
  }

  lemma {:induction false} RemembersFailures(es: seq<Event>)
    requires PossibleRun(START, es)
    ensures var s := Run(START, es);
      s.success == Succeeded(es) && s.failures == FailedRounds(es)
    decreases |es|
  {
    if es != [] {
      var init, e := es[..|es| - 1], es[|es| - 1];
      assert es == init + [e];
      RunOfMore(START, init, e);
      RemembersFailures(init);
      RunKeeps(START, init);
    }
  }

  /** The sleep time over all interleavings: 100 ms doubled for each failed round in a row, but no more
      than a minute; it reaches that with the tenth failure and doubling it never leaves 32 bits. */
  lemma SleepTimeAfterFailures(es: seq<Event>)
    requires PossibleRun(START, es)
    ensures var s := Run(START, es);
      && s.sleepTime == Min(100000 * Power2(FailedRounds(es)), 60000000)
      && (s.sleepTime == 60000000 <==> FailedRounds(es) >= 10)
      && s.sleepTime * 2 < 0x8000_0000
  {
    RunKeeps(START, es);
    RemembersFailures(es);
    TenDoublings(Run(START, es).failures);
  }

  // ---------- What is possible ----------

  lemma ThreeSteps(s: State, e: Event, f: Event, g: Event)
    requires Possible(s, e) && Possible(Step(s, e), f) && Possible(Step(Step(s, e), f), g)
    ensures PossibleRun(s, [e, f, g]) && Run(s, [e, f, g]) == Step(Step(Step(s, e), f), g)
  {
    hide Possible, Step;
    assert [e, f, g][1..] == [f, g] && [f, g][1..] == [g] && [g][1..] == [];
    var t := Step(Step(s, e), f);
    assert PossibleRun(t, [g]) && Run(t, [g]) == Run(Step(t, g), []);
  }

  /** From any reachable state with no call in progress, enabling can succeed, and disabling can once
      the thread has left the semaphore. */
  lemma CallsCanSucceed(es: seq<Event>)
    requires PossibleRun(START, es) && Run(START, es).caller == Free && Run(START, es).lost == 0
    ensures var s := Run(START, es);
      if s.enabled then
        !s.Working() ==>
          var off := [CallDisable, DisableWaits(true), DisableClearsFlag];
          PossibleRun(s, off) && !Run(s, off).enabled && Run(s, off).caller == Free
      else
        var on := [CallEnable, EnablePosts(true), EnableSetsFlag];
        PossibleRun(s, on) && Run(s, on).enabled && Run(s, on).caller == Free && Run(s, on).thread != NotCreated
  {
    RunKeeps(START, es);
    var s := Run(START, es);
    if !s.enabled {
      ThreeSteps(s, CallEnable, EnablePosts(true), EnableSetsFlag);
    } else if !s.Working() {
      ThreeSteps(s, CallDisable, DisableWaits(true), DisableClearsFlag);
    }
  }

  lemma ReadyForWork(s: State)
    requires Balanced(s) && s.enabled && s.caller == Free && s.lost == 0 && s.thread == LoopTop
    ensures s.semaphore == 1
  {
  }

  lemma Enters(s: State)
    requires s.thread == LoopTop && s.semaphore == 1
    ensures var before := [ThreadSleeps, ThreadReads(true), ThreadWaits(true)];
      && PossibleRun(s, before)
      && var u := Run(s, before);
         u.thread == Inside && u.semaphore == 0 && u.suspends == s.suspends && u.remembered == u.wakeups
  {
    ThreeSteps(s, ThreadSleeps, ThreadReads(true), ThreadWaits(true));
  }

  lemma Leaves(s: State)
    requires s.thread == Inside && s.remembered == s.wakeups
    ensures var after := [ThreadWrites(true), ThreadSuspends(true), ThreadPosts(true)];
      && PossibleRun(s, after)
      && var v := Run(s, after);
         v.suspends == s.suspends + 1 && v.thread == LoopTop && v.semaphore == s.semaphore + 1 && v.success
  {
    ThreeSteps(s, ThreadWrites(true), ThreadSuspends(true), ThreadPosts(true));
  }

  /** While it is enabled and nobody else is at work, a round of the thread can suspend the system, and
      leaves everything ready for the next one. */
  lemma RoundCanSuspend(es: seq<Event>)
    requires PossibleRun(START, es)
    requires var s := Run(START, es); s.enabled && s.caller == Free && s.lost == 0 && s.thread == LoopTop
    ensures var s := Run(START, es);
      var before, after := [ThreadSleeps, ThreadReads(true), ThreadWaits(true)],
                           [ThreadWrites(true), ThreadSuspends(true), ThreadPosts(true)];
      && PossibleRun(s, before) && PossibleRun(Run(s, before), after)
      && var v := Run(Run(s, before), after);
         v.suspends == s.suspends + 1 && v.thread == LoopTop && v.semaphore == s.semaphore && v.success
  {
    hide Possible, Step, PossibleRun, Run;
    RunKeeps(START, es);
    var s := Run(START, es);
    ReadyForWork(s);
    Enters(s);
    Leaves(Run(s, [ThreadSleeps, ThreadReads(true), ThreadWaits(true)]));
  }

  lemma {:induction false} PowerGrows(j: nat, k: nat)
    requires j <= k
    ensures Power2(j) <= Power2(k)
  {
    if j < k { PowerGrows(j, k - 1); }
  }

  lemma TenDoublings(k: nat)
    ensures k <= 9 ==> Power2(k) <= 512
    ensures k >= 10 ==> Power2(k) >= 1024
  {
    assert Power2(9) == 512 && Power2(10) == 1024 by {
      assert Power2(3) == 8;
      assert Power2(6) == 64;
    }
    if k <= 9 { PowerGrows(k, 9); } else { PowerGrows(10, k); }
  }

  // ---------- The back-off as an object ----------

  class SuspendThread {
    var sleepTime: int

    constructor ()
      ensures sleepTime == BASE_SLEEP_TIME
    {
      sleepTime := BASE_SLEEP_TIME;
    }

    method UpdateSleepTime(success: bool)
      modifies this
      ensures forall s: State :: s.sleepTime == old(sleepTime) && s.success == success ==>
        sleepTime == s.UpdateSleepTime().sleepTime
    {
      if success {
        sleepTime := BASE_SLEEP_TIME;
        return;
      }
      sleepTime := Min(sleepTime * 2, MAX_SLEEP_TIME);
    }
  }
}
