/** The backlight: stepwise transitions, and the modes between which it is switched, with and
    without automatic brightness. */
module Backlight {
  import opened Reals

  const UNKNOWN: real := -1.0
  const STEP: real := 1.0

  function Ceiling(r: real): int {
    -(-r).Floor
  }

  /** How many steps lead from one value to the other. */
  function Steps(start: real, target: real, step: real): (n: nat)
    requires step > 0.0
    ensures n == 0 <==> start == target
  {
    CeilingOfDistance(Abs(start - target), step);
    Ceiling(Abs(start - target) / step)
  }

  lemma CeilingOfDistance(d: real, step: real)
    requires d >= 0.0 && step > 0.0
    ensures Ceiling(d / step) >= 0 && (Ceiling(d / step) == 0 <==> d == 0.0)
  {
    Quotient(d, step, d / step);
  }

  lemma Quotient(d: real, step: real, q: real)
    requires d >= 0.0 && step > 0.0 && q == d / step
    ensures q >= 0.0 && (q == 0.0 <==> d == 0.0) && q * step == d
  {
  }

  /** The next value on the way. */
  function Next(current: real, target: real, step: real): real {
    if current < target then
      if current + step > target then target else current + step
    else
      if current - step < target then target else current - step
  }

  lemma NextIsCloser(current: real, target: real, step: real)
    requires step > 0.0 && current != target
    ensures Steps(Next(current, target, step), target, step) == Steps(current, target, step) - 1
  {
    var d := Abs(current - target);
    var d' := Abs(Next(current, target, step) - target);
    if d <= step {
      AtMostOne(d, step, d / step);
    } else {
      assert d' == d - step;
      OneLess(d, step, d / step, (d - step) / step);
    }
  }

  lemma AtMostOne(d: real, step: real, q: real)
    requires 0.0 < d <= step && q == d / step
    ensures Ceiling(q) == 1
  {
    Quotient(d, step, q);
    SmallerFactor(q, step, d);
  }

  lemma SmallerFactor(q: real, step: real, d: real)
    requires q * step == d && d <= step && step > 0.0
    ensures q <= 1.0
  {
    if q > 1.0 { PositiveProduct(q - 1.0, step, (q - 1.0) * step); }
  }

  lemma OneLess(d: real, step: real, q: real, r: real)
    requires d >= step > 0.0 && q == d / step && r == (d - step) / step
    ensures Ceiling(r) == Ceiling(q) - 1
  {
    Quotient(d, step, q);
    Quotient(d - step, step, r);
    SameQuotient(q - 1.0, r, step);
  }

  lemma SameQuotient(q: real, r: real, step: real)
    requires step > 0.0 && q * step == r * step
    ensures q == r
  {
    if q > r { PositiveProduct(q - r, step, (q - r) * step); }
    if r > q { PositiveProduct(r - q, step, (r - q) * step); }
  }

  /** All values written on the way. */
  function Ladder(start: real, target: real, step: real): seq<real>
    requires step > 0.0
    decreases Steps(start, target, step)
  {
    if start == target then []
    else
      NextIsCloser(start, target, step);
      var next := Next(start, target, step);
      [next] + Ladder(next, target, step)
  }

  lemma LadderUnfolds(start: real, target: real, step: real, before: seq<real>)
    requires step > 0.0 && start != target
    ensures var next := Next(start, target, step);
      before + [next] + Ladder(next, target, step) == before + Ladder(start, target, step)
  {
  }

  predicate Between(a: real, x: real, b: real) {
    a <= x <= b || b <= x <= a
  }

  /** Value k of the ladder, counted from the start. */
  function Rung(start: real, target: real, step: real, k: nat): real
    requires step > 0.0 && k <= |Ladder(start, target, step)|
  {
    if k == 0 then start else Ladder(start, target, step)[k - 1]
  }

  /** A transition makes exactly ceil(|start - target| / step) writes, each one full step nearer
      to the target, except that the last one is the target itself: it never overshoots. */
  lemma {:induction false} LadderReachesTarget(start: real, target: real, step: real)
    requires step > 0.0
    ensures var rungs := Ladder(start, target, step);
      && |rungs| == Steps(start, target, step)
      && Rung(start, target, step, |rungs|) == target
      && forall k: nat :: k < |rungs| ==>
          var a, b := Rung(start, target, step, k), Rung(start, target, step, k + 1);
          && Between(a, b, target) && a != b
          && (if k + 1 < |rungs| then Abs(b - a) == step else Abs(b - a) <= step)
    decreases Steps(start, target, step)
  {
    if start != target {
      NextIsCloser(start, target, step);
      var next := Next(start, target, step);
      LadderReachesTarget(next, target, step);
      var rungs, rest := Ladder(start, target, step), Ladder(next, target, step);
      forall k: nat | k < |rungs|
        ensures var a, b := Rung(start, target, step, k), Rung(start, target, step, k + 1);
          && Between(a, b, target) && a != b
          && (if k + 1 < |rungs| then Abs(b - a) == step else Abs(b - a) <= step)
      {
        if k > 0 {
          assert Rung(start, target, step, k) == Rung(next, target, step, k - 1);
          assert Rung(start, target, step, k + 1) == Rung(next, target, step, k);
        }
      }
    }
  }

  // ---------- Modes ----------

  datatype Mode = NormalMode | DimMode | OffMode

  /** `shown` is what the backlight last told or was told; the rest is the control's own state,
      whether the algorithm and the light sensor run, and what was announced. */
  datatype Control = Control(
    quirk: bool,
    supported: bool,
    dim: real,
    normal: real,
    user: real,
    mode: Mode,
    abActive: bool,
    started: bool,
    sensing: bool,
    shown: real,
    writes: seq<real>,
    announced: seq<real>)
  {
    function Origin(target: real): real {
      if shown == UNKNOWN then target - STEP else shown
    }

    function Transition(target: real): Control {
      this.(
        shown := target,
        writes := writes + Ladder(Origin(target), target, STEP),
        announced := if Origin(target) != target then announced + [target] else announced)
    }

    function Disable(): Control {
      if !supported || !abActive then this
      else
        var c := this.(started := false, sensing := false, normal := user, abActive := false);
        if mode == NormalMode then c.Transition(c.normal) else c
    }

    function Enable(): Control {
      if !supported || abActive then this
      else
        var c := if mode == NormalMode then this.(started := true, sensing := true) else this;
        c.(abActive := true)
    }

    function SetDim(): Control {
      var c := if 0.0 < shown < dim then this else Transition(dim);
      c.(mode := DimMode)
    }

    function SetNormal(): Control {
      var c :=
        if abActive && mode == OffMode then
          (if quirk then Transition(normal) else this).(started := true, sensing := true)
        else Transition(normal);
      c.(mode := NormalMode)
    }

    function SetNormalValue(v: real): Control {
      var c := this.(user := v, normal := if abActive then normal else v);
      if mode == NormalMode && !abActive then c.Transition(v) else c
    }

    function SetOff(): Control {
      Transition(0.0).(mode := OffMode, started := false, sensing := false)
    }

    /** The algorithm announces a brightness. */
    function Automatic(b: real): Control {
      if !supported || !abActive then this
      else
        var c := this.(normal := b);
        if mode == NormalMode then c.Transition(b) else c
    }
  }

  datatype Event = Disables | Enables | Dims | Normal | NormalValue(v: real) | Off | Automatic(b: real)

  function Step(c: Control, e: Event): Control {
    match e
    case Disables => c.Disable()
    case Enables => c.Enable()
    case Dims => c.SetDim()
    case Normal => c.SetNormal()
    case NormalValue(v) => c.SetNormalValue(v)
    case Off => c.SetOff()
    case Automatic(b) => c.Automatic(b)
  }

  function Run(c: Control, es: seq<Event>): Control
    decreases |es|
  {
    if es == [] then c else Run(Step(c, es[0]), es[1..])
  }

  function NewControl(quirk: bool, supported: bool, dim: real, normal: real, shown: real): Control {
    Control(quirk, supported, dim, normal, normal, OffMode, false, false, false, shown, [], [])
  }

  // ---------- What always holds ----------

  /** Without automatic brightness the normal brightness is the user's; the sensor runs with the
      algorithm, and only for automatic brightness outside off mode. */
  predicate Consistent(c: Control) {
    && (!c.abActive ==> c.normal == c.user)
    && (c.sensing <==> c.started)
    && (c.started ==> c.abActive && c.mode != OffMode)
    && (c.abActive ==> c.supported)
  }

  lemma StepKeeps(c: Control, e: Event)
    requires Consistent(c)
    ensures Consistent(Step(c, e)) && Step(c, e).quirk == c.quirk
  {
    hide Ladder;
  }

  /** In normal mode the backlight shows the normal brightness. */
  predicate Shows(c: Control) {
    c.mode == NormalMode ==> c.shown == c.normal
  }

  /** The one event that can break it: leaving off mode under automatic brightness on a device
      without the quirk, while the backlight shows something else. */
  predicate Withholds(c: Control, e: Event) {
    e == Normal && c.abActive && c.mode == OffMode && !c.quirk && c.shown != c.normal
  }

  lemma ShowsUnlessWithheld(c: Control, e: Event)
    requires Shows(c)
    ensures Shows(Step(c, e)) <==> !Withholds(c, e)
  {
    hide Ladder;
  }

  /** With the quirk: in every run, in normal mode the last written brightness is the normal one,
      which is the user's own unless automatic brightness is active, and the light sensor is
      enabled exactly while the algorithm is started. */
  lemma {:induction false} QuirkShowsNormal(c: Control, es: seq<Event>)
    requires c.quirk && Consistent(c) && Shows(c)
    ensures var d := Run(c, es);
      && Consistent(d) && Shows(d)
      && (d.mode == NormalMode && !d.abActive ==> d.shown == d.user)
    decreases |es|
  {
    hide Step, Shows;
    if es != [] {
      StepKeeps(c, es[0]);
      ShowsUnlessWithheld(c, es[0]);
      QuirkShowsNormal(Step(c, es[0]), es[1..]);
    } else {
      ShownIsNormal(c);
    }
  }

  lemma ShownIsNormal(c: Control)
    requires Shows(c)
    ensures c.mode == NormalMode ==> c.shown == c.normal
  {
  }

  lemma NewIsConsistent(quirk: bool, supported: bool, dim: real, normal: real, shown: real)
    ensures Consistent(NewControl(quirk, supported, dim, normal, shown))
    ensures Shows(NewControl(quirk, supported, dim, normal, shown))
  {
  }

  /** From start-up on, whatever the backlight showed before. */
  lemma QuirkShowsNormalFromStart(supported: bool, dim: real, normal: real, shown: real, es: seq<Event>)
    ensures var d := Run(NewControl(true, supported, dim, normal, shown), es);
      && (d.mode == NormalMode ==> d.shown == d.normal)
      && (!d.abActive ==> d.normal == d.user)
      && (d.sensing <==> d.started) && (d.started ==> d.abActive && d.mode != OffMode)
  {
    NewIsConsistent(true, supported, dim, normal, shown);
    QuirkShowsNormal(NewControl(true, supported, dim, normal, shown), es);
  }

  /** Automatic brightness on a lit display means a running algorithm. */
  predicate Follows(c: Control) {
    c.abActive && c.mode != OffMode ==> c.started
  }

  /** That holds on, unless automatic brightness is enabled while the display is dimmed: then the
      algorithm stays off, and restoring the normal brightness does not start it either. */
  lemma FollowsUnlessEnabledDimmed(c: Control, e: Event)
    requires Consistent(c) && Follows(c)
    ensures Follows(Step(c, e)) <==>
      !(e == Enables && c.supported && !c.abActive && c.mode == DimMode)
      && !(e == Dims && c.abActive && c.mode == OffMode)
  {
    hide Ladder;
  }

  lemma EnabledDimmedStaysOff(c: Control)
    requires Consistent(c) && c.supported && !c.abActive && c.mode == DimMode
    ensures var d := Run(c, [Enables, Normal]);
      d.abActive && d.mode == NormalMode && !d.started && !d.sensing
  {
    hide Ladder;
    var d := Step(c, Enables);
    assert Run(c, [Enables, Normal]) == Run(d, [Normal]) by { assert [Enables, Normal][1..] == [Normal]; }
    assert Run(d, [Normal]) == Run(Step(d, Normal), []);
  }

  /** Dimming brightens exactly a display that is dark, and darker than dim; one that is lit but
      darker than dim is left as it is. */
  lemma DimmingBrightensOnlyTheDark(c: Control)
    ensures var d := c.SetDim();
      && (d.shown > c.shown <==> c.shown < c.dim && c.shown <= 0.0)
      && (d.shown == c.dim || (d.shown == c.shown && d.writes == c.writes))
  {
    hide Ladder;
  }

  /** Disabling automatic brightness undoes enabling it, whatever was announced in between. */
  lemma DisableUndoesEnable(c: Control, b: real)
    requires Consistent(c) && Shows(c) && c.supported && !c.abActive
    ensures var d := c.Enable().Automatic(b).Disable();
      && d.normal == c.normal && d.user == c.user && d.mode == c.mode && !d.abActive && !d.started && !d.sensing
      && (c.mode == NormalMode ==> d.shown == c.shown)
  {
    hide Ladder;
  }

  // ---------- What is shown in each mode ----------

  predicate SetsMode(e: Event) {
    e == Dims || e == Normal || e == Off
  }

  /** A display that is off is dark; a dimmed one shows the dim brightness, or what it showed before if
      that was darker. */
  predicate ShowsMode(c: Control) {
    && (c.mode == OffMode ==> c.shown == 0.0)
    && (c.mode == DimMode ==> c.shown == c.dim || 0.0 < c.shown < c.dim)
  }

  lemma StepShowsMode(c: Control, e: Event)
    requires ShowsMode(c) || SetsMode(e)
    ensures ShowsMode(Step(c, e)) && Step(c, e).dim == c.dim
  {
    hide Ladder;
  }

  /** In every run, from the first change of mode on, whatever the backlight showed at the start. */
  lemma {:induction false} RunShowsMode(c: Control, es: seq<Event>)
    requires ShowsMode(c) || exists e :: e in es && SetsMode(e)
    ensures ShowsMode(Run(c, es))
    decreases |es|
  {
    hide Step, ShowsMode;
    if es != [] {
      if ShowsMode(c) || SetsMode(es[0]) {
        StepShowsMode(c, es[0]);
      } else {
        var e :| e in es && SetsMode(e);
        assert e in es[1..];
      }
      RunShowsMode(Step(c, es[0]), es[1..]);
    }
  }

  /** An event that withholds the normal brightness writes nothing. */
  lemma WithheldWritesNothing(c: Control, e: Event)
    requires Withholds(c, e)
    ensures Step(c, e).shown == c.shown && Step(c, e).writes == c.writes && Step(c, e).announced == c.announced
  {
    hide Ladder;
  }

  predicate Ends(s: seq<real>, x: real) {
    s != [] ==> s[|s| - 1] == x
  }

  /** The last value written, and the last one announced, is what the backlight shows; a change of what
      it shows is written in steps of one and announced once. */
  lemma ChangesAreAnnounced(c: Control, e: Event)
    requires Ends(c.writes, c.shown) && Ends(c.announced, c.shown)
    ensures var d := Step(c, e);
      && Ends(d.writes, d.shown) && Ends(d.announced, d.shown)
      && (d.shown != c.shown ==> d.announced == c.announced + [d.shown])
      && (c.shown != -1.0 ==> d.writes == c.writes + Ladder(c.shown, d.shown, 1.0))
      && (d.shown == c.shown && c.shown != -1.0 ==> d.announced == c.announced && d.writes == c.writes)
  {
    hide Ladder, Step;
    StepMoves(c, e);
    LadderReachesTarget(c.Origin(Step(c, e).shown), Step(c, e).shown, STEP);
  }

  /** From `c` to `d` the backlight went to `target`. */
  predicate Moves(c: Control, d: Control, target: real) {
    d.shown == target && d.writes == c.Transition(target).writes && d.announced == c.Transition(target).announced
  }

  /** Every event makes one transition or none. */
  lemma StepMoves(c: Control, e: Event)
    ensures var d := Step(c, e);
      Moves(c, d, d.shown) || (d.shown == c.shown && d.writes == c.writes && d.announced == c.announced)
  {
    hide Ladder;
  }

  // ---------- What was asked for ----------

  lemma {:induction false} RunOfMore(c: Control, es: seq<Event>, e: Event)
    ensures Run(c, es + [e]) == Step(Run(c, es), e)
    decreases |es|
  {
    hide Step;
    if es == [] {
      assert [e][1..] == [];
      assert Run(Step(c, e), []) == Step(c, e);
    } else {
      assert (es + [e])[1..] == es[1..] + [e];
      RunOfMore(Step(c, es[0]), es[1..], e);
    }
  }

  /** The mode last asked for. */
  function AskedMode(es: seq<Event>, first: Mode): Mode
    decreases |es|
  {
    if es == [] then first
    else
      match es[|es| - 1]
      case Dims => DimMode
      case Normal => NormalMode
      case Off => OffMode
      case _ => AskedMode(es[..|es| - 1], first)
  }

  /** Whether automatic brightness was last asked for. */
  predicate AskedAutomatic(es: seq<Event>, first: bool)
    decreases |es|
  {
    if es == [] then first
    else
      match es[|es| - 1]
      case Enables => true
      case Disables => false
      case _ => AskedAutomatic(es[..|es| - 1], first)
  }

  /** The brightness the user last set. */
  function AskedValue(es: seq<Event>, first: real): real
    decreases |es|
  {
    if es == [] then first
    else
      match es[|es| - 1]
      case NormalValue(v) => v
      case _ => AskedValue(es[..|es| - 1], first)
  }

  /** The normal brightness: the user's, or under automatic brightness the one last announced, which
      counts until it is disabled. */
  function NormalValueAfter(c: Control, es: seq<Event>): real
    decreases |es|
  {
    if es == [] then c.normal
    else
      var init := es[..|es| - 1];
      var automatic := c.supported && AskedAutomatic(init, c.abActive);
      match es[|es| - 1]
      case NormalValue(v) => if automatic then NormalValueAfter(c, init) else v
      case Automatic(b) => if automatic then b else NormalValueAfter(c, init)
      case Disables => if automatic then AskedValue(init, c.user) else NormalValueAfter(c, init)
      case _ => NormalValueAfter(c, init)
  }

  lemma StepFollows(c: Control, e: Event)
    requires Consistent(c)
    ensures var d := Step(c, e);
      && d.supported == c.supported
      && d.mode == (match e case Dims => DimMode case Normal => NormalMode case Off => OffMode case _ => c.mode)
      && d.abActive == (match e case Enables => c.supported case Disables => false case _ => c.abActive)
      && d.user == (match e case NormalValue(v) => v case _ => c.user)
      && d.normal == match e
           case NormalValue(v) => if c.abActive then c.normal else v
           case Automatic(b) => if c.abActive then b else c.normal
           case Disables => c.user
           case _ => c.normal
  {
    hide Ladder;
  }

  /** Over every run: the mode, automatic brightness and the user's brightness are what was last asked
      for, and the normal brightness follows from them and from what the algorithm announced. */
  lemma {:induction false} FollowsRequests(c: Control, es: seq<Event>)
    requires Consistent(c)
    ensures var d := Run(c, es);
      && Consistent(d) && d.supported == c.supported
      && d.mode == AskedMode(es, c.mode)
      && d.abActive == (c.supported && AskedAutomatic(es, c.abActive))
      && d.user == AskedValue(es, c.user)
      && d.normal == NormalValueAfter(c, es)
    decreases |es|
  {
    hide Step;
    if es != [] {
      var init, e := es[..|es| - 1], es[|es| - 1];
      assert es == init + [e];
      RunOfMore(c, init, e);
      FollowsRequests(c, init);
      StepKeeps(Run(c, init), e);
      StepFollows(Run(c, init), e);
    }
  }

  // ---------- The control as an object ----------

  /** The backlight device: it tells what was last written. */
  class Device {
    var brightness: real
    var writes: seq<real>

    constructor (initial: real)
      ensures brightness == initial && writes == []
    {
      brightness, writes := initial, [];
    }

    method SetBrightness(v: real)
      modifies this
      ensures brightness == v && writes == old(writes) + [v]
    {
      brightness, writes := v, writes + [v];
    }
  }

  class BacklightBrightnessControl {
    const normalBeforeDisplayOnAutobrightness: bool
    const abSupported: bool
    const dimBrightness: real
    const backlight: Device

    var normalBrightness: real
    var userNormalBrightness: real
    var activeBrightnessType: Mode
    var abActive: bool
    var algorithmStarted: bool
    var lightEventsEnabled: bool
    var announced: seq<real>

    function View(): Control
      reads this, backlight
    {
      Control(
        normalBeforeDisplayOnAutobrightness, abSupported, dimBrightness,
        normalBrightness, userNormalBrightness, activeBrightnessType, abActive,
        algorithmStarted, lightEventsEnabled, backlight.brightness, backlight.writes, announced)
    }

    ghost predicate Valid()
      reads this, backlight
    {
      Consistent(View())
    }

    constructor (quirk: bool, supported: bool, dim: real, normal: real, backlight: Device)
      requires backlight.writes == []
      ensures this.backlight == backlight
      ensures View() == NewControl(quirk, supported, dim, normal, backlight.brightness)
      ensures Valid() && Shows(View())
    {
      normalBeforeDisplayOnAutobrightness, abSupported := quirk, supported;
      dimBrightness, this.backlight := dim, backlight;
      normalBrightness, userNormalBrightness := normal, normal;
      activeBrightnessType, abActive := OffMode, false;
      algorithmStarted, lightEventsEnabled, announced := false, false, [];
    }

    method TransitionToBrightnessValue(brightness: real)
      modifies `announced, backlight
      ensures View() == old(View()).Transition(brightness)
    {
      var starting := if backlight.brightness == UNKNOWN then brightness - STEP else backlight.brightness;
      var current := starting;
      ghost var before := backlight.writes;
      if current < brightness {
        while current < brightness
          invariant current <= brightness
          invariant backlight.writes + Ladder(current, brightness, STEP) == before + Ladder(starting, brightness, STEP)
          invariant current == starting || backlight.brightness == current
          invariant announced == old(announced)
          decreases Steps(current, brightness, STEP)
        {
          NextIsCloser(current, brightness, STEP);
          LadderUnfolds(current, brightness, STEP, backlight.writes);
          current := current + STEP;
          if current > brightness { current := brightness; }
          backlight.SetBrightness(current);
        }
      } else if current > brightness {
        while current > brightness
          invariant current >= brightness
          invariant backlight.writes + Ladder(current, brightness, STEP) == before + Ladder(starting, brightness, STEP)
          invariant current == starting || backlight.brightness == current
          invariant announced == old(announced)
          decreases Steps(current, brightness, STEP)
        {
          NextIsCloser(current, brightness, STEP);
          LadderUnfolds(current, brightness, STEP, backlight.writes);
          current := current - STEP;
          if current < brightness { current := brightness; }
          backlight.SetBrightness(current);
        }
      }
      if starting != brightness {
        announced := announced + [brightness];
      }
    }

    method DisableAutobrightness()
      modifies this, backlight
      ensures View() == old(View()).Disable()
      ensures old(Valid()) ==> Valid()
      ensures old(Shows(View())) ==> Shows(View())
    {
      hide Consistent, Shows, Ladder;
      if Valid() { StepKeeps(View(), Disables); }
      if Shows(View()) { ShowsUnlessWithheld(View(), Disables); }
      if !abSupported { return; }
      if abActive {
        algorithmStarted, lightEventsEnabled := false, false;
        normalBrightness := userNormalBrightness;
        abActive := false;
        if activeBrightnessType == NormalMode {
          TransitionToBrightnessValue(normalBrightness);
        }
      }
    }

    method EnableAutobrightness()
      modifies this
      ensures View() == old(View()).Enable()
      ensures old(Valid()) ==> Valid()
      ensures old(Shows(View())) ==> Shows(View())
    {
      hide Consistent, Shows, Ladder;
      if Valid() { StepKeeps(View(), Enables); }
      if Shows(View()) { ShowsUnlessWithheld(View(), Enables); }
      if !abSupported { return; }
      if !abActive {
        if activeBrightnessType == NormalMode {
          algorithmStarted, lightEventsEnabled := true, true;
        }
        abActive := true;
      }
    }

    method SetDimBrightness()
      modifies this, backlight
      ensures View() == old(View()).SetDim()
      ensures old(Valid()) ==> Valid()
      ensures old(Shows(View())) ==> Shows(View())
    {
      hide Consistent, Shows, Ladder;
      if Valid() { StepKeeps(View(), Dims); }
      if Shows(View()) { ShowsUnlessWithheld(View(), Dims); }
      var shouldTransition := true;
      if backlight.brightness > 0.0 && backlight.brightness < dimBrightness {
        shouldTransition := false;
      }
      if shouldTransition {
        TransitionToBrightnessValue(dimBrightness);
      }
      activeBrightnessType := DimMode;
    }

    method SetNormalBrightness()
      modifies this, backlight
      ensures View() == old(View()).SetNormal()
      ensures old(Valid()) ==> Valid()
      ensures old(Shows(View())) ==> (Shows(View()) <==> !old(Withholds(View(), Normal)))
    {
      hide Consistent, Shows, Ladder;
      if Valid() { StepKeeps(View(), Normal); }
      if Shows(View()) { ShowsUnlessWithheld(View(), Normal); }
      if abActive && activeBrightnessType == OffMode {
        if normalBeforeDisplayOnAutobrightness {
          TransitionToBrightnessValue(normalBrightness);
        }
        algorithmStarted, lightEventsEnabled := true, true;
      } else {
        TransitionToBrightnessValue(normalBrightness);
      }
      activeBrightnessType := NormalMode;
    }

    method SetNormalBrightnessValue(v: real)
      modifies this, backlight
      ensures View() == old(View()).SetNormalValue(v)
      ensures old(Valid()) ==> Valid()
      ensures old(Shows(View())) ==> Shows(View())
    {
      hide Consistent, Shows, Ladder;
      if Valid() { StepKeeps(View(), NormalValue(v)); }
      if Shows(View()) { ShowsUnlessWithheld(View(), NormalValue(v)); }
      userNormalBrightness := v;
      if !abActive {
        normalBrightness := userNormalBrightness;
      }
      if activeBrightnessType == NormalMode && !abActive {
        TransitionToBrightnessValue(normalBrightness);
      }
    }

    method SetOffBrightness()
      modifies this, backlight
      ensures View() == old(View()).SetOff()
      ensures old(Valid()) ==> Valid()
      ensures old(Shows(View())) ==> Shows(View())
    {
      hide Consistent, Shows, Ladder;
      if Valid() { StepKeeps(View(), Off); }
      if Shows(View()) { ShowsUnlessWithheld(View(), Off); }
      TransitionToBrightnessValue(0.0);
      activeBrightnessType := OffMode;
      algorithmStarted, lightEventsEnabled := false, false;
    }

    /** The algorithm's handler, registered when automatic brightness is supported. */
    method NewAutobrightnessValue(brightness: real)
      modifies this, backlight
      ensures View() == old(View()).Automatic(brightness)
      ensures old(Valid()) ==> Valid()
      ensures old(Shows(View())) ==> Shows(View())
    {
      hide Consistent, Shows, Ladder;
      if Valid() { StepKeeps(View(), Event.Automatic(brightness)); }
      if Shows(View()) { ShowsUnlessWithheld(View(), Event.Automatic(brightness)); }
      if abSupported && abActive {
        normalBrightness := brightness;
        if activeBrightnessType == NormalMode {
          TransitionToBrightnessValue(normalBrightness);
        }
      }
    }
  }
}
