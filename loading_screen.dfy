/**
 * The BIOS-style loading screen (src/components/hero/LoadingScreen.tsx):
 * boot lines appear on timers, and the screen completes once the boot text
 * is done, the 3D assets are ready and the user has clicked, in any order.
 */
module LoadingScreen {
  /** A boot message and the delay, in milliseconds, after which it is appended. */
  datatype BootLine = BootLine(text: string, delay: nat)

  const BootLines: seq<BootLine> := [
    BootLine("AAKASH PORTFOLIO BIOS v2.0", 0),
    BootLine("Copyright (C) 2024 Aakash Yadav", 200),
    BootLine("", 300),
    BootLine("Initializing AI Systems...", 400),
    BootLine("Loading Neural Networks... OK", 700),
    BootLine("Calibrating LLM Models... OK", 1000),
    BootLine("Connecting to Cloud Services... OK", 1300),
    BootLine("", 1400),
    BootLine("Starting Portfolio Environment...", 1600)
  ]

  /** Delay after the last line before the boot text counts as complete. */
  const BootCompleteDelay: nat := 500

  function Texts(ls: seq<BootLine>): (r: seq<string>)
    ensures |r| == |ls| && forall i :: 0 <= i < |ls| ==> r[i] == ls[i].text
  {
    seq(|ls|, i requires 0 <= i < |ls| => ls[i].text)
  }

  predicate NonDecreasing(ls: seq<BootLine>) {
    forall i, j :: 0 <= i < j < |ls| ==> ls[i].delay <= ls[j].delay
  }

  lemma BootLinesNonDecreasing()
    ensures NonDecreasing(BootLines)
  {
  }

  // ---------------------------------------------------------------------
  // The timeline: which lines are on screen at time t.

  /**
   * The texts of the lines whose timers are due by time `t`, in array
   * order (which is the firing order only when the delays do not decrease).
   */
  function Due(ls: seq<BootLine>, t: int): seq<string>
    decreases |ls|
  {
    if ls == [] then []
    else (if ls[0].delay <= t then [ls[0].text] else []) + Due(ls[1..], t)
  }

  lemma {:induction false} NoneDue(ls: seq<BootLine>, t: int)
    requires forall i :: 0 <= i < |ls| ==> ls[i].delay > t
    ensures Due(ls, t) == []
    decreases |ls|
  {
    if ls != [] {
      NoneDue(ls[1..], t);
    }
  }

  /** When exactly the first k lines are due by time `t`, those are the lines listed. */
  lemma {:induction false} DueSplit(ls: seq<BootLine>, t: int, k: nat)
    requires k <= |ls|
    requires forall j :: 0 <= j < k ==> ls[j].delay <= t
    requires forall j :: k <= j < |ls| ==> ls[j].delay > t
    ensures Due(ls, t) == Texts(ls)[..k]
    decreases |ls|
  {
    if ls != [] {
      if k == 0 {
        NoneDue(ls, t);
      } else {
        var rest := ls[1..];
        forall j | 0 <= j < k - 1 ensures rest[j].delay <= t {
          assert rest[j] == ls[j + 1];
        }
        forall j | k - 1 <= j < |rest| ensures rest[j].delay > t {
          assert rest[j] == ls[j + 1];
        }
        DueSplit(rest, t, k - 1);
        assert Texts(ls)[..k] == [ls[0].text] + Texts(rest)[..k - 1];
      }
    }
  }

  /** With non-decreasing delays, the lines due at any time are a prefix of the array. */
  lemma {:induction false} DueIsPrefix(ls: seq<BootLine>, t: int)
    requires NonDecreasing(ls)
    ensures |Due(ls, t)| <= |ls| && Due(ls, t) == Texts(ls)[..|Due(ls, t)|]
    decreases |ls|
  {
    if ls != [] {
      var rest := ls[1..];
      assert NonDecreasing(rest) by {
        forall i, j | 0 <= i < j < |rest| ensures rest[i].delay <= rest[j].delay {
          assert rest[i] == ls[i + 1] && rest[j] == ls[j + 1];
        }
      }
      if ls[0].delay <= t {
        DueIsPrefix(rest, t);
        var m := |Due(rest, t)|;
        assert Due(ls, t) == [ls[0].text] + Texts(rest)[..m];
        assert Texts(ls)[..m + 1] == [ls[0].text] + Texts(rest)[..m];
      } else {
        assert forall i :: 0 <= i < |rest| ==> rest[i].delay > t by {
          forall i | 0 <= i < |rest| ensures rest[i].delay > t {
            assert rest[i] == ls[i + 1];
          }
        }
        NoneDue(rest, t);
      }
    }
  }

  // ---------------------------------------------------------------------
  // The gate.

  /** The component's state, `assetsReady` being the prop it currently has. */
  datatype GateState = GateState(
    lines: seq<string>,
    pendingLines: set<nat>,  // indices of the boot-line timers not yet fired
    bootPending: bool,    // the 500 ms timer after the last line is scheduled
    bootTextComplete: bool,
    hasClicked: bool,
    assetsReady: bool)

  /** The mount effect schedules one timer per boot line. */
  function AllLines(): (r: set<nat>)
    ensures forall j: nat :: j in r <==> j < |BootLines|
  {
    IndicesBelow(|BootLines|)
  }

  function IndicesBelow(n: nat): (r: set<nat>)
    ensures forall j: nat :: j in r <==> j < n
  {
    if n == 0 then {} else IndicesBelow(n - 1) + {n - 1}
  }

  function InitialGate(assetsReady: bool): GateState {
    GateState([], AllLines(), false, false, false, assetsReady)
  }

  function IsFullyReady(g: GateState): bool {
    g.bootTextComplete && g.assetsReady
  }

  /** The condition under which the completion effect calls `onComplete`. */
  predicate Complete(g: GateState) {
    IsFullyReady(g) && g.hasClicked
  }

  /**
   * The completion effect re-runs only when `isFullyReady` or `hasClicked`
   * changed, and then calls `onComplete` if both hold: it fires exactly when
   * the gate has just become complete.
   */
  function CompletionFires(before: GateState, after: GateState): (f: bool)
    ensures f <==> Complete(after) && !Complete(before)
  {
    (IsFullyReady(before) != IsFullyReady(after) || before.hasClicked != after.hasClicked)
      && IsFullyReady(after) && after.hasClicked
  }

  // Display predicates.
  predicate ShowSoundEnabled(g: GateState) { g.hasClicked && !IsFullyReady(g) }
  predicate ShowEnterPrompt(g: GateState) { IsFullyReady(g) && !g.hasClicked }
  predicate ShowPreparing(g: GateState) { g.bootTextComplete && !g.assetsReady }
  predicate ShowSoundHint(g: GateState) { !g.bootTextComplete && !g.hasClicked }

  /** The enter prompt excludes every other indicator, and the hint excludes "Preparing". */
  lemma PromptsExclusive(g: GateState)
    ensures ShowEnterPrompt(g) ==> !ShowPreparing(g) && !ShowSoundHint(g) && !ShowSoundEnabled(g)
    ensures !(ShowSoundHint(g) && ShowPreparing(g))
  {
  }

  /** Until the gate completes, the screen always shows at least one indicator. */
  lemma SomeIndicatorUntilComplete(g: GateState)
    ensures !Complete(g) <==>
      ShowEnterPrompt(g) || ShowPreparing(g) || ShowSoundHint(g) || ShowSoundEnabled(g)
  {
  }

  /**
   * The browser runs timers by deadline, and on a tie in the order they
   * were scheduled (here, array order).
   */
  predicate FiresBefore(j: nat, i: nat)
    requires j < |BootLines| && i < |BootLines|
  {
    BootLines[j].delay < BootLines[i].delay || (BootLines[j].delay == BootLines[i].delay && j < i)
  }

  /** Line i's timer is pending and no pending timer runs before it. */
  predicate NextToFire(g: GateState, i: nat) {
    && i < |BootLines| && i in g.pendingLines
    && forall j: nat :: j < |BootLines| && j in g.pendingLines ==> !FiresBefore(j, i)
  }

  /**
   * Line i's timer fires, when it is the next to run: it appends that
   * line's own text, and the last line's timer schedules boot completion.
   */
  function LineFires(g: GateState, i: nat): (d: GateState)
    ensures NextToFire(g, i) ==>
      d == g.(lines := g.lines + [BootLines[i].text], pendingLines := g.pendingLines - {i},
              bootPending := g.bootPending || i == |BootLines| - 1)
    ensures !NextToFire(g, i) ==> d == g
  {
    if NextToFire(g, i) then
      g.(lines := g.lines + [BootLines[i].text], pendingLines := g.pendingLines - {i},
         bootPending := g.bootPending || i == |BootLines| - 1)
    else g
  }

  function BootTimerFires(g: GateState): (d: GateState)
    ensures g.bootPending ==> d == g.(bootPending := false, bootTextComplete := true)
    ensures !g.bootPending ==> d == g
  {
    if g.bootPending then g.(bootPending := false, bootTextComplete := true) else g
  }

  datatype GateEvent = LineTimer(index: nat) | BootTimer | Click | AssetsChanged(ready: bool)

  /** The new state and whether `onComplete` is called. */
  function GateStep(g: GateState, e: GateEvent): (GateState, bool) {
    var d := match e
      case LineTimer(i) => LineFires(g, i)
      case BootTimer => BootTimerFires(g)
      case Click => g.(hasClicked := true)
      case AssetsChanged(r) => g.(assetsReady := r);
    (d, CompletionFires(g, d))
  }

  /**
   * Reachable states: the timers still pending are those of the lines not
   * yet shown, the lines shown are the first boot texts in order, the
   * completion timer is pending only after the last line and before
   * completion, and the boot text completes only after every line.
   */
  ghost predicate GateInvariant(g: GateState) {
    && |g.lines| <= |BootLines|
    && (forall j: nat :: j in g.pendingLines <==> |g.lines| <= j < |BootLines|)
    && g.lines == Texts(BootLines)[..|g.lines|]
    && (g.bootPending ==> |g.lines| == |BootLines| && !g.bootTextComplete)
    && (g.bootTextComplete ==> |g.lines| == |BootLines| && !g.bootPending)
  }

  lemma InitialGateInvariant(assetsReady: bool)
    ensures GateInvariant(InitialGate(assetsReady))
  {
  }

  lemma GateStepPreservesInvariant(g: GateState, e: GateEvent)
    requires GateInvariant(g)
    ensures GateInvariant(GateStep(g, e).0)
  {
    var d := GateStep(g, e).0;
    if e.LineTimer? && NextToFire(g, e.index) {
      var k := |g.lines|;
      TimersFireInArrayOrder(g, e.index);
      assert d.lines == Texts(BootLines)[..k] + [Texts(BootLines)[k]];
      assert Texts(BootLines)[..k + 1] == Texts(BootLines)[..k] + [Texts(BootLines)[k]];
    }
  }

  /**
   * Because the delays never decrease, the next timer to run is always
   * that of the first line not yet shown.
   */
  lemma TimersFireInArrayOrder(g: GateState, i: nat)
    requires GateInvariant(g) && NextToFire(g, i)
    ensures i == |g.lines|
  {
    var k := |g.lines|;
    assert k in g.pendingLines;
    assert !FiresBefore(k, i);
    BootLinesNonDecreasing();
  }

  /**
   * Once exactly the timers due by time `t` have run, the screen shows the
   * lines of the timeline at `t`.
   */
  lemma ShownLinesAreDue(g: GateState, t: int)
    requires GateInvariant(g)
    requires forall j: nat :: j < |BootLines| ==> (j in g.pendingLines <==> BootLines[j].delay > t)
    ensures g.lines == Due(BootLines, t)
  {
    var k := |g.lines|;
    forall j | 0 <= j < k ensures BootLines[j].delay <= t {
      assert j !in g.pendingLines;
    }
    forall j | k <= j < |BootLines| ensures BootLines[j].delay > t {
      assert j in g.pendingLines;
    }
    DueSplit(BootLines, t, k);
  }

  /** `hasClicked` and `bootTextComplete` never revert, and appended lines stay. */
  lemma FlagsAreMonotone(g: GateState, e: GateEvent)
    ensures g.hasClicked ==> GateStep(g, e).0.hasClicked
    ensures g.bootTextComplete ==> GateStep(g, e).0.bootTextComplete
    ensures g.lines <= GateStep(g, e).0.lines
  {
  }

  function Run(g: GateState, es: seq<GateEvent>): GateState
    decreases |es|
  {
    if es == [] then g else Run(GateStep(g, es[0]).0, es[1..])
  }

  /** How many times a run calls `onComplete`. */
  function Completions(g: GateState, es: seq<GateEvent>): nat
    decreases |es|
  {
    if es == [] then 0
    else (if GateStep(g, es[0]).1 then 1 else 0) + Completions(GateStep(g, es[0]).0, es[1..])
  }

  /** The assets prop only ever turns on, as the hero section drives it. */
  predicate AssetsNeverRevert(es: seq<GateEvent>) {
    forall i :: 0 <= i < |es| ==> es[i].AssetsChanged? ==> es[i].ready
  }

  /**
   * With the assets never reverting, `onComplete` is called exactly once
   * over a run that makes the gate complete, whatever the order of click,
   * boot text and assets (so an early click is remembered), and never
   * otherwise.
   */
  lemma {:induction false} CompletesExactlyOnce(g: GateState, es: seq<GateEvent>)
    requires AssetsNeverRevert(es)
    ensures Complete(g) ==> Complete(Run(g, es))
    ensures Completions(g, es) == (if Complete(Run(g, es)) && !Complete(g) then 1 else 0)
    decreases |es|
  {
    if es != [] {
      var d := GateStep(g, es[0]).0;
      assert Complete(g) ==> Complete(d);
      assert AssetsNeverRevert(es[1..]) by {
        forall i | 0 <= i < |es[1..]| ensures es[1..][i].AssetsChanged? ==> es[1..][i].ready {
          assert es[1..][i] == es[i + 1];
        }
      }
      CompletesExactlyOnce(d, es[1..]);
    }
  }

  /** The `LoadingScreen` component's state. */
  class LoadingGate {
    var lines: seq<string>
    var pendingLines: set<nat>
    var bootPending: bool
    var bootTextComplete: bool
    var hasClicked: bool
    var assetsReady: bool

    function State(): GateState
      reads this
    {
      GateState(lines, pendingLines, bootPending, bootTextComplete, hasClicked, assetsReady)
    }

    ghost predicate Valid()
      reads this
    {
      GateInvariant(State())
    }

    constructor (assetsReady: bool)
      ensures Valid() && State() == InitialGate(assetsReady)
    {
      lines, pendingLines, bootPending, bootTextComplete := [], AllLines(), false, false;
      hasClicked, this.assetsReady := false, assetsReady;
    }

    /**
     * The timer of boot line i fires; returns whether `onComplete` was
     * called. The browser runs it only when it is the next due, and then
     * it is the timer of the first line not yet shown.
     */
    method OnLineTimer(i: nat) returns (completes: bool)
      requires Valid()
      modifies this
      ensures Valid() && (State(), completes) == GateStep(old(State()), LineTimer(i))
      ensures NextToFire(old(State()), i) ==> lines == old(lines) + [BootLines[|old(lines)|].text]
    {
      GateStepPreservesInvariant(State(), LineTimer(i));
      if NextToFire(State(), i) {
        TimersFireInArrayOrder(State(), i);
        lines := lines + [BootLines[i].text];
        pendingLines := pendingLines - {i};
        if i == |BootLines| - 1 {
          bootPending := true;
        }
      }
      completes := false;
    }

    method OnBootTimer() returns (completes: bool)
      requires Valid()
      modifies this
      ensures Valid() && (State(), completes) == GateStep(old(State()), BootTimer)
    {
      GateStepPreservesInvariant(State(), BootTimer);
      completes := false;
      if bootPending {
        bootPending, bootTextComplete := false, true;
        completes := assetsReady && hasClicked;
      }
    }

    /** `handleClick`. */
    method OnClick() returns (completes: bool)
      requires Valid()
      modifies this
      ensures Valid() && (State(), completes) == GateStep(old(State()), Click)
    {
      GateStepPreservesInvariant(State(), Click);
      completes := !hasClicked && bootTextComplete && assetsReady;
      hasClicked := true;
    }

    /** The `assetsReady` prop changes. */
    method OnAssetsChanged(ready: bool) returns (completes: bool)
      requires Valid()
      modifies this
      ensures Valid() && (State(), completes) == GateStep(old(State()), AssetsChanged(ready))
    {
      GateStepPreservesInvariant(State(), AssetsChanged(ready));
      completes := ready && !assetsReady && bootTextComplete && hasClicked;
      assetsReady := ready;
    }
  }
}
