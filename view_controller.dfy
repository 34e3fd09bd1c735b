/**
 * The screen controller of the clicking demo (`ViewController`): a tap counter
 * whose every change is shown in its own label and pushed into the goal widget
 * as the current progress.
 *
 * As in `GoalWidget`, `Screen` and the functions over it describe the state as a
 * value; the class `ViewController` keeps it in fields and is proved to follow
 * those functions. The lemmas give what taps and goal choices do over time.
 */
module ClickCounter {
  import opened GoalWidget

  /** What the "Total count" label shows; `NoCount` before the first write. */
  datatype CountLabel = NoCount | Total(count: int)

  /** The whole state of the screen: the counter, its label and the goal widget. */
  datatype Screen = Screen(clickCount: int, countLabel: CountLabel, widget: Widget)

  /**
   * An assignment to `clickCount`, with its `didSet` observer: the label shows
   * the new value, then the goal widget receives it as progress.
   */
  function AfterAssignClickCount(s: Screen, value: int): Screen
  {
    Screen(value, Total(value), AfterSetProgress(s.widget, value))
  }

  /** `onClickTapped`: the counter goes up by one, through the observer. */
  function Tap(s: Screen): Screen
  {
    AfterAssignClickCount(s, s.clickCount + 1)
  }

  /** `n` taps in a row. */
  function Taps(s: Screen, n: nat): (r: Screen)
    ensures r.clickCount == s.clickCount + n
    ensures n > 0 ==> r.countLabel == Total(r.clickCount) && r.widget.labels.Showing? && r.widget.labels.progress == r.clickCount
  {
    if n == 0 then s else Tap(Taps(s, n - 1))
  }

  /**
   * A direct `setGoal(size)` call on the widget, which is what each goal
   * button's handler makes; the counter is not touched.
   */
  function ChooseGoal(s: Screen, size: GoalSize): Screen
  {
    s.(widget := AfterSetGoal(s.widget, size))
  }

  /** `setupClickView`: assigns 0 to the counter, which runs the observer. */
  function AfterSetupClickView(s: Screen): Screen
  {
    AfterAssignClickCount(s, 0)
  }

  /** The screen once the view has loaded: a new controller, then `setupClickView`. */
  function Launched(): (r: Screen)
    ensures r.clickCount == 0 && r.countLabel == Total(0) && r.widget == Initial()
  {
    AfterSetupClickView(Screen(0, NoCount, Initial()))
  }

  /**
   * The user's actions: the tap button, or one of the three goal buttons.
   * `Run` applies a goal button in any state; the buttons themselves sit in
   * the empty-goal panel, so a user can reach them only while that panel is
   * visible (`GoalButtonsReachable`).
   */
  datatype Event = Click | GoalButton(size: GoalSize)

  function Step(s: Screen, e: Event): Screen
  {
    match e
    case Click => Tap(s)
    case GoalButton(size) => ChooseGoal(s, size)
  }

  /** The screen after a sequence of user actions, applied in order. */
  function Run(s: Screen, evs: seq<Event>): Screen
    decreases |evs|
  {
    if evs == [] then s else Step(Run(s, evs[..|evs| - 1]), evs[|evs| - 1])
  }

  /** How many of the actions are taps of the counter button. */
  function TapCount(evs: seq<Event>): nat
    decreases |evs|
  {
    if evs == [] then 0 else TapCount(evs[..|evs| - 1]) + (if evs[|evs| - 1].Click? then 1 else 0)
  }

  /** Without an active goal, any number of taps changes neither the goal nor a panel. */
  lemma {:induction false} TapsWithoutGoalChangeNothing(s: Screen, n: nat)
    requires s.widget.goal == 0
    ensures Taps(s, n).widget.goal == 0 && Taps(s, n).widget.panels == s.widget.panels
  {
    if n > 0 {
      TapsWithoutGoalChangeNothing(s, n - 1);
    }
  }

  /** Taps that leave the counter below the goal only update the labels. */
  lemma {:induction false} TapsBelowGoal(s: Screen, k: nat)
    requires s.widget.goal != 0 && s.clickCount + k < s.widget.goal
    ensures Taps(s, k).widget.goal == s.widget.goal && Taps(s, k).widget.panels == s.widget.panels
    ensures k > 0 ==> Taps(s, k).widget.labels == Showing(s.clickCount + k, s.widget.goal)
  {
    if k > 0 {
      TapsBelowGoal(s, k - 1);
    }
  }

  /** From a count `c` below an active goal `g`, tap number `g - c` completes the goal. */
  lemma TapsReachGoal(s: Screen)
    requires s.widget.goal != 0 && s.clickCount < s.widget.goal
    ensures var r := Taps(s, s.widget.goal - s.clickCount);
      r.widget.goal == 0 && r.widget.panels == SuccessOnly
      && r.widget.labels == Showing(s.widget.goal, s.widget.goal)
  {
    TapsBelowGoal(s, s.widget.goal - s.clickCount - 1);
  }

  /** Once the counter is at or past an active goal, no tap completes it: the trigger is equality. */
  lemma {:induction false} TapsPastGoal(s: Screen, n: nat)
    requires s.widget.goal != 0 && s.clickCount >= s.widget.goal
    ensures Taps(s, n).widget.goal == s.widget.goal && Taps(s, n).widget.panels == s.widget.panels
  {
    if n > 0 {
      TapsPastGoal(s, n - 1);
    }
  }

  /**
   * A goal `g` chosen while the counter is at `c < g` is met after exactly
   * `g - c` more taps, and not before.
   */
  lemma SuccessAfterExactlyRemainingTaps(s: Screen, size: GoalSize, k: nat)
    requires s.clickCount < size.RawValue()
    ensures var t := ChooseGoal(s, size);
      (k < size.RawValue() - s.clickCount ==>
         Taps(t, k).widget.goal == size.RawValue() && Taps(t, k).widget.panels == t.widget.panels)
      && Taps(t, size.RawValue() - s.clickCount).widget.goal == 0
      && Taps(t, size.RawValue() - s.clickCount).widget.panels == SuccessOnly
  {
    var t := ChooseGoal(s, size);
    if k < size.RawValue() - s.clickCount {
      TapsBelowGoal(t, k);
    }
    TapsReachGoal(t);
  }

  /**
   * A goal chosen when the counter is already at or past it is never met:
   * `setGoal` shows progress 0 but does not reset the counter.
   */
  lemma GoalChosenTooLateIsNeverMet(s: Screen, size: GoalSize, n: nat)
    requires s.clickCount >= size.RawValue()
    ensures var t := ChooseGoal(s, size);
      t.widget.labels == Showing(0, size.RawValue())
      && Taps(t, n).widget.goal == size.RawValue() && Taps(t, n).widget.panels == t.widget.panels
  {
    TapsPastGoal(ChooseGoal(s, size), n);
  }

  /** The counter grows by exactly one per tap and never decreases, whatever else happens. */
  lemma {:induction false} RunCountsClicks(s: Screen, evs: seq<Event>)
    ensures Run(s, evs).clickCount == s.clickCount + TapCount(evs)
    ensures Run(s, evs).clickCount >= s.clickCount
    decreases |evs|
  {
    if evs != [] {
      RunCountsClicks(s, evs[..|evs| - 1]);
    }
  }

  /** Along any run the goal panel and the "Goal set!" label stay together. */
  lemma {:induction false} RunKeepsCoupled(s: Screen, evs: seq<Event>)
    requires Coupled(s.widget.panels)
    ensures Coupled(Run(s, evs).widget.panels)
    decreases |evs|
  {
    if evs != [] {
      RunKeepsCoupled(s, evs[..|evs| - 1]);
      var before := Run(s, evs[..|evs| - 1]);
      match evs[|evs| - 1]
      case Click => OperationsKeepCoupled(before.widget, before.clickCount + 1, Small);
      case GoalButton(size) => OperationsKeepCoupled(before.widget, 0, size);
    }
  }

  /** Nothing ever hides the success panel again once it is shown. */
  lemma {:induction false} SuccessStaysVisible(s: Screen, evs: seq<Event>)
    requires !s.widget.panels.successHidden
    ensures !Run(s, evs).widget.panels.successHidden
    decreases |evs|
  {
    if evs != [] {
      SuccessStaysVisible(s, evs[..|evs| - 1]);
    }
  }

  /**
   * Exactly one panel is visible along every run in which no goal button is
   * tapped while the success panel shows.
   */
  lemma {:induction false} RunKeepsConsistent(s: Screen, evs: seq<Event>)
    requires Consistent(s.widget)
    requires forall i :: 0 <= i < |evs| && evs[i].GoalButton? ==> Run(s, evs[..i]).widget.panels.successHidden
    ensures Consistent(Run(s, evs).widget)
    decreases |evs|
  {
    if evs != [] {
      var prefix := evs[..|evs| - 1];
      forall i | 0 <= i < |prefix| && prefix[i].GoalButton?
        ensures Run(s, prefix[..i]).widget.panels.successHidden
      {
        assert prefix[i] == evs[i];
        assert prefix[..i] == evs[..i];
      }
      RunKeepsConsistent(s, prefix);
      var before := Run(s, prefix);
      assert evs[..|evs| - 1] == prefix;
      match evs[|evs| - 1]
      case Click => SetProgressKeepsConsistent(before.widget, before.clickCount + 1);
      case GoalButton(size) => SetGoalKeepsConsistent(before.widget, size);
    }
  }

  /**
   * Every goal button in `evs` is pressed while the empty-goal panel, which
   * holds the buttons, is visible. The tap button is always visible.
   */
  predicate GoalButtonsReachable(s: Screen, evs: seq<Event>)
  {
    forall i :: 0 <= i < |evs| && evs[i].GoalButton? ==> !Run(s, evs[..i]).widget.panels.emptyGoalHidden
  }

  /**
   * Exactly one panel is visible along every run whose goal buttons are
   * pressed only while they can be reached: the empty-goal panel being
   * visible rules out the success panel, so `setGoal` never meets it.
   */
  lemma {:induction false} ReachableRunKeepsConsistent(s: Screen, evs: seq<Event>)
    requires Consistent(s.widget)
    requires GoalButtonsReachable(s, evs)
    ensures Consistent(Run(s, evs).widget)
    decreases |evs|
  {
    if evs != [] {
      var prefix := evs[..|evs| - 1];
      forall i | 0 <= i < |prefix| && prefix[i].GoalButton?
        ensures !Run(s, prefix[..i]).widget.panels.emptyGoalHidden
      {
        assert prefix[i] == evs[i];
        assert prefix[..i] == evs[..i];
      }
      ReachableRunKeepsConsistent(s, prefix);
      var before := Run(s, prefix);
      assert evs[..|evs| - 1] == prefix;
      match evs[|evs| - 1]
      case Click => SetProgressKeepsConsistent(before.widget, before.clickCount + 1);
      case GoalButton(size) => SetGoalKeepsConsistent(before.widget, size);
    }
  }

  /** From launch, every sequence of actions a user can perform shows exactly one panel. */
  lemma UserRunsShowOnePanel(evs: seq<Event>)
    requires GoalButtonsReachable(Launched(), evs)
    ensures Consistent(Run(Launched(), evs).widget)
    ensures ExactlyOnePanel(Run(Launched(), evs).widget.panels)
  {
    InitialIsEmpty();
    ReachableRunKeepsConsistent(Launched(), evs);
  }

  /** After launch, ten taps without a goal: the counter reads 10 and the widget still shows the empty panel. */
  lemma TenTapsWithoutGoal()
    ensures Taps(Launched(), 10).clickCount == 10
    ensures Taps(Launched(), 10).countLabel == Total(10)
    ensures Taps(Launched(), 10).widget.goal == 0
    ensures Taps(Launched(), 10).widget.panels == Initial().panels
  {
    TapsWithoutGoalChangeNothing(Launched(), 10);
  }

  /** After launch, a medium goal and 30 taps: the widget shows 30/45 and the goal is still active. */
  lemma MediumGoalAfterThirtyTaps()
    ensures var r := Taps(ChooseGoal(Launched(), Medium), 30);
      r.widget.labels == Showing(30, 45) && r.widget.goal == 45 && Consistent(r.widget)
  {
    InitialIsEmpty();
    SetGoalKeepsConsistent(Initial(), Medium);
    TapsBelowGoal(ChooseGoal(Launched(), Medium), 30);
  }

  /**
   * After launch: a small goal, 15 taps (success), then a direct `setGoal`
   * call with a medium goal. The goal panel and the success panel are then
   * both visible. A user cannot make this last call through a button, since
   * the buttons' panel is hidden by then.
   */
  lemma RegoalAfterSuccessShowsTwoPanels()
    ensures var r := ChooseGoal(Taps(ChooseGoal(Launched(), Small), 15), Medium);
      !r.widget.panels.goalHidden && !r.widget.panels.successHidden && !Consistent(r.widget)
  {
    TapsReachGoal(ChooseGoal(Launched(), Small));
    SetGoalAfterSuccessShowsTwoPanels(Taps(ChooseGoal(Launched(), Small), 15).widget, Medium);
  }

  /** The screen controller, with the counter, its label and the goal widget it owns. */
  class ViewController {
    var clickCount: int
    var countLabel: CountLabel
    const goalView: GoalView

    /** The current state as a value. */
    function Snapshot(): Screen
      reads this, goalView
    {
      Screen(clickCount, countLabel, goalView.Snapshot())
    }

    /** A new controller: counter 0 (the initial value does not run the observer) and a new goal widget. */
    constructor ()
      ensures fresh(goalView)
      ensures Snapshot() == Screen(0, NoCount, Initial())
    {
      clickCount := 0;
      countLabel := NoCount;
      goalView := new GoalView();
    }

    /** Assigns the counter; the body after the assignment is the `didSet` observer. */
    method AssignClickCount(value: int)
      modifies this, goalView
      ensures clickCount == value && countLabel == Total(value)
      ensures Snapshot() == AfterAssignClickCount(old(Snapshot()), value)
    {
      clickCount := value;
      SetClickCount(clickCount);
      goalView.SetProgress(clickCount);
    }

    /** The state-changing part of `setupClickView`: the counter is reset to 0. */
    method SetupClickView()
      modifies this, goalView
      ensures Snapshot() == AfterSetupClickView(old(Snapshot()))
    {
      AssignClickCount(0);
    }

    /** Writes the "Total count" label. */
    method SetClickCount(count: int)
      modifies this
      ensures countLabel == Total(count) && clickCount == old(clickCount)
    {
      countLabel := Total(count);
    }

    method OnClickTapped()
      modifies this, goalView
      ensures clickCount == old(clickCount) + 1
      ensures Snapshot() == Tap(old(Snapshot()))
    {
      AssignClickCount(clickCount + 1);
    }
  }
}
