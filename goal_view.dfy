/**
 * The goal widget of the clicking demo (`GoalView`).
 *
 * The widget shows one of three panels (no goal chosen, a goal in progress, the
 * success picture) plus a "Goal set!" label beside its title, keeps the active
 * goal threshold in `goal` (0 meaning "no active goal"), and shows the goal and
 * the progress towards it in two labels.
 *
 * The module has two layers. `Widget` and the `After...` functions describe the
 * widget's state as a value and what each operation does to it; the class
 * `GoalView` holds the same state in mutable fields and its methods are proved
 * to update them exactly as those functions say. Lemmas about the functions give
 * the properties of the state machine.
 */
module GoalWidget {
  import Decimal

  /** The three goal thresholds a user can pick. */
  datatype GoalSize = Small | Medium | Big
  {
    /** The threshold of the size, its raw value in the source enumeration. */
    function RawValue(): (r: int)
      ensures r > 0
    {
      match this
      case Small => 15
      case Medium => 45
      case Big => 100
    }

    /** The button title of the size: the decimal form of its raw value. */
    function Text(): (s: string)
      ensures Decimal.IsCanonical(s)
      ensures Decimal.DecimalToNat(s) == RawValue()
    {
      Decimal.DecimalRoundTrip(RawValue());
      Decimal.NatToDecimal(RawValue())
    }
  }

  /**
   * Visibility of the panels, as `isHidden` flags: the empty-goal panel, the
   * goal-progress panel, the "Goal set!" label and the success panel.
   */
  datatype Panels = Panels(emptyGoalHidden: bool, goalHidden: bool, goalSetHidden: bool, successHidden: bool)

  /**
   * What the goal title label and the progress label show. Both are written
   * together from one (progress, goal) pair: the title shows `goal`, the
   * progress label shows `progress`/`goal`. `Blank` is the state before the
   * first write.
   */
  datatype Labels = Blank | Showing(progress: int, goal: int)

  /** The whole state of a goal widget. */
  datatype Widget = Widget(goal: int, panels: Panels, labels: Labels)

  /** Panels with only the success panel visible. */
  const SuccessOnly := Panels(true, true, true, false)

  function AfterShowSuccessView(w: Widget, show: bool): Widget
  {
    w.(panels := w.panels.(successHidden := !show))
  }

  function AfterShowEmptyGoal(w: Widget, show: bool): Widget
  {
    w.(panels := w.panels.(emptyGoalHidden := !show))
  }

  function AfterShowGoal(w: Widget, show: bool): Widget
  {
    w.(panels := w.panels.(goalHidden := !show, goalSetHidden := !show))
  }

  function AfterSetLabels(w: Widget, progress: int, goal: int): Widget
  {
    w.(labels := Showing(progress, goal))
  }

  /** `setProgress(p)` completes the active goal: there is one and `p` equals it exactly. */
  predicate Fires(w: Widget, p: int)
  {
    w.goal != 0 && p == w.goal
  }

  /**
   * `setProgress(p)`: the labels show `p` against the goal as it was before the
   * call; when the goal is met exactly, every panel but the success panel is
   * hidden, the success panel is shown and the goal is cleared. Otherwise the
   * goal and every panel stay as they were, also when `p` is past the goal.
   */
  function AfterSetProgress(w: Widget, p: int): (r: Widget)
    ensures r.labels == Showing(p, w.goal)
    ensures Fires(w, p) ==> r.goal == 0 && r.panels == SuccessOnly
    ensures !Fires(w, p) ==> r.goal == w.goal && r.panels == w.panels
  {
    var shown := AfterSetLabels(w, p, w.goal);
    if w.goal != 0 && p == w.goal then
      AfterShowSuccessView(AfterShowEmptyGoal(AfterShowGoal(shown, false), false), true).(goal := 0)
    else
      shown
  }

  /**
   * `setGoal(size)`: the goal becomes the size's threshold, the labels show 0
   * against it, the goal panel and "Goal set!" are shown and the empty-goal
   * panel is hidden. The success panel is left as it was.
   */
  function AfterSetGoal(w: Widget, size: GoalSize): (r: Widget)
    ensures r.goal == size.RawValue() && r.goal != 0
    ensures r.labels == Showing(0, size.RawValue())
    ensures !r.panels.goalHidden && !r.panels.goalSetHidden && r.panels.emptyGoalHidden
    ensures r.panels.successHidden == w.panels.successHidden
  {
    var armed := w.(goal := size.RawValue());
    AfterShowEmptyGoal(AfterShowGoal(AfterSetLabels(armed, 0, size.RawValue()), true), false)
  }

  /** The state a freshly built widget starts from, before `init(frame:)` runs its setup. */
  const Unset := Widget(0, Panels(false, false, false, false), Blank)

  /**
   * The state `init(frame:)` leaves: `setupGoalView` calls `setProgress(0)`,
   * then the goal panel and the success panel are hidden. The empty-goal panel
   * keeps its default (visible).
   */
  function Initial(): (r: Widget)
    ensures r.goal == 0 && r.labels == Showing(0, 0)
    ensures r.panels == Panels(false, true, true, true)
  {
    AfterShowSuccessView(AfterShowGoal(AfterSetProgress(Unset, 0), false), false)
  }

  /** Feeds a sequence of progress values to `setProgress`, in order. */
  function ProgressRun(w: Widget, ps: seq<int>): Widget
    decreases |ps|
  {
    if ps == [] then w else ProgressRun(AfterSetProgress(w, ps[0]), ps[1..])
  }

  /** The goal panel and the "Goal set!" label are shown or hidden together. */
  predicate Coupled(p: Panels)
  {
    p.goalHidden == p.goalSetHidden
  }

  /** Exactly one of the three panels is visible. */
  predicate ExactlyOnePanel(p: Panels)
  {
    (if p.emptyGoalHidden then 0 else 1)
      + (if p.goalHidden then 0 else 1)
      + (if p.successHidden then 0 else 1) == 1
  }

  /**
   * The widget shows the panel its goal calls for: the goal panel exactly
   * when a goal is active, and no other panel beside it.
   */
  predicate Consistent(w: Widget)
  {
    Coupled(w.panels) && ExactlyOnePanel(w.panels) && (w.goal != 0 <==> !w.panels.goalHidden)
  }

  /** A new widget shows only the empty-goal panel; `setProgress(0)` during setup changed nothing. */
  lemma InitialIsEmpty()
    ensures Consistent(Initial())
    ensures !Initial().panels.emptyGoalHidden
    ensures !Fires(Unset, 0) && AfterSetProgress(Unset, 0).panels == Unset.panels
  {
  }

  /** Every operation keeps the goal panel and the "Goal set!" label together. */
  lemma OperationsKeepCoupled(w: Widget, p: int, size: GoalSize)
    requires Coupled(w.panels)
    ensures Coupled(AfterSetProgress(w, p).panels)
    ensures Coupled(AfterSetGoal(w, size).panels)
    ensures forall b :: Coupled(AfterShowSuccessView(w, b).panels) && Coupled(AfterShowEmptyGoal(w, b).panels)
  {
  }

  /** `setProgress` never breaks panel exclusivity. */
  lemma SetProgressKeepsConsistent(w: Widget, p: int)
    requires Consistent(w)
    ensures Consistent(AfterSetProgress(w, p))
  {
  }

  /** `setGoal` keeps panel exclusivity as long as the success panel is hidden. */
  lemma SetGoalKeepsConsistent(w: Widget, size: GoalSize)
    requires Consistent(w) && w.panels.successHidden
    ensures Consistent(AfterSetGoal(w, size))
  {
  }

  /**
   * `setGoal` never hides the success panel: called after a success it leaves
   * both the goal panel and the success panel visible.
   */
  lemma SetGoalAfterSuccessShowsTwoPanels(w: Widget, size: GoalSize)
    requires !w.panels.successHidden
    ensures var r := AfterSetGoal(w, size);
      !r.panels.goalHidden && !r.panels.successHidden && !ExactlyOnePanel(r.panels) && !Consistent(r)
  {
  }

  /** Success fires at most once: without an active goal no progress value changes the goal or a panel. */
  lemma {:induction false} SuccessIsOneShot(w: Widget, ps: seq<int>)
    requires w.goal == 0
    ensures ProgressRun(w, ps).goal == 0 && ProgressRun(w, ps).panels == w.panels
    decreases |ps|
  {
    if ps != [] {
      SuccessIsOneShot(AfterSetProgress(w, ps[0]), ps[1..]);
    }
  }

  /** Progress values that all differ from the active goal change neither the goal nor a panel. */
  lemma {:induction false} MissingTheGoalChangesNothing(w: Widget, ps: seq<int>)
    requires forall i :: 0 <= i < |ps| ==> ps[i] != w.goal
    ensures ProgressRun(w, ps).goal == w.goal && ProgressRun(w, ps).panels == w.panels
    decreases |ps|
  {
    if ps != [] {
      MissingTheGoalChangesNothing(AfterSetProgress(w, ps[0]), ps[1..]);
    }
  }

  /** Init, then `setGoal(s)`, then `setProgress(s)`: the goal is met and success is shown. */
  lemma ChosenGoalIsMetExactly(size: GoalSize)
    ensures var armed := AfterSetGoal(Initial(), size);
      Consistent(armed) && armed.goal == size.RawValue()
      && AfterSetProgress(armed, size.RawValue() - 1).labels == Showing(size.RawValue() - 1, size.RawValue())
      && AfterSetProgress(armed, size.RawValue() - 1).panels == armed.panels
      && AfterSetProgress(armed, size.RawValue()).goal == 0
      && AfterSetProgress(armed, size.RawValue()).panels == SuccessOnly
  {
  }

  /** The three button titles differ: a title reads back as its size's threshold, and the thresholds differ. */
  lemma GoalTitlesDistinct(a: GoalSize, b: GoalSize)
    requires a != b
    ensures a.Text() != b.Text()
  {
  }

  /** The goal sizes have exactly the thresholds 15, 45 and 100, and their titles read "15", "45", "100". */
  lemma GoalSizeValues()
    ensures Small.RawValue() == 15 && Medium.RawValue() == 45 && Big.RawValue() == 100
    ensures Small.Text() == "15" && Medium.Text() == "45" && Big.Text() == "100"
  {
  }

  /** The goal widget view, with the state `GoalView` keeps in its subviews' flags and labels. */
  class GoalView {
    var goal: int
    var emptyGoalHidden: bool
    var goalHidden: bool
    var goalSetHidden: bool
    var successHidden: bool
    var labels: Labels

    /** The current state as a value. */
    function Snapshot(): Widget
      reads this
    {
      Widget(goal, Panels(emptyGoalHidden, goalHidden, goalSetHidden, successHidden), labels)
    }

    /** `init(frame:)`: the empty-goal panel visible, everything else hidden, no goal. */
    constructor ()
      ensures Snapshot() == Initial()
    {
      goal := 0;
      emptyGoalHidden, goalHidden, goalSetHidden, successHidden := false, false, false, false;
      labels := Blank;
      new;
      SetupGoalView();
      ShowGoal(false);
      ShowSuccessView(false);
    }

    method ShowSuccessView(show: bool)
      modifies this
      ensures Snapshot() == AfterShowSuccessView(old(Snapshot()), show)
    {
      successHidden := !show;
    }

    method ShowEmptyGoal(show: bool)
      modifies this
      ensures Snapshot() == AfterShowEmptyGoal(old(Snapshot()), show)
    {
      emptyGoalHidden := !show;
    }

    /** Shows or hides the goal panel and the "Goal set!" label, always together. */
    method ShowGoal(show: bool)
      modifies this
      ensures goalHidden == goalSetHidden == !show
      ensures Snapshot() == AfterShowGoal(old(Snapshot()), show)
    {
      goalHidden := !show;
      goalSetHidden := !show;
    }

    method SetProgress(progress: int)
      modifies this
      ensures labels == Showing(progress, old(goal))
      ensures Snapshot() == AfterSetProgress(old(Snapshot()), progress)
    {
      SetLabels(progress, goal);
      if goal != 0 && progress == goal {
        ShowGoal(false);
        ShowEmptyGoal(false);
        ShowSuccessView(true);
        goal := 0;
      }
    }

    method SetGoal(size: GoalSize)
      modifies this
      ensures goal == size.RawValue() && successHidden == old(successHidden)
      ensures Snapshot() == AfterSetGoal(old(Snapshot()), size)
    {
      goal := size.RawValue();
      SetLabels(0, size.RawValue());
      ShowGoal(true);
      ShowEmptyGoal(false);
    }

    /** The part of `setupGoalView` that touches state: it reports progress 0. */
    method SetupGoalView()
      modifies this
      ensures Snapshot() == AfterSetProgress(old(Snapshot()), 0)
    {
      SetProgress(0);
    }

    /** The private `setProgress(_:goal:)`: writes both labels from one pair. */
    method SetLabels(progress: int, goal: int)
      modifies this
      ensures Snapshot() == AfterSetLabels(old(Snapshot()), progress, goal)
    {
      labels := Showing(progress, goal);
    }

    method OnSmallGoalTapped()
      modifies this
      ensures Snapshot() == AfterSetGoal(old(Snapshot()), Small)
    {
      SetGoal(Small);
    }

    method OnMediumGoalTapped()
      modifies this
      ensures Snapshot() == AfterSetGoal(old(Snapshot()), Medium)
    {
      SetGoal(Medium);
    }

    method OnBigGoalTapped()
      modifies this
      ensures Snapshot() == AfterSetGoal(old(Snapshot()), Big)
    {
      SetGoal(Big);
    }
  }
}
