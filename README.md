# Clicking goal widget: a Dafny model

This project models the logic of a small single-screen demo app: a tap counter
(`ViewController`) and a goal widget (`GoalView`) that the counter drives.

- `GoalView` keeps an integer `goal` (0 means no active goal), four visibility
  flags (the empty-goal panel, the goal panel, the "Goal set!" label and the
  success panel) and two labels that show a (progress, goal) pair. `setGoal`
  arms a threshold of 15, 45 or 100. `setProgress(p)` shows `p` against the goal
  and, when `p` equals an active goal exactly, shows the success panel, hides the
  others and clears the goal.
- `ViewController` keeps `clickCount`. Every assignment to it runs a `didSet`
  observer that writes the count label and calls `goalView.setProgress` with the
  new value. Setup assigns 0; every tap adds 1.

Files:

- `decimal.dfy` (module `Decimal`): the decimal rendering used for a goal size's
  `text`, with its inverse and the round trip.
- `goal_view.dfy` (module `GoalWidget`): `GoalSize`; the widget state as a value
  (`Widget`) with one function per operation; the class `GoalView`, whose fields
  are the source's state and whose methods are proved to change them exactly as
  those functions say (the tie is `Snapshot()`); lemmas on exclusivity, coupling
  of the goal panel and its label, and one-shot success.
- `view_controller.dfy` (module `ClickCounter`): the screen state (`Screen`),
  taps and goal choices as functions, sequences of user actions (`Run`), the
  class `ViewController`, and lemmas on what taps do over time.

One might expect a three-way state (empty, active, success) with `setGoal`
always moving to "active". The code instead keeps independent visibility flags,
and the model follows the code. The consequence is proved, not hidden:
`setGoal` itself never hides the success panel. A direct `setGoal` call after a
success leaves the goal panel and the success panel both visible
(`SetGoalAfterSuccessShowsTwoPanels`, `RegoalAfterSuccessShowsTwoPanels`).
A user cannot make that call through the app, though. The goal buttons are
subviews of the empty-goal panel (RefactoringWithStackViews/GoalView.swift:176-188). That panel is hidden
by the first goal and by a success, and nothing shows it again. Along every
sequence of actions the user can perform, exactly one panel is visible
(`UserRunsShowOnePanel`). Also, `setGoal` only *displays* progress 0.
The counter is not reset, so a goal at or below the current count is never met
(`GoalChosenTooLateIsNeverMet`).

## Model

| member | source | states |
|---|---|---|
| `Decimal.NatToDecimal` | RefactoringWithStackViews/GoalView.swift:243-245 | the rendering of a number is a non-empty digit string with no leading zero, starting with '0' only for 0 |
| `Decimal.DecimalRoundTrip` | RefactoringWithStackViews/GoalView.swift:243-245 | reading back the rendering of `n` gives `n` |
| `GoalWidget.GoalSize.RawValue` | RefactoringWithStackViews/GoalView.swift:240-241 | every goal size's threshold is positive, so an armed goal is never the "no goal" value 0 |
| `GoalWidget.GoalSize.Text` | RefactoringWithStackViews/GoalView.swift:243-245 | a size's title is a canonical decimal numeral that reads back as its raw value |
| `GoalWidget.GoalTitlesDistinct` | RefactoringWithStackViews/GoalView.swift:240-245 | different goal sizes have different button titles |
| `GoalWidget.GoalSizeValues` | RefactoringWithStackViews/GoalView.swift:240-245 | the thresholds are exactly 15, 45 and 100, and their titles are "15", "45" and "100" |
| `GoalWidget.AfterSetProgress` | RefactoringWithStackViews/GoalView.swift:97-107 | the labels show (p, goal before the call); success fires exactly when the goal is non-zero and p equals it, and then the goal is 0 and only the success panel is visible; otherwise the goal and all flags are unchanged, including for p past the goal |
| `GoalWidget.AfterSetGoal` | RefactoringWithStackViews/GoalView.swift:109-114 | the goal becomes the size's non-zero threshold, the labels show (0, threshold), the goal panel and "Goal set!" are visible, the empty panel hidden, the success panel unchanged |
| `GoalWidget.Initial` | RefactoringWithStackViews/GoalView.swift:48-76 | after construction the goal is 0, the labels show (0, 0), the empty panel is visible and the goal panel, "Goal set!" and the success panel are hidden |
| `GoalWidget.InitialIsEmpty` | RefactoringWithStackViews/GoalView.swift:70-75 | the constructed widget shows exactly one panel, and the `setProgress(0)` made during setup changes no flag |
| `GoalWidget.OperationsKeepCoupled` | RefactoringWithStackViews/GoalView.swift:92-95 | every operation keeps the goal panel and the "Goal set!" label at the same visibility |
| `GoalWidget.SetProgressKeepsConsistent` | RefactoringWithStackViews/GoalView.swift:97-107 | `setProgress` keeps "exactly one panel visible, the goal panel exactly when a goal is active" |
| `GoalWidget.SetGoalKeepsConsistent` | RefactoringWithStackViews/GoalView.swift:109-114 | `setGoal` keeps that invariant when the success panel is hidden |
| `GoalWidget.SetGoalAfterSuccessShowsTwoPanels` | RefactoringWithStackViews/GoalView.swift:109-114 | `setGoal` with the success panel visible leaves the goal panel and the success panel both visible |
| `GoalWidget.SuccessIsOneShot` | RefactoringWithStackViews/GoalView.swift:100-106 | with no active goal, no sequence of `setProgress` calls changes the goal or any flag |
| `GoalWidget.MissingTheGoalChangesNothing` | RefactoringWithStackViews/GoalView.swift:100 | progress values that all differ from the goal leave the goal and every flag unchanged |
| `GoalWidget.ChosenGoalIsMetExactly` | RefactoringWithStackViews/GoalView.swift:97-114 | after init and `setGoal(s)`, progress s-1 only updates the labels and progress s fires success |
| `GoalWidget.GoalView.constructor` | RefactoringWithStackViews/GoalView.swift:52-76 | the fields hold the `Initial` state |
| `GoalWidget.GoalView.ShowSuccessView` | RefactoringWithStackViews/GoalView.swift:84-86 | the state becomes `AfterShowSuccessView` of the old one: the success panel is hidden exactly when `show` is false, nothing else changes |
| `GoalWidget.GoalView.ShowEmptyGoal` | RefactoringWithStackViews/GoalView.swift:88-90 | the state becomes `AfterShowEmptyGoal` of the old one: the empty panel is hidden exactly when `show` is false, nothing else changes |
| `GoalWidget.GoalView.ShowGoal` | RefactoringWithStackViews/GoalView.swift:92-95 | the state becomes `AfterShowGoal` of the old one: the goal panel and "Goal set!" both take visibility `show`, nothing else changes |
| `GoalWidget.GoalView.SetProgress` | RefactoringWithStackViews/GoalView.swift:97-107 | the fields change exactly as `AfterSetProgress` says |
| `GoalWidget.GoalView.SetGoal` | RefactoringWithStackViews/GoalView.swift:109-114 | the fields change exactly as `AfterSetGoal` says |
| `GoalWidget.GoalView.SetupGoalView` | RefactoringWithStackViews/GoalView.swift:143-144 | setup reports progress 0 through `setProgress` |
| `GoalWidget.GoalView.SetLabels` | RefactoringWithStackViews/GoalView.swift:220-223 | the state becomes `AfterSetLabels` of the old one: both labels are written from the one (progress, goal) pair, nothing else changes |
| `GoalWidget.GoalView.OnSmallGoalTapped` | RefactoringWithStackViews/GoalView.swift:227-229 | the small button arms goal 15 through `setGoal` |
| `GoalWidget.GoalView.OnMediumGoalTapped` | RefactoringWithStackViews/GoalView.swift:231-233 | the medium button arms goal 45 through `setGoal` |
| `GoalWidget.GoalView.OnBigGoalTapped` | RefactoringWithStackViews/GoalView.swift:235-237 | the big button arms goal 100 through `setGoal` |
| `ClickCounter.Taps` | RefactoringWithStackViews/ViewController.swift:101-103 | n taps raise the counter by exactly n; after a tap both the count label and the widget's progress show the counter |
| `ClickCounter.Launched` | RefactoringWithStackViews/ViewController.swift:67-68 | after setup the counter is 0, the label shows 0 and the widget is unchanged from construction |
| `ClickCounter.TapsWithoutGoalChangeNothing` | RefactoringWithStackViews/ViewController.swift:15-20 | with no goal, any number of taps leaves the goal 0 and every flag unchanged |
| `ClickCounter.TapsBelowGoal` | RefactoringWithStackViews/ViewController.swift:15-20 | taps that keep the counter below an active goal only update the labels |
| `ClickCounter.TapsReachGoal` | RefactoringWithStackViews/ViewController.swift:15-20 | from count c below goal g, g - c taps fire success and clear the goal |
| `ClickCounter.TapsPastGoal` | RefactoringWithStackViews/GoalView.swift:100 | once the counter is at or past an active goal, no tap fires success |
| `ClickCounter.SuccessAfterExactlyRemainingTaps` | RefactoringWithStackViews/ViewController.swift:101-103 | a goal g chosen at count c < g fires after exactly g - c taps and not before |
| `ClickCounter.GoalChosenTooLateIsNeverMet` | RefactoringWithStackViews/GoalView.swift:110-111 | a goal chosen at count c >= g shows progress 0 but is never met, since the counter is not reset |
| `ClickCounter.RunCountsClicks` | RefactoringWithStackViews/ViewController.swift:101-103 | along any sequence of actions the counter grows by the number of taps and never decreases |
| `ClickCounter.RunKeepsCoupled` | RefactoringWithStackViews/GoalView.swift:92-95 | along any sequence of actions the goal panel and "Goal set!" stay equal |
| `ClickCounter.SuccessStaysVisible` | RefactoringWithStackViews/GoalView.swift:84-86 | once visible, the success panel stays visible along any sequence of actions |
| `ClickCounter.RunKeepsConsistent` | RefactoringWithStackViews/GoalView.swift:100-114 | exactly one panel is visible along every run in which no goal is chosen while the success panel shows |
| `ClickCounter.TenTapsWithoutGoal` | RefactoringWithStackViews/ViewController.swift:101-103 | after launch, ten taps with no goal give count 10 and leave the widget's panels as constructed |
| `ClickCounter.MediumGoalAfterThirtyTaps` | RefactoringWithStackViews/GoalView.swift:220-223 | after launch, a medium goal and 30 taps show 30/45 with the goal still active |
| `ClickCounter.RegoalAfterSuccessShowsTwoPanels` | RefactoringWithStackViews/GoalView.swift:109-114 | small goal (`ChooseGoal`, the `setGoal` call a goal button makes), 15 taps, then a direct `setGoal` call with a medium goal: the goal panel and the success panel are both visible |
| `ClickCounter.ReachableRunKeepsConsistent` | RefactoringWithStackViews/GoalView.swift:176-188 | exactly one panel stays visible along every run whose goal buttons are pressed only while the empty-goal panel holding them is visible |
| `ClickCounter.UserRunsShowOnePanel` | RefactoringWithStackViews/GoalView.swift:176-188 | from launch, every sequence of actions a user can perform shows exactly one panel |
| `ClickCounter.ViewController.constructor` | RefactoringWithStackViews/ViewController.swift:15-39 | a new controller has count 0, no count text and a freshly constructed goal widget |
| `ClickCounter.ViewController.AssignClickCount` | RefactoringWithStackViews/ViewController.swift:15-20 | the state becomes `AfterAssignClickCount` of the old one: an assignment stores the value, writes the count label with it, then calls `setProgress` with it |
| `ClickCounter.ViewController.SetupClickView` | RefactoringWithStackViews/ViewController.swift:67-68 | the state becomes `AfterSetupClickView` of the old one: setup assigns 0 to the counter through the observer |
| `ClickCounter.ViewController.SetClickCount` | RefactoringWithStackViews/ViewController.swift:95-97 | the count label shows the given value and the counter is unchanged |
| `ClickCounter.ViewController.OnClickTapped` | RefactoringWithStackViews/ViewController.swift:101-103 | the state becomes `Tap` of the old one: a tap adds exactly 1 to the counter, through the observer |

## Left out

- View construction and Auto Layout (`setupSuccessView`, the layout parts of `setupGoalView` and `setupEmptyGoal`, the controller's `setupView` and `setupGoalView`, constraint activation). The one layout fact with a logical effect is kept. The goal buttons are subviews of the empty-goal panel, so they can be tapped only while it is visible. `Run` itself applies a goal button in any state, and `GoalButtonsReachable` states the restriction for the lemmas that need it. The model does not include UIKit's rule that hidden views receive no taps; it assumes it.
- Colours, fonts, the success image, the fixed "Clicking goal" title and the empty-state prose: rendering details.
- `createGoalButton` and the button titles: the title is `GoalSize.Text`, but attaching it to a button is UI wiring.
- `init?(coder:)` (it only stops the program), `viewDidLoad` and `layoutSubviews`: framework lifecycle hooks. `viewDidLoad` reaches the modelled logic only through `SetupClickView`.
- Target/action and `@objc` selector wiring: the handlers are plain method calls.
- The label wording ("Your Goal is …", "Your current progress is …/…", "Total count: …"): labels are the integers they display.
- Swift's 64-bit `Int` overflow of the counter: integers are unbounded.
