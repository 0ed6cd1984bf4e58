# Gaming skill test: a Dafny model of the scoring core

The application is a browser quiz of five mini-games. Each game writes one
numeric field into a shared record kept in browser-local storage (the
`gameScores` entry). A results page then reads the record and does three
things: it normalises each field to 0..100, averages the completed ones, and
names one of eight ranks for the rounded average.

This project models four of those games and the results page, plus the
shared record:

- `js_math.dfy` (`JsMath`): `Math.round` and `Math.floor` on exact numbers,
  `Math.random()` as a `Draw` in [0, 1), and the integer form of a rounded
  quotient.
- `score_store.dfy` (`ScoreStore`): the record as a map from the five field
  names to integers. The class `Store` holds the storage entry, which may be
  absent. `Save` is the read-modify-write every game does with an object
  spread. `Remove` is the reset.
- `results.dfy` (`Results`): the normalisation formulas as the page writes
  them, over reals. Lemmas give their integer closed forms, bounds and
  monotonicity. The file also holds the filter of completed (positive)
  scores, the rounded mean and the rank chain, each with a reference
  property.
- `reaction.dfy`, `memory.dfy`, `target.dfy`, `multitask.dfy`: one class per
  game page. The fields are the page's state. Each method is one event: a
  button, a click, a key, or a timer callback firing. Each method states the
  complete new state, and an invariant `Valid()` holds the game's promises:
  - reaction: at most five attempts; finished exactly at five;
  - memory: the player's input is a prefix of the pattern, and the score is
    the sum of the completed levels' pattern lengths;
  - target: one target on screen;
  - multitask: bars stay in [0, 100], targets stay in [20, 79], and the clock
    always equals 20 minus the ticks divided by 10.

The model draws no time or randomness of its own. `Date.now()` is an
integer parameter and `Math.random()` is a `Draw` parameter. Timers are not
scheduled. A timer callback is a method whose precondition says its timer is
live, for example `countdownRunning`, `pendingDelay.Some?` or `timerRunning`.

A few details of the pages that the model keeps exactly:

- a new target's size is 25..54: it is `Math.floor(Math.random() * 30) + 25`,
  although the comment beside it says 25-55px (app/test/target/page.tsx:55);
- a new target keeps a margin of 10 pixels to each edge, whatever its size
  (app/test/target/page.tsx:56-57);
- the results page counts a test as completed when its normalised score is
  positive (app/results/page.tsx:64), not when the field is present;
- a stored 0 is falsy, so it normalises to 0 without its formula
  (app/results/page.tsx:43-57); for the reaction field the formula would
  have given 100.

## Model

| member | source | states |
|---|---|---|
| JsMath.Floor | app/test/reaction/page.tsx:30 | Math.floor gives the greatest integer not above x |
| JsMath.Round | app/results/page.tsx:44 | Math.round lies within one half of x, and a tie rounds up |
| JsMath.RoundDiv | app/results/page.tsx:66 | the integer formula `(2n + d) div 2d` equals Math.round(n / d) |
| JsMath.RoundDivBetween | app/results/page.tsx:64-66 | if d·lo ≤ n ≤ d·hi, the rounded quotient lies in [lo, hi] |
| JsMath.QuotientBetween | app/results/page.tsx:66 | an integer r with 2dr ≤ 2n + d < 2d(r + 1), the rounded quotient, lies in [lo, hi] whenever d·lo ≤ n ≤ d·hi |
| JsMath.ScaleDraw | app/test/target/page.tsx:56-57 | `Math.random() * extent` lies in [0, extent] for a non-negative extent, and below a positive one |
| JsMath.SumFront | app/results/page.tsx:66 | the left-to-right sum of `reduce((a, b) => a + b, 0)` also equals the first element plus the sum of the rest, so the order of the fold does not matter |
| JsMath.SumBetween | app/results/page.tsx:66 | bounds on every element bound the reduce-sum by length × bound |
| ScoreStore.Put | app/test/reaction/page.tsx:70-77 | the spread `{...scores, f: v}` sets f to v, adds only f to the keys, and leaves every other field's value unchanged |
| ScoreStore.Store.Load | app/results/page.tsx:35 | an absent entry reads as `{}`; a present one reads as the record stored |
| ScoreStore.Store.Save | app/test/memory/page.tsx:134-141 | a save replaces the entry with the loaded record (`{}` when absent) with exactly one field changed |
| ScoreStore.Store.Remove | app/results/page.tsx:142-145 | the reset leaves no entry, so a later load reads `{}` |
| Results.ReactionPoints | app/results/page.tsx:43-45 | the reaction score is always in [0, 100] |
| Results.TargetPoints | app/results/page.tsx:48 | the target score never exceeds 100 |
| Results.MemoryPoints | app/results/page.tsx:51 | the memory score never exceeds 100 |
| Results.MultitaskPoints | app/results/page.tsx:57 | the multitask score never exceeds 100 |
| Results.ReactionClosedForm | app/results/page.tsx:43-45 | the reaction formula equals `(602 - raw) div 4`, clamped to [0, 100] |
| Results.ReactionEndpoints | app/results/page.tsx:43-45 | 200 ms or faster scores 100; 600 ms or slower scores 0 |
| Results.ReactionMonotone | app/results/page.tsx:43-45 | a slower reaction never scores more |
| Results.TargetClosedForm | app/results/page.tsx:48 | target score is min(100, 2·raw), so 50 targets or more score 100 |
| Results.MemoryClosedForm | app/results/page.tsx:51 | memory score is min(100, 4·raw), so 25 points or more score 100 |
| Results.MultitaskClosedForm | app/results/page.tsx:57 | multitask score is min(100, (raw + 5) div 10), so 1000 points or more score 100 |
| Results.TrackingPoints | app/results/page.tsx:54 | Math.round keeps an integer tracking accuracy unchanged |
| Results.HigherIsBetter | app/results/page.tsx:48-57 | the target, memory, multitask and tracking scores never fall as the raw value rises |
| Results.Normalize | app/results/page.tsx:43-57 | an absent or zero field gives 0; the reaction slot lies in [0, 100], every slot but tracking is at most 100, and a present tracking accuracy is kept as stored |
| Results.NormalizedScores | app/results/page.tsx:41-58 | `Object.values` gives five slots in the order reaction, target, memory, tracking, multitask; an absent or zero field's slot is 0, and the bounds of each slot hold |
| Results.MissingIsZero | app/results/page.tsx:43-57 | an absent or zero field normalises to 0 in every slot |
| Results.Completed | app/results/page.tsx:64 | the filter keeps exactly the positive scores, each as often as it occurs, and nothing else |
| Results.Total | app/results/page.tsx:64-66 | with at least one completed score, the total is Math.round of the mean of the completed scores; with none it is 0 |
| Results.TotalBetween | app/results/page.tsx:64-66 | if any score is positive, the total lies between any bounds of the positive scores, hence between their minimum and maximum |
| Results.TotalZero | app/results/page.tsx:64-66 | the total is 0 exactly when no normalised score is positive |
| Results.RankOf | app/results/page.tsx:71-78 | the if-chain gives tier max(0, min(7, (total - 20) div 10)): one tier per 10 points from 30, and Ultra Instinct from 90 on |
| Results.RankIsHighestReached | app/results/page.tsx:71-78 | the rank chain picks the highest tier whose inclusive threshold (30, 40, ..., 90) the total reaches; below 30 it picks Button Masher |
| Results.LabelNamesRank | app/results/page.tsx:71-78 | the eight rank texts are pairwise different, so the shown text names the rank |
| Results.RankMonotone | app/results/page.tsx:71-78 | a higher total never gets a lower tier |
| Results.Evaluate | app/results/page.tsx:35-78 | the page shows five scores, the reaction one in [0, 100] and all but tracking at most 100; its total is 0 exactly when no score is positive |
| Results.EvaluateEmpty | app/results/page.tsx:35 | an absent record (as after the reset) shows five zeros, a total of 0 and Button Masher |
| ReactionTest.RandomDelay | app/test/reaction/page.tsx:30 | the delay before green is an integer in [1000, 3999] ms |
| ReactionTest.Elapsed | app/test/reaction/page.tsx:56 | a recorded time is end minus start, or 0 when the start time is missing or 0 (falsy) |
| ReactionTest.Average | app/test/reaction/page.tsx:69 | the stored value is Math.round of the mean of the attempts |
| ReactionTest.AverageBetween | app/test/reaction/page.tsx:69 | the stored mean lies between any bounds of the attempts |
| ReactionTest.Reaction.constructor | app/test/reaction/page.tsx:15-20 | the page starts idle, with no attempts and no start time |
| ReactionTest.Reaction.Start | app/test/reaction/page.tsx:22-25 | idle becomes waiting, and a 3-second countdown starts; attempts are kept |
| ReactionTest.Reaction.CountdownTick | app/test/reaction/page.tsx:26-40 | the countdown drops by 1; its last second schedules the stimulus with a delay in [1000, 3999] |
| ReactionTest.Reaction.DelayElapsed | app/test/reaction/page.tsx:31-34 | the scheduled timeout sets the start time to now and makes the state ready |
| ReactionTest.Reaction.Click | app/test/reaction/page.tsx:43-80 | waiting returns to idle and cancels the pending timeout, with attempts unchanged; ready appends exactly one elapsed time; the fifth attempt finishes and stores only `reaction` as the rounded mean; idle, clicked and finished change nothing |
| ReactionTest.Reaction.ClickedTimeout | app/test/reaction/page.tsx:86-97 | clicked returns to idle and clears the shown time, with attempts unchanged |
| MemoryTest.ColorOf | app/test/memory/page.tsx:53 | a drawn colour index lies in [0, 8) |
| MemoryTest.BuildPattern | app/test/memory/page.tsx:50-54 | the loop builds exactly level + 2 colours, the i-th from the i-th draw, each in [0, 8) |
| MemoryTest.LevelPoints | app/test/memory/page.tsx:114-117 | the points of completed levels 1..n, each worth its pattern length, are at least 3 per level |
| MemoryTest.LevelPointsClosedForm | app/test/memory/page.tsx:117-125 | completing levels 1..n is worth n(n+5)/2, so a perfect five-level run is worth 25 |
| MemoryTest.LevelPointsMonotone | app/test/memory/page.tsx:117 | completing more levels never gives fewer points |
| MemoryTest.Memory.constructor | app/test/memory/page.tsx:25-30 | the page starts idle at level 1 with score 0 |
| MemoryTest.Memory.Start | app/test/memory/page.tsx:32-37 | the game starts at level 1 with score 0 and a 3-second countdown |
| MemoryTest.Memory.CountdownTick | app/test/memory/page.tsx:38-47 | the countdown drops by 1; its last second generates the level-1 pattern of 3 colours |
| MemoryTest.Memory.GeneratePattern | app/test/memory/page.tsx:50-57 | the new pattern has newLevel + 2 colours, one per draw, and showing starts from its first colour |
| MemoryTest.Memory.ShowStep | app/test/memory/page.tsx:59-89 | each step highlights the next colour; after the last one the input is cleared and the state becomes input |
| MemoryTest.Memory.TileClick | app/test/memory/page.tsx:91-128 | outside input nothing changes; the entry is appended; a mismatch goes to feedback with no points; a completed pattern adds exactly its length; the score never decreases |
| MemoryTest.Memory.EndGame | app/test/memory/page.tsx:130-142 | the game finishes and only the `memory` field is written, with the score |
| MemoryTest.Memory.FeedbackTimeout | app/test/memory/page.tsx:107-126 | after a mismatch in level L, the stored score is the points of levels 1..L-1; after level 5, 25 is stored; otherwise the next level's pattern of level + 2 colours is generated |
| TargetTest.Coordinate | app/test/target/page.tsx:56-57 | a coordinate is at least 10, and the target box ends at least 10 pixels before the far edge (strictly before it when there is room to spare) |
| TargetTest.CreateTarget | app/test/target/page.tsx:51-60 | without a container the target is at (50, 50) with size 40; otherwise its size is in [25, 54] and it stays inside the container's margins |
| TargetTest.RemoveId | app/test/target/page.tsx:66 | the filter never lengthens the list |
| TargetTest.RemoveIdMembers | app/test/target/page.tsx:66 | the filter keeps exactly the targets with another id |
| TargetTest.RemoveOne | app/test/target/page.tsx:64-69 | with distinct ids, removing target k's id removes exactly target k and keeps the others in order |
| TargetTest.RemoveAbsent | app/test/target/page.tsx:66 | removing an id that no target carries changes nothing |
| TargetTest.Game.constructor | app/test/target/page.tsx:12-18 | the page starts idle with no targets, score 0 and 20 seconds |
| TargetTest.Game.Start | app/test/target/page.tsx:20-25 | the game starts with score 0, 20 seconds and exactly one new target |
| TargetTest.Game.CountdownTick | app/test/target/page.tsx:27-48 | the countdown drops by 1; its last second starts the round timer |
| TargetTest.Game.TimerTick | app/test/target/page.tsx:33-41 | the clock drops by 1; at expiry it stops at 0, the timer is cleared and the game ends |
| TargetTest.Game.EndGame | app/test/target/page.tsx:72-85 | the game finishes, the timer is cleared, and only the `target` field is written, with the hit count |
| TargetTest.Game.TargetClick | app/test/target/page.tsx:62-70 | the score rises by exactly 1; the clicked target is removed and one new target is appended, so the count is unchanged and other targets are kept |
| MultitaskTest.Clamp | app/test/multitask/page.tsx:82 | a position is clamped into [0, 100] and is unchanged if already inside |
| MultitaskTest.Step | app/test/multitask/page.tsx:82 | a random-walk step lies in [-1, 1) |
| MultitaskTest.Drift | app/test/multitask/page.tsx:81-91 | the random walk keeps the target, keeps the position in [0, 100], and moves it by at most 1 |
| MultitaskTest.Distance | app/test/multitask/page.tsx:94-96 | the combined distance to the targets is never negative |
| MultitaskTest.TickPoints | app/test/multitask/page.tsx:98-103 | a tick scores between 0 and 3 points |
| MultitaskTest.TickPointsMonotone | app/test/multitask/page.tsx:98-103 | a larger combined distance never scores more points |
| MultitaskTest.NewTarget | app/test/multitask/page.tsx:114 | a relocated target is an integer in [20, 79] |
| MultitaskTest.Relocate | app/test/multitask/page.tsx:111-125 | with probability below 0.01 only the target moves; the position is kept |
| MultitaskTest.Lower | app/test/multitask/page.tsx:164 | `toLowerCase` keeps the length, leaves no capital A..Z, moves each capital to its lower-case letter, and keeps every other character |
| MultitaskTest.KeyNamesRecognised | app/test/multitask/page.tsx:160-190 | the direction predicates UpKey, DownKey, LeftKey and RightKey accept the key names the page lists (`w`, `ArrowUp`, ...) and their capitals; any key that selects a direction lowers to one of the eight names `w`, `s`, `a`, `d`, `arrowup`, `arrowdown`, `arrowleft`, `arrowright` (so mixed case such as `arrowUP` also counts, as in the page); the key `x` selects none |
| MultitaskTest.KeysAreExclusive | app/test/multitask/page.tsx:164-190 | no key belongs to two directions |
| MultitaskTest.Game.constructor | app/test/multitask/page.tsx:12-24 | the page starts idle, with score 0, 20 seconds, and bars at (50, 30) and (50, 70) |
| MultitaskTest.Game.Start | app/test/multitask/page.tsx:26-41 | the game resets score to 0, time to 20, and the bars to (50, 30) and (50, 70), clears the interval and starts the countdown |
| MultitaskTest.Game.CountdownTick | app/test/multitask/page.tsx:43-61 | the countdown drops by 1; at 0 the game plays and the 100 ms interval starts from tick 0 |
| MultitaskTest.Game.EndGame | app/test/multitask/page.tsx:129-148 | the game finishes, the interval is cleared, and only the `multitask` field is written, with the final score |
| MultitaskTest.Game.Tick | app/test/multitask/page.tsx:64-126 | every 10th tick takes a second off; the game ends exactly at tick 200, before that tick scores; otherwise both bars drift, the score grows by the tier points (0 to 3), and targets may relocate |
| MultitaskTest.Game.KeyDown | app/test/multitask/page.tsx:156-191 | keys count only during play; W/Up and S/Down move only the vertical bar by 1, A/Left and D/Right only the horizontal bar, clamped to [0, 100] |

## Left out

- app/test/tracking/page.tsx is not part of this model. Its logic is floating-point kinematics with a square root, driven by animation frames and DOM bounding rectangles.
- The landing page and the intro page are not part of this model; they are markup and navigation only.
- JSX rendering, toasts, console logging, router navigation, the share and clipboard fallback (app/results/page.tsx:120-140) and `debugScores` (app/results/page.tsx:147-155) are presentation or side channels.
- JSON serialisation of the record is not modelled. The record is a map once parsed. The page would throw on a malformed stored text; the model has no such text.
- Timer scheduling, periods and cleanup on unmount are not modelled. Each callback is an event method that may be called while its timer is live. The model does not cover two live copies of the same interval.
- DOM highlighting in `showPattern` is not modelled; only the index of the colour being shown is kept.
- Target ids: the clock is a parameter, so the model assumes (`DistinctIds`), and does not derive, that the `Date.now() + Math.random()` ids of the targets on screen are distinct.
- JavaScript numbers are IEEE doubles; the model computes on exact integers and reals. Rounding at exact halves may therefore differ from the browser, for example in `(r - 200) / 400 * 100`.
- Start methods require the idle phase, because each page renders its Start button only then. No game can be replayed without reloading the page.
- ReactionTest.Reaction.Click: an early click also stops the countdown interval. In the page that interval keeps running and can still turn the screen green later (app/test/reaction/page.tsx:26-52).
- TargetTest.Game.EndGame: stores the current hit count. In the page, `endGame` is reached through an interval callback created at the Start click, so it reads `score` as of that click (app/test/target/page.tsx:33-37, 72-83).
- MemoryTest.Memory.FeedbackTimeout: stores 25 after a perfect run. In the page, the timed `endGame` reads the score from before the final level's points were added (app/test/memory/page.tsx:117-121, 130-140).
- MultitaskTest.Game.Tick: one target per bar. The page draws two random numbers on a relocation, one for the displayed target and one for the scored one (app/test/multitask/page.tsx:112-116, 120-124). The model also scores with the positions just drifted, as the tick intends; React's update batching is not modelled.
- MultitaskTest.Lower: only A..Z are lowered. JavaScript's `toLowerCase` also maps other Unicode letters, which none of the game's keys use.
