# Skill progress bars and the talent-point economy

A Dafny model of two small sequential state machines of the Cavetale skills
plugin (Java, Bukkit):

- **The per-skill progress bar** (`ProgressBar.java`). Each skill has one boss
  bar and an ordered queue of animation tasks. A server tick steps only the
  head task and drops it when its step reports that it is finished. With an
  empty queue the tick counts down a lifespan and hides the bar when it runs
  out. There are two kinds of task. A *points* task counts `current` up by 2,
  clamped to `max`, until it reaches `to`. A *level-up* task plays a fixed
  90-step animation and then runs its completion callback. An award for a
  level that already has a queued points task only moves that task's target.
- **The talent economy** (`Talents.java`). `Unlock` buys a talent after three
  ordered checks. `RollPoint` rolls for a point; its odds out of 800 rise with
  a miss counter, with a catch-up rule for new players. `AddPoints` commits an
  award and picks the feedback to give.

Files:

- `bar_tasks.dfy`, module `BarTasks`: the boss bar as a record, the task
  datatype, and the pure step functions. `Advance` is a step's counter update,
  `Render` is what the step writes onto the bar, and `Continues` is the value
  the step returns. `Run(t, n)` is `n` steps of a task. The lemmas about these
  give closed forms for both kinds of task, the step on which each ends, the
  colour bands and the level-up display.
- `progress_bar.dfy`, module `ProgressBars`: the class `ProgressBar`. It holds
  the fields `bar`, `lifespan`, `tasks` (a `seq` of tasks) and `fired` (the
  completion callbacks run so far). Its methods are the setters, `Tick`, the
  two task-step methods, `SkillPointsProgress` (a search loop) and `LevelUp`.
  `IsAlive` is a predicate. Three client methods drive a bar over many ticks:
  `IdleUntilHidden` (an idle bar hides on its 100th tick), `CelebrateLevelUp`
  (a level-up runs 90 ticks and fires its callback once, on the last) and
  `AnimatePoints` (a points award runs `1 + ceil((to - from)/2)` ticks).
- `talents.dfy`, module `Talents`: a `Session` class holding the stored
  progression fields and an event log for the external effects. It also has
  the pure odds function `Chance` with its lemmas, and the methods `Unlock`,
  `RollPoint` and `AddPoints`.

These points are proved about the model beyond the single-call contracts:

- A points task whose `to` exceeds its `max` never ends, because the clamp
  holds `current` below `to` (`PointsNeverEndsAboveMax`). A caller that
  passes such a `to` keeps the bar's queue blocked behind that task until a
  later award for the same level lowers `to` (the merge in
  `skillPointsProgress`), after which the task can end.
- `Tick` on a dormant bar returns true. A bar's liveness is read from
  `IsAlive`, which is false for a freshly built bar.

Three behaviours of the code are easy to misread; the model follows the code
(the Javadoc of `tick`, `ProgressBar.java:68-70`, describes the return value as
whether the bar is still alive):

- A dormant bar's `tick` returns true, not "not alive".
- A level-up task's last (90th) step does not turn the bar from alive to not
  alive: that tick resets the lifespan to 100, so the bar stays alive
  (`CelebrateLevelUp` proves `IsAlive()` afterwards).
- `rollPoint` adds `increase` to the miss counter before it decides the
  catch-up case, so the counter grows in that case too.

## Model

| member | source | states |
|---|---|---|
| BarTasks.NewPointsTask | src/main/java/com/cavetale/skills/ProgressBar.java:119-125 | a new points task is well formed and unstarted: `ticks = 0`, `current = from`; it keeps the given `level`, `to` and `max` |
| BarTasks.NewLevelUpTask | src/main/java/com/cavetale/skills/ProgressBar.java:132 | a new level-up task is unstarted: `ticks = 0` and progress 1.0; it carries its level and its callback |
| BarTasks.AdvancePoints | src/main/java/com/cavetale/skills/ProgressBar.java:146-149 | one points step keeps the task well formed (`from <= current <= max`); `current` never decreases; the first step leaves it alone; `ticks` goes up by one; `level`, `from`, `to` and `max` stay the same |
| BarTasks.AdvanceLevelUp | src/main/java/com/cavetale/skills/ProgressBar.java:193-197 | one level-up step raises `ticks` by one and never raises the progress; the progress is held through tick 10 (and at 0); after tick 10 it strictly falls while above 0; it stays within [0, 1] |
| BarTasks.Advance | src/main/java/com/cavetale/skills/ProgressBar.java:73 | a step of either kind keeps the task well formed and of the same kind; a points task's `current` never decreases |
| BarTasks.Render | src/main/java/com/cavetale/skills/ProgressBar.java:150-164 | what a step writes leaves the bar's progress in [0, 1]; a step never touches visibility or the players |
| BarTasks.Run | src/main/java/com/cavetale/skills/ProgressBar.java:145-166 | any number of steps keeps a task well formed; they keep its kind, level, `from`, `to`, `max` and callback; `ticks` counts the steps |
| BarTasks.PointsMonotone | src/main/java/com/cavetale/skills/ProgressBar.java:146-149 | across steps a points task's `current` never decreases and never exceeds `max` |
| BarTasks.PointsClosedForm | src/main/java/com/cavetale/skills/ProgressBar.java:146-149 | after `n >= 1` steps an unstarted points task holds `min(from + 2(n-1), max)` |
| BarTasks.PointsEndsAtOnce | src/main/java/com/cavetale/skills/ProgressBar.java:166 | a points task with `from >= to` returns false on its first step |
| BarTasks.PointsEndsAfter | src/main/java/com/cavetale/skills/ProgressBar.java:145-166 | with `from < to <= max` the task returns true on steps 1 to `ceil((to-from)/2)` and false on step `1 + ceil((to-from)/2)` |
| BarTasks.PointsNeverEndsAboveMax | src/main/java/com/cavetale/skills/ProgressBar.java:146-166 | with `to > max` every step returns true |
| BarTasks.Continues | src/main/java/com/cavetale/skills/ProgressBar.java:198-202 | a step's result, read off the advanced task: a points task goes on iff `current < to` (line 166), a level-up task iff its `ticks` is below 90 |
| BarTasks.PointsBand | src/main/java/com/cavetale/skills/ProgressBar.java:153-163 | the five colour bands by cross-multiplication; `BandMatchesRatio` proves them equal to the source's ratio comparisons |
| BarTasks.BandMatchesRatio | src/main/java/com/cavetale/skills/ProgressBar.java:150-163 | the integer cross-multiplied band equals the band chosen by comparing `current/max` with 0.2, 0.4, 0.6 and 0.8 (purple, blue, green, yellow, white) |
| BarTasks.BandMonotone | src/main/java/com/cavetale/skills/ProgressBar.java:153-163 | a fuller bar never gets a lower band |
| BarTasks.PointsExample | src/main/java/com/cavetale/skills/ProgressBar.java:145-166 | from 20 to 60 with max 100 the task ends on step 21; step 20 shows 58 in green and step 21 shows 60 in yellow |
| BarTasks.LevelUpClosedForm | src/main/java/com/cavetale/skills/ProgressBar.java:193-197 | after `n` steps a level-up task has `ticks = n`; its progress is 1.0 through step 10, then `1 - 0.02(n-10)` floored at 0 |
| BarTasks.LevelUpEndsOnNinetieth | src/main/java/com/cavetale/skills/ProgressBar.java:198-202 | a level-up task returns true on steps 1 to 89 and false on step 90, the step that runs its callback |
| BarTasks.LevelUpDisplayAt | src/main/java/com/cavetale/skills/ProgressBar.java:183-192 | step `n` shows the progress held before it; the title shows `level-1` through step 60 and `level` after; the colour changes on steps 1, 11, 21, ... in the order red, green, blue; the style is solid |
| BarTasks.LevelUpProgressNonIncreasing | src/main/java/com/cavetale/skills/ProgressBar.java:194-197 | a level-up task's progress never rises from one step to a later one |
| ProgressBars.FirstPoints | src/main/java/com/cavetale/skills/ProgressBar.java:111-114 | the position of the first queued points task of the level, or the queue length when there is none: no earlier task matches |
| ProgressBars.ProgressBar.constructor | src/main/java/com/cavetale/skills/ProgressBar.java:16-23 | a new bar has lifespan -1 and an empty queue, so it is not alive; its bar has the given name, colour and style |
| ProgressBars.ProgressBar.Default | src/main/java/com/cavetale/skills/ProgressBar.java:25-27 | the two-argument constructor makes a blue, solid bar that is not alive |
| ProgressBars.ProgressBar.Add | src/main/java/com/cavetale/skills/ProgressBar.java:29-32 | adds the player to the bar's players; nothing else changes |
| ProgressBars.ProgressBar.Remove | src/main/java/com/cavetale/skills/ProgressBar.java:34-37 | removes the player from the bar's players; nothing else changes |
| ProgressBars.ProgressBar.Clear | src/main/java/com/cavetale/skills/ProgressBar.java:39-42 | empties the bar's players; nothing else changes |
| ProgressBars.ProgressBar.Show | src/main/java/com/cavetale/skills/ProgressBar.java:44-47 | makes the bar visible; nothing else changes |
| ProgressBars.ProgressBar.Hide | src/main/java/com/cavetale/skills/ProgressBar.java:49-52 | hides the bar; nothing else changes |
| ProgressBars.ProgressBar.SetTitle | src/main/java/com/cavetale/skills/ProgressBar.java:54-57 | replaces the title only |
| ProgressBars.ProgressBar.SetProgress | src/main/java/com/cavetale/skills/ProgressBar.java:64-66 | replaces the progress only; the progress stays within [0, 1] |
| ProgressBars.ProgressBar.SetColor | src/main/java/com/cavetale/skills/ProgressBar.java:154 | replaces the colour only |
| ProgressBars.ProgressBar.SetStyle | src/main/java/com/cavetale/skills/ProgressBar.java:164 | replaces the style only |
| ProgressBars.ProgressBar.IsAlive | src/main/java/com/cavetale/skills/ProgressBar.java:90-92 | alive iff `lifespan > 0` or the queue is non-empty; false for a new bar (constructor contract) and after a tick that returns false (`Tick` contract) |
| ProgressBars.ProgressBar.GetProgress | src/main/java/com/cavetale/skills/ProgressBar.java:94-96 | the bar's progress, always within [0, 1] |
| ProgressBars.ProgressBar.Tick | src/main/java/com/cavetale/skills/ProgressBar.java:71-85 | with tasks queued: only the head is stepped; it stays (advanced) exactly when its step returns true; the rest of the queue is untouched; the bar is shown; `lifespan = 100`; the result is true. With no tasks and lifespan above 0: the lifespan drops by one; the bar hides and false is returned only when it reaches 0. With no tasks and no lifespan: nothing changes and true is returned. False is returned exactly when the lifespan runs out, and the bar is then not alive |
| ProgressBars.ProgressBar.StepTask | src/main/java/com/cavetale/skills/ProgressBar.java:73 | one step of the head task, by kind: the new task is `Advance` of the old, the bar receives `Render`, the result is `Continues`, and a level-up callback runs exactly when a level-up step returns false |
| ProgressBars.ProgressBar.StepPoints | src/main/java/com/cavetale/skills/ProgressBar.java:145-167 | a points step, with the band chosen by the ratio comparisons, matches the pure counter update and display and returns `current < to` |
| ProgressBars.ProgressBar.StepLevelUp | src/main/java/com/cavetale/skills/ProgressBar.java:179-203 | a level-up step matches the pure counter update and display; it returns false and runs the callback once exactly when `ticks` reaches 90 |
| ProgressBars.ProgressBar.SkillPointsProgress | src/main/java/com/cavetale/skills/ProgressBar.java:110-126 | if some queued points task has the level, the first one, wherever it stands, gets the new `to`; its other fields, the queue length and all other tasks stay the same. Otherwise one new unstarted task is appended |
| ProgressBars.ProgressBar.LevelUp | src/main/java/com/cavetale/skills/ProgressBar.java:131-133 | always appends exactly one new level-up task |
| ProgressBars.IdleUntilHidden | src/main/java/com/cavetale/skills/ProgressBar.java:77-84 | an idle bar at lifespan 100 returns true on ticks 1 to 99 and false on tick 100; it is then hidden and not alive |
| ProgressBars.CelebrateLevelUp | src/main/java/com/cavetale/skills/ProgressBar.java:179-202 | a level-up queued on an idle bar takes exactly 90 ticks; its callback is fired exactly once, on the last tick |
| ProgressBars.AnimatePoints | src/main/java/com/cavetale/skills/ProgressBar.java:110-126 | a points award with `from < to <= max` on an idle bar takes `1 + ceil((to-from)/2)` ticks; the bar is left at the final `current` over `max` |
| Talents.Chance | src/main/java/com/cavetale/skills/Talents.java:33-40 | the chance is always within [0, 400]; it is 400 with no talents and no points; otherwise it is 0 up to a counter of 5 and 400 from a counter of 405 |
| Talents.ChanceRatchets | src/main/java/com/cavetale/skills/Talents.java:36-40 | the chance never falls as the miss counter grows |
| Talents.WinningRollsCount | src/main/java/com/cavetale/skills/Talents.java:41-42 | exactly `chance` of the 800 draws win |
| Talents.OddsAtMostHalf | src/main/java/com/cavetale/skills/Talents.java:29-42 | at most half of the 800 draws win; the number of winning draws never falls as the counter grows |
| Talents.CatchUpIsHalf | src/main/java/com/cavetale/skills/Talents.java:34-35 | with no talents and no points exactly half of the draws win, whatever the counter |
| Talents.Feedback | src/main/java/com/cavetale/skills/Talents.java:55-66 | no feedback for an amount below 1. Otherwise: the advancement report first; an effect exactly when the report did not give one; last a title, which says "unlock available" iff the new points cover the cost and otherwise shows points/cost |
| Talents.Unlock | src/main/java/com/cavetale/skills/Talents.java:12-26 | succeeds iff points >= cost, the talent is not owned, and it is accessible; a refusal changes nothing. A success lowers points by exactly the pre-computed cost (new balance >= 0) and adds the talent; the stored count becomes the new set size; both modified flags are set; the save and the advancement report are recorded |
| Talents.RollPoint | src/main/java/com/cavetale/skills/Talents.java:28-45 | wins iff the draw is below the chance computed from the counter after adding `increase`. A win adds exactly 1 point, resets the counter and gives the award's feedback. A loss keeps points and events and leaves the counter raised by `increase`. Talents never change |
| Talents.AddPoints | src/main/java/com/cavetale/skills/Talents.java:47-67 | amount 0 changes nothing. Any other amount sets points to `points + amount`, sets the counter to 0, marks the row modified, saves, and then gives `Feedback` |

## Left out

- Bukkit boss-bar creation, rendering and transport are not modelled. The bar is a record of the written fields, with the players as a set. The constructors assume Bukkit's new bar is visible, full (progress 1.0) and has no players.
- Chat colours and bold in titles are not modelled. A title is the skill's display name with a level number, and the display name is an opaque string.
- IEEE doubles are not modelled. A points task's progress is the exact rational `current/max`, and its band is compared by integer cross-multiplication. With `int` operands the exact ratio is never within a double's rounding error of a threshold. A level-up task's progress is kept in hundredths, falling from 100 by 2. Repeated `progress -= 0.02` in doubles can leave residue, so the float timing of reaching 0 (and of the title switch) may differ by one step.
- `plugin.random.nextInt(800)` is not modelled; the draw is the `roll` parameter, in [0, 800).
- `Session.getTalentCost` is the parameter `cost`, a function of the number of owned talents. `canAccessTalent` is the parameter `canAccess`, a function of the owned set and the talent. `getTalentPoints` is taken to equal the stored `talentPoints`.
- Talents.Unlock: the three checks are pure queries here, so their order cannot be observed. Only the order of the checks in the method body follows the source.
- `saveData`, `plugin.advancements.give`, `Effects.talentUnlock`, `Effects.talentPoint` and `player.sendTitle` are recorded as events in the session's log. The `noEffect` answer of `give` is a parameter.
- The `Runnable` completion callback is not modelled; it becomes a callback identifier, appended to the bar's `fired` log when it runs.
- The `ticks` argument of `ProgressBar.tick` is unused by the source and is left out.
- `@NonNull` checks on the player and the talent are not modelled; Dafny values are never null.
- BarTasks.AdvancePoints: integers are unbounded. `current + 2` would wrap in 32-bit Java when `max` is within 1 of `Integer.MAX_VALUE`; that wrap is not modelled.
- Talents.Unlock, Talents.RollPoint, Talents.AddPoints: Java's 32-bit wrap is not modelled, in any of `talentPoints - cost` (a negative cost on a large balance), `talentPoints + amount`, `talentChance + increase` and `talentChance - 5` (a counter within 4 of `Integer.MIN_VALUE`). Integers are unbounded, so `Unlock`'s promise of a non-negative balance and `Chance`'s value hold for the mathematical integers, not for every 32-bit input.
- ProgressBars.ProgressBar.SkillPointsProgress requires `0 < max` and `0 <= from <= max` only when no queued points task of the level exists, that is when a new task is appended; merging into a queued task accepts any `from` and `max`, as the source ignores them there. Its caller (`Points.give`) is not part of this model. The model takes `max` to be a level's positive point total. For most appended tasks outside that range the source divides by zero or hands Bukkit a progress outside [0, 1], which Bukkit rejects. A negative `max` with `max <= from <= 0` is the exception: the source runs such a task, showing `from/max` on the first step and 1.0 from the second on, but the model excludes it.
- ProgressBars.ProgressBar.SetProgress requires `0.0 <= progress <= 1.0`: this stands for Bukkit's `BossBar.setProgress`, which rejects a progress outside [0, 1] with an exception; that rejection is not modelled.
