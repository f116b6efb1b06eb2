/** The visual state of a skill's boss bar and the two kinds of animation task
    that a progress bar runs on it, one step per server tick.

    A task step is split into two pure parts: `Advance` computes the task's
    new counters and `Render` computes what the step writes onto the bar.
    `Continues` is the step's return value ("keep me in the queue"). */
module BarTasks {

  /** The colours and styles a Bukkit boss bar can take. */
  datatype BarColor = Pink | Blue | Red | Green | Yellow | Purple | White
  datatype BarStyle = Solid | Segmented6 | Segmented10 | Segmented12 | Segmented20

  /** A bar title: the text given at construction, or a skill's display name
      followed by a level number (chat colours and bold are not modelled). */
  datatype Title = Named(text: string) | SkillLevel(skill: string, level: int)

  type Player = nat

  /** The fields of the Bukkit boss bar that the controller writes. */
  datatype BossBar = BossBar(visible: bool, title: Title, progress: real,
                             color: BarColor, style: BarStyle, players: set<Player>)

  /** Bukkit only accepts a progress in [0, 1]. */
  predicate ProgressInRange(b: BossBar) {
    0.0 <= b.progress <= 1.0
  }

  /** Identifies the completion callback of a level-up task. */
  type CallbackId = nat

  /** The two task kinds. `progress` of a level-up task is kept in hundredths
      (100 stands for 1.0). */
  datatype Task =
    | PointsTask(level: int, ticks: nat, from: int, current: int, to: int, max: int)
    | LevelUpTask(level: int, callback: CallbackId, ticks: nat, progress: nat)

  const PointsIncrement := 2
  const LevelUpLength := 90
  const LevelUpHold := 10
  const FullProgress := 100
  const ProgressDecrement := 2

  function Min(a: int, b: int): int { if a <= b then a else b }

  /** What the queue keeps true of every task: a points task has a positive
      maximum and `from <= current <= max` with `from` not negative, so that
      `current / max` is a valid bar progress; a level-up progress lies in
      [0, 1]. */
  predicate WellFormed(t: Task) {
    match t
    case PointsTask(_, _, from, current, _, max) => 0 < max && 0 <= from <= current <= max
    case LevelUpTask(_, _, _, progress) => progress <= FullProgress
  }

  /** A task as it is queued, before its first step. */
  predicate Unstarted(t: Task) {
    t.ticks == 0 &&
    match t
    case PointsTask(_, _, from, current, _, _) => current == from
    case LevelUpTask(_, _, _, progress) => progress == FullProgress
  }

  /** The task `skillPointsProgress` queues when it finds nothing to merge into. */
  function NewPointsTask(level: int, from: int, to: int, max: int): (t: Task)
    requires 0 < max && 0 <= from <= max
    ensures WellFormed(t) && Unstarted(t) && t.PointsTask?
    ensures t.level == level && t.from == from && t.to == to && t.max == max
  {
    PointsTask(level, 0, from, from, to, max)
  }

  /** The task `levelUp` queues. */
  function NewLevelUpTask(level: int, callback: CallbackId): (t: Task)
    ensures WellFormed(t) && Unstarted(t) && t.LevelUpTask?
    ensures t.level == level && t.callback == callback
  {
    LevelUpTask(level, callback, 0, FullProgress)
  }

  /** The counter update of one points-task step: every step but the first
      adds 2 to `current`, clamped to `max`. */
  function AdvancePoints(t: Task): (t': Task)
    requires t.PointsTask? && WellFormed(t)
    ensures t'.PointsTask? && WellFormed(t')
    ensures t'.ticks == t.ticks + 1
    ensures t'.level == t.level && t'.from == t.from && t'.to == t.to && t'.max == t.max
    ensures t.current <= t'.current <= t'.max
    ensures t.ticks == 0 ==> t'.current == t.current
  {
    var current := if t.ticks > 0 then Min(t.current + PointsIncrement, t.max) else t.current;
    t.(ticks := t.ticks + 1, current := current)
  }

  /** The counter update of one level-up step: the progress is held for the
      first ten steps and then drops by 0.02 a step, never below 0. */
  function AdvanceLevelUp(t: Task): (t': Task)
    requires t.LevelUpTask? && WellFormed(t)
    ensures t'.LevelUpTask? && WellFormed(t')
    ensures t'.ticks == t.ticks + 1
    ensures t'.level == t.level && t'.callback == t.callback
    ensures t'.progress <= t.progress
    ensures t'.ticks <= LevelUpHold || t.progress == 0 ==> t'.progress == t.progress
    ensures LevelUpHold < t'.ticks && 0 < t.progress ==> t'.progress < t.progress
  {
    var ticks := t.ticks + 1;
    var progress :=
      if ticks > LevelUpHold && t.progress > 0 then
        (if t.progress >= ProgressDecrement then t.progress - ProgressDecrement else 0)
      else t.progress;
    t.(ticks := ticks, progress := progress)
  }

  function Advance(t: Task): (t': Task)
    requires WellFormed(t)
    ensures WellFormed(t') && t'.PointsTask? == t.PointsTask? && t'.ticks == t.ticks + 1
    ensures t.PointsTask? ==> t.current <= t'.current
  {
    match t
    case PointsTask(_, _, _, _, _, _) => AdvancePoints(t)
    case LevelUpTask(_, _, _, _) => AdvanceLevelUp(t)
  }

  /** The value a step returns, read off the advanced task: a points task goes
      on while `current < to`, a level-up task for its first 89 steps. */
  predicate Continues(t': Task) {
    match t'
    case PointsTask(_, _, _, current, to, _) => current < to
    case LevelUpTask(_, _, ticks, _) => ticks < LevelUpLength
  }

  /** The colour band of a points task, by five thresholds on current/max,
      compared by cross-multiplication. */
  function PointsBand(current: int, max: int): BarColor
    requires 0 < max
  {
    if 5 * current < max then Purple
    else if 5 * current < 2 * max then Blue
    else if 5 * current < 3 * max then Green
    else if 5 * current < 4 * max then Yellow
    else White
  }

  /** The band as the source states it, on the ratio itself. */
  function RatioBand(progress: real): BarColor {
    if progress < 0.2 then Purple
    else if progress < 0.4 then Blue
    else if progress < 0.6 then Green
    else if progress < 0.8 then Yellow
    else White
  }

  /** Order of the bands from least to most full. */
  function BandRank(c: BarColor): nat {
    match c
    case Purple => 0
    case Blue => 1
    case Green => 2
    case Yellow => 3
    case _ => 4
  }

  /** The level-up palette, cycled once every ten steps. */
  function Palette(ticks: nat): BarColor {
    var k := (ticks / LevelUpHold) % 3;
    if k == 0 then Red else if k == 1 then Green else Blue
  }

  /** What one step of `t` writes onto `bar`, `skill` being the display name
      of the bar's skill. A points step shows the advanced `current`; a
      level-up step shows the progress and chooses the title from the state
      before its decrement, and sets the colour only when its `ticks` before
      the step is a multiple of ten. */
  function Render(skill: string, t: Task, bar: BossBar): (b: BossBar)
    requires WellFormed(t)
    ensures ProgressInRange(b)
    ensures b.visible == bar.visible && b.players == bar.players
  {
    match t
    case PointsTask(level, _, _, _, _, max) =>
      var current := AdvancePoints(t).current;
      RatioInUnit(current, max);
      bar.(progress := current as real / max as real, title := SkillLevel(skill, level),
           color := PointsBand(current, max), style := Segmented10)
    case LevelUpTask(level, _, ticks, progress) =>
      var color := if ticks % LevelUpHold == 0 then Palette(ticks) else bar.color;
      var shown := if progress > 0 then level - 1 else level;
      bar.(progress := progress as real / FullProgress as real, style := Solid,
           color := color, title := SkillLevel(skill, shown))
  }

  /** `t` after `n` steps. */
  function Run(t: Task, n: nat): (r: Task)
    requires WellFormed(t)
    ensures WellFormed(r) && r.PointsTask? == t.PointsTask? && r.ticks == t.ticks + n
    ensures r.level == t.level
    ensures t.PointsTask? ==> r.from == t.from && r.to == t.to && r.max == t.max
    ensures t.LevelUpTask? ==> r.callback == t.callback
    decreases n
  {
    if n == 0 then t else Advance(Run(t, n - 1))
  }

  // ---------------------------------------------------------------- points

  /** Across any number of steps `current` never decreases and never exceeds `max`. */
  lemma {:induction false} PointsMonotone(t: Task, m: nat, n: nat)
    requires t.PointsTask? && WellFormed(t) && m <= n
    ensures t.current <= Run(t, m).current <= Run(t, n).current <= t.max
    decreases n, m
  {
    if m < n {
      PointsMonotone(t, m, n - 1);
    } else if 0 < n {
      PointsMonotone(t, 0, n);
    }
  }

  /** After `n >= 1` steps an unstarted points task holds `min(from + 2(n-1), max)`. */
  lemma {:induction false} PointsClosedForm(t: Task, n: nat)
    requires t.PointsTask? && WellFormed(t) && Unstarted(t) && 1 <= n
    ensures Run(t, n).current == Min(t.from + PointsIncrement * (n - 1), t.max)
    decreases n
  {
    if n > 1 {
      PointsClosedForm(t, n - 1);
    }
  }

  /** A points task whose `from` already reaches `to` ends on its first step. */
  lemma PointsEndsAtOnce(t: Task)
    requires t.PointsTask? && WellFormed(t) && Unstarted(t) && t.to <= t.from
    ensures !Continues(Run(t, 1))
  {
    PointsClosedForm(t, 1);
  }

  /** With `from < to <= max` a points task ends on step 1 + ceil((to - from) / 2)
      and not before. */
  lemma PointsEndsAfter(t: Task)
    requires t.PointsTask? && WellFormed(t) && Unstarted(t) && t.from < t.to <= t.max
    ensures var k := 1 + (t.to - t.from + 1) / 2;
            (forall n :: 1 <= n < k ==> Continues(Run(t, n))) && !Continues(Run(t, k))
  {
    var k := 1 + (t.to - t.from + 1) / 2;
    forall n | 1 <= n < k
      ensures Continues(Run(t, n))
    {
      PointsClosedForm(t, n);
    }
    PointsClosedForm(t, k);
  }

  /** With `to > max` the clamp keeps `current` below `to`: the task never ends. */
  lemma PointsNeverEndsAboveMax(t: Task, n: nat)
    requires t.PointsTask? && WellFormed(t) && t.max < t.to
    ensures Continues(Run(t, n))
  {
    PointsMonotone(t, n, n);
  }

  /** The integer band agrees with the source's comparisons of current/max
      against 0.2, 0.4, 0.6 and 0.8, and fuller bars never get a lower band. */
  lemma BandMatchesRatio(current: int, max: int)
    requires 0 < max
    ensures PointsBand(current, max) == RatioBand(current as real / max as real)
  {
    RatioBelow(current, max, 1);
    RatioBelow(current, max, 2);
    RatioBelow(current, max, 3);
    RatioBelow(current, max, 4);
  }

  lemma RatioBelow(current: int, max: int, k: int)
    requires 0 < max
    ensures current as real / max as real < k as real / 5.0 <==> 5 * current < k * max
  {
    var p := current as real / max as real;
    var m := max as real;
    assert p * m == current as real;
    if p < k as real / 5.0 {
      assert p * m < (k as real / 5.0) * m;
    } else {
      assert p * m >= (k as real / 5.0) * m;
    }
  }

  lemma RatioInUnit(a: int, b: int)
    requires 0 <= a <= b && 0 < b
    ensures 0.0 <= a as real / b as real <= 1.0
  {
    var p := a as real / b as real;
    assert p * b as real == a as real;
  }

  lemma BandMonotone(c1: int, c2: int, max: int)
    requires 0 < max && c1 <= c2
    ensures BandRank(PointsBand(c1, max)) <= BandRank(PointsBand(c2, max))
  {
  }

  /** From 20 towards 60 with maximum 100: the task ends on step 21; step 20
      shows 58 (green band) and step 21 shows 60 (yellow band). */
  lemma PointsExample(level: int, skill: string, bar: BossBar)
    ensures var t := NewPointsTask(level, 20, 60, 100);
            Continues(Run(t, 20)) && !Continues(Run(t, 21)) &&
            Run(t, 20).current == 58 && Render(skill, Run(t, 19), bar).color == Green &&
            Run(t, 21).current == 60 && Render(skill, Run(t, 20), bar).color == Yellow
  {
    var t := NewPointsTask(level, 20, 60, 100);
    PointsClosedForm(t, 20);
    PointsClosedForm(t, 21);
    assert Run(t, 20) == Advance(Run(t, 19));
    assert Run(t, 21) == Advance(Run(t, 20));
  }

  // -------------------------------------------------------------- level up

  /** The level-up progress (hundredths) held after `n` steps: 1.0 through
      step 10, then 0.02 less a step down to 0. */
  function LevelUpProgressAt(n: nat): nat {
    if n <= LevelUpHold then FullProgress
    else if ProgressDecrement * (n - LevelUpHold) >= FullProgress then 0
    else FullProgress - ProgressDecrement * (n - LevelUpHold)
  }

  lemma {:induction false} LevelUpClosedForm(t: Task, n: nat)
    requires t.LevelUpTask? && Unstarted(t)
    ensures Run(t, n).ticks == n && Run(t, n).progress == LevelUpProgressAt(n)
    decreases n
  {
    if n > 0 {
      LevelUpClosedForm(t, n - 1);
    }
  }

  /** A level-up task goes on for steps 1 to 89 and ends on step 90, so its
      completion callback, which runs when it ends, runs on step 90 only. */
  lemma LevelUpEndsOnNinetieth(t: Task, n: nat)
    requires t.LevelUpTask? && Unstarted(t) && 1 <= n <= LevelUpLength
    ensures Continues(Run(t, n)) <==> n < LevelUpLength
  {
    LevelUpClosedForm(t, n);
  }

  /** What step `n` (1 to 90) of a level-up task shows. The progress is the
      one held before the step; the title shows `level - 1` while that
      progress is above 0, that is through step 60, and `level` from step 61;
      the colour changes on steps 1, 11, 21, ... cycling red, green, blue. */
  lemma LevelUpDisplayAt(t: Task, n: nat, skill: string, bar: BossBar)
    requires t.LevelUpTask? && Unstarted(t) && 1 <= n <= LevelUpLength
    ensures var b := Render(skill, Run(t, n - 1), bar);
            b.progress == LevelUpProgressAt(n - 1) as real / FullProgress as real &&
            b.title == SkillLevel(skill, if n <= 60 then t.level - 1 else t.level) &&
            b.color == (if (n - 1) % 10 == 0 then Palette(n - 1) else bar.color) &&
            b.style == Solid
  {
    LevelUpClosedForm(t, n - 1);
  }

  /** The progress a level-up task holds never increases from step to step. */
  lemma LevelUpProgressNonIncreasing(t: Task, m: nat, n: nat)
    requires t.LevelUpTask? && Unstarted(t) && m <= n
    ensures Run(t, n).progress <= Run(t, m).progress
  {
    LevelUpClosedForm(t, m);
    LevelUpClosedForm(t, n);
  }
}
