/** The per-skill progress-bar controller: one boss bar, a queue of animation
    tasks of which only the head is stepped, and an idle lifespan after which
    the bar hides itself. */
module ProgressBars {
  import opened BarTasks

  /** Ticks an idle bar stays on screen after its last task. */
  const Lifespan := 100

  predicate IsPointsFor(t: Task, level: int) {
    t.PointsTask? && t.level == level
  }

  /** Position of the first queued points task of `level`; `|ts|` when there is none. */
  function FirstPoints(ts: seq<Task>, level: int): (i: nat)
    ensures i <= |ts|
    ensures forall j :: 0 <= j < i ==> !IsPointsFor(ts[j], level)
    ensures i < |ts| ==> IsPointsFor(ts[i], level)
  {
    if ts == [] then 0
    else if IsPointsFor(ts[0], level) then 0
    else 1 + FirstPoints(ts[1..], level)
  }

  class ProgressBar {
    /** Display name of the bar's skill, used in every task title. */
    const skill: string
    var bar: BossBar
    var lifespan: int
    var tasks: seq<Task>
    /** The completion callbacks run so far, in order. */
    var fired: seq<CallbackId>

    ghost predicate Valid()
      reads this
    {
      -1 <= lifespan <= Lifespan && ProgressInRange(bar) &&
      forall i :: 0 <= i < |tasks| ==> WellFormed(tasks[i])
    }

    /** A bar is alive while it has a task or lifespan left. */
    predicate IsAlive()
      reads this
    {
      lifespan > 0 || tasks != []
    }

    /** A new bar has lifespan -1 and no tasks, so it is not alive. The boss
        bar Bukkit creates is visible, full and has no players. */
    constructor (skill: string, name: string, color: BarColor, style: BarStyle)
      ensures Valid() && !IsAlive()
      ensures this.skill == skill && lifespan == -1 && tasks == [] && fired == []
      ensures bar == BossBar(true, Named(name), 1.0, color, style, {})
    {
      this.skill := skill;
      bar := BossBar(true, Named(name), 1.0, color, style, {});
      lifespan := -1;
      tasks := [];
      fired := [];
    }

    /** The two-argument constructor: a blue solid bar. */
    constructor Default(skill: string, name: string)
      ensures Valid() && !IsAlive()
      ensures this.skill == skill && lifespan == -1 && tasks == [] && fired == []
      ensures bar == BossBar(true, Named(name), 1.0, Blue, Solid, {})
    {
      this.skill := skill;
      bar := BossBar(true, Named(name), 1.0, Blue, Solid, {});
      lifespan := -1;
      tasks := [];
      fired := [];
    }

    method Add(player: Player)
      modifies this`bar
      ensures bar == old(bar).(players := old(bar.players) + {player})
    {
      bar := bar.(players := bar.players + {player});
    }

    method Remove(player: Player)
      modifies this`bar
      ensures bar == old(bar).(players := old(bar.players) - {player})
    {
      bar := bar.(players := bar.players - {player});
    }

    method Clear()
      modifies this`bar
      ensures bar == old(bar).(players := {})
    {
      bar := bar.(players := {});
    }

    method Show()
      modifies this`bar
      ensures bar == old(bar).(visible := true)
    {
      bar := bar.(visible := true);
    }

    method Hide()
      modifies this`bar
      ensures bar == old(bar).(visible := false)
    {
      bar := bar.(visible := false);
    }

    method SetTitle(title: Title)
      modifies this`bar
      ensures bar == old(bar).(title := title)
    {
      bar := bar.(title := title);
    }

    method SetProgress(progress: real)
      requires 0.0 <= progress <= 1.0
      modifies this`bar
      ensures bar == old(bar).(progress := progress) && ProgressInRange(bar)
    {
      bar := bar.(progress := progress);
    }

    method SetColor(color: BarColor)
      modifies this`bar
      ensures bar == old(bar).(color := color)
    {
      bar := bar.(color := color);
    }

    method SetStyle(style: BarStyle)
      modifies this`bar
      ensures bar == old(bar).(style := style)
    {
      bar := bar.(style := style);
    }

    function GetProgress(): (p: real)
      reads this
      requires Valid()
      ensures 0.0 <= p <= 1.0
    {
      bar.progress
    }

    /** One tick of the bar. With tasks queued only the head is stepped, and it
        is dropped exactly when its step returns false; the bar is then shown
        and the lifespan reset. With no tasks the lifespan counts down and the
        bar hides on the call that brings it to 0, the only call that returns
        false. A dormant bar (no tasks, no lifespan) is left as it is and the
        call still returns true. */
    method Tick() returns (alive: bool)
      requires Valid()
      modifies this
      ensures Valid()
      ensures old(tasks) != [] ==>
        var t := old(tasks[0]);
        && tasks == (if Continues(Advance(t)) then [Advance(t)] + old(tasks[1..]) else old(tasks[1..]))
        && bar == Render(skill, t, old(bar)).(visible := true)
        && fired == old(fired) + (if t.LevelUpTask? && !Continues(Advance(t)) then [t.callback] else [])
        && lifespan == Lifespan && alive
      ensures old(tasks) == [] && old(lifespan) > 0 ==>
        && tasks == [] && fired == old(fired) && lifespan == old(lifespan) - 1
        && bar == (if lifespan == 0 then old(bar).(visible := false) else old(bar))
        && alive == (lifespan != 0)
      ensures old(tasks) == [] && old(lifespan) <= 0 ==>
        alive && tasks == [] && lifespan == old(lifespan) && bar == old(bar) && fired == old(fired)
      ensures !alive <==> old(tasks) == [] && old(lifespan) == 1
      ensures !alive ==> !IsAlive()
    {
      if tasks != [] {
        var t', more := StepTask(tasks[0]);
        if more {
          tasks := [t'] + tasks[1..];
        } else {
          tasks := tasks[1..];
        }
        Show();
        lifespan := Lifespan;
      } else if lifespan > 0 {
        lifespan := lifespan - 1;
        if lifespan == 0 {
          Hide();
          return false;
        }
      }
      return true;
    }

    /** One step of a task, dispatched on its kind. */
    method StepTask(t: Task) returns (t': Task, more: bool)
      requires WellFormed(t)
      modifies this`bar, this`fired
      ensures t' == Advance(t) && more == Continues(t')
      ensures bar == Render(skill, t, old(bar))
      ensures fired == old(fired) + (if t.LevelUpTask? && !more then [t.callback] else [])
    {
      match t
      case PointsTask(_, _, _, _, _, _) =>
        t', more := StepPoints(t);
      case LevelUpTask(_, _, _, _) =>
        t', more := StepLevelUp(t);
    }

    /** A points step: after the first step `current` moves 2 towards `max`;
        the bar shows current/max in the colour of its band; the step returns
        whether `current` is still below `to`. */
    method StepPoints(t: Task) returns (t': Task, more: bool)
      requires t.PointsTask? && WellFormed(t)
      modifies this`bar
      ensures t' == AdvancePoints(t) && more == Continues(t')
      ensures bar == Render(skill, t, old(bar))
    {
      var current := t.current;
      if t.ticks > 0 {
        current := current + PointsIncrement;
        if current > t.max {
          current := t.max;
        }
      }
      RatioInUnit(current, t.max);
      var progress := current as real / t.max as real;
      SetProgress(progress);
      SetTitle(SkillLevel(skill, t.level));
      BandMatchesRatio(current, t.max);
      SetColor(RatioBand(progress));
      SetStyle(Segmented10);
      t' := t.(ticks := t.ticks + 1, current := current);
      more := current < t.to;
    }

    /** A level-up step: shows the held progress, recolours every ten steps,
        titles the old level while progress is left, then counts down the
        progress; on the 90th step it runs its completion callback and
        returns false. */
    method StepLevelUp(t: Task) returns (t': Task, more: bool)
      requires t.LevelUpTask? && WellFormed(t)
      modifies this`bar, this`fired
      ensures t' == AdvanceLevelUp(t) && more == Continues(t')
      ensures bar == Render(skill, t, old(bar))
      ensures fired == old(fired) + (if more then [] else [t.callback])
    {
      RatioInUnit(t.progress, FullProgress);
      SetProgress(t.progress as real / FullProgress as real);
      SetStyle(Solid);
      if t.ticks % LevelUpHold == 0 {
        SetColor(Palette(t.ticks));
      }
      if t.progress > 0 {
        SetTitle(SkillLevel(skill, t.level - 1));
      } else {
        SetTitle(SkillLevel(skill, t.level));
      }
      var ticks := t.ticks + 1;
      var progress: int := t.progress;
      if ticks > LevelUpHold && progress > 0 {
        progress := progress - ProgressDecrement;
        if progress < 0 {
          progress := 0;
        }
      }
      t' := t.(ticks := ticks, progress := progress);
      if ticks >= LevelUpLength {
        fired := fired + [t.callback];
        more := false;
      } else {
        more := true;
      }
    }

    /** Queue a points animation. The first queued points task of the same
        level, wherever it stands in the queue, absorbs the award: only its
        `to` changes. Without one a new task is appended. */
    method SkillPointsProgress(level: int, from: int, to: int, max: int)
      requires Valid() && (FirstPoints(tasks, level) == |tasks| ==> 0 < max && 0 <= from <= max)
      modifies this`tasks
      ensures Valid()
      ensures var i := FirstPoints(old(tasks), level);
        if i < |old(tasks)| then
          && |tasks| == |old(tasks)|
          && tasks[i] == old(tasks[i]).(to := to)
          && (forall j :: 0 <= j < |tasks| && j != i ==> tasks[j] == old(tasks[j]))
        else
          tasks == old(tasks) + [NewPointsTask(level, from, to, max)]
    {
      var i := 0;
      while i < |tasks|
        invariant 0 <= i <= |tasks|
        invariant forall j :: 0 <= j < i ==> !IsPointsFor(tasks[j], level)
      {
        if IsPointsFor(tasks[i], level) {
          tasks := tasks[i := tasks[i].(to := to)];
          return;
        }
        i := i + 1;
      }
      tasks := tasks + [NewPointsTask(level, from, to, max)];
    }

    /** Queue a level-up animation; these are never merged. */
    method LevelUp(level: int, callback: CallbackId)
      requires Valid()
      modifies this`tasks
      ensures Valid() && tasks == old(tasks) + [NewLevelUpTask(level, callback)]
    {
      tasks := tasks + [NewLevelUpTask(level, callback)];
    }
  }

  /** An idle bar with a full lifespan reports false, and hides, on its 100th
      tick; every earlier tick reports true. */
  method IdleUntilHidden(b: ProgressBar) returns (ticks: nat)
    requires b.Valid() && b.tasks == [] && b.lifespan == Lifespan
    modifies b
    ensures ticks == Lifespan && !b.bar.visible && !b.IsAlive() && b.fired == old(b.fired)
  {
    ticks := 0;
    var alive := true;
    while alive
      invariant b.Valid() && b.tasks == [] && b.fired == old(b.fired)
      invariant 0 <= b.lifespan == Lifespan - ticks
      invariant alive <==> 0 < b.lifespan
      invariant !alive ==> !b.bar.visible
      decreases b.lifespan
    {
      alive := b.Tick();
      ticks := ticks + 1;
    }
  }

  /** A level-up queued on an empty bar runs for exactly 90 ticks, and its
      callback runs once, on the last of them. */
  method CelebrateLevelUp(b: ProgressBar, level: int, callback: CallbackId) returns (ticks: nat)
    requires b.Valid() && b.tasks == []
    modifies b
    ensures ticks == LevelUpLength && b.tasks == [] && b.fired == old(b.fired) + [callback]
    ensures b.lifespan == Lifespan && b.bar.visible && b.IsAlive()
  {
    b.LevelUp(level, callback);
    ghost var t0 := NewLevelUpTask(level, callback);
    ticks := 0;
    while b.tasks != []
      invariant b.Valid() && ticks <= LevelUpLength
      invariant ticks < LevelUpLength ==> b.tasks == [Run(t0, ticks)] && b.fired == old(b.fired)
      invariant ticks == LevelUpLength ==> b.tasks == [] && b.fired == old(b.fired) + [callback]
      invariant 0 < ticks ==> b.lifespan == Lifespan && b.bar.visible
      decreases LevelUpLength - ticks
    {
      LevelUpClosedForm(t0, ticks + 1);
      var alive := b.Tick();
      ticks := ticks + 1;
    }
  }

  /** A points award from `from` to `to <= max` queued on an empty bar runs for
      1 + ceil((to - from) / 2) ticks and leaves the bar at the last `current`
      over `max`. */
  method AnimatePoints(b: ProgressBar, level: int, from: int, to: int, max: int) returns (ticks: nat)
    requires b.Valid() && b.tasks == [] && 0 < max && 0 <= from < to <= max
    modifies b
    ensures ticks == 1 + (to - from + 1) / 2 && b.tasks == [] && b.fired == old(b.fired)
    ensures b.bar.progress == Min(from + PointsIncrement * (ticks - 1), max) as real / max as real
    ensures b.lifespan == Lifespan && b.bar.visible
  {
    b.SkillPointsProgress(level, from, to, max);
    ghost var t0 := NewPointsTask(level, from, to, max);
    ghost var k := 1 + (to - from + 1) / 2;
    PointsEndsAfter(t0);
    PointsClosedForm(t0, k);
    ticks := 0;
    while b.tasks != []
      invariant b.Valid() && ticks <= k && b.fired == old(b.fired)
      invariant ticks < k ==> b.tasks == [Run(t0, ticks)]
      invariant ticks == k ==> b.tasks == [] && b.bar.progress == Run(t0, k).current as real / max as real
      invariant 0 < ticks ==> b.lifespan == Lifespan && b.bar.visible
      decreases k - ticks
    {
      var alive := b.Tick();
      ticks := ticks + 1;
    }
  }
}
