/**
 * The landing page's celebration: the YES button shows the overlay at stage
 * 1, starts the four particle batches and schedules three one-shot timers
 * that set the stage to 2, 3 and 4. Close hides the overlay and sets the
 * stage to 0; it cancels nothing. Time is a millisecond clock; a timer fires
 * when the clock reaches its time, and timers due at the same time fire in
 * the order they were scheduled.
 */
module Celebration {
  import opened Lists
  import opened Wrappers
  import Effects

  /** A pending `setTimeout(() => setCelebrationStage(stage), ...)` that fires at `fireAt`. */
  datatype StageTimer = StageTimer(fireAt: nat, stage: nat)

  /**
   * The sequencer's observable state: the clock, `showCelebration`,
   * `celebrationStage`, the pending stage timers in scheduling order, and
   * every element the celebrations have spawned.
   */
  datatype Config = Config(
    now: nat,
    showCelebration: bool,
    stage: nat,
    timers: seq<StageTimer>,
    particles: seq<Effects.Particle>)

  const Stage2Delay: nat := 2000
  const Stage3Delay: nat := 4500
  const Stage4Delay: nat := 7000

  /** The state at page load. */
  function Initial(): Config {
    Config(0, false, 0, [], [])
  }

  /** The three stage timers a click at `now` schedules. */
  function StageTimers(now: nat): seq<StageTimer> {
    [StageTimer(now + Stage2Delay, 2), StageTimer(now + Stage3Delay, 3), StageTimer(now + Stage4Delay, 4)]
  }

  /** handleYesClick. It has no guard: a second click re-schedules a second chain beside the first. */
  function Click(c: Config): (r: Config)
    ensures r.showCelebration && r.stage == 1 && r.now == c.now
    ensures |r.timers| == |c.timers| + 3 && r.timers[..|c.timers|] == c.timers
    ensures forall i :: |c.timers| <= i < |r.timers| ==> r.timers[i].fireAt > c.now && r.timers[i].stage == i - |c.timers| + 2
    ensures |r.particles| == |c.particles| + 455 && r.particles[..|c.particles|] == c.particles
  {
    c.(showCelebration := true, stage := 1,
       timers := c.timers + StageTimers(c.now),
       particles := c.particles + Effects.CelebrationEffects(c.now))
  }

  /** The Close button. The pending stage timers are left in place. */
  function Dismiss(c: Config): (r: Config)
    ensures !r.showCelebration && r.stage == 0
    ensures r.now == c.now && r.timers == c.timers && r.particles == c.particles
  {
    c.(showCelebration := false, stage := 0)
  }

  /** The stage after the timers due at `t` have fired, in scheduling order, starting from `stage`. */
  function FireDue(stage: nat, timers: seq<StageTimer>, t: nat): nat
    decreases |timers|
  {
    if timers == [] then stage
    else FireDue(if timers[0].fireAt == t then timers[0].stage else stage, timers[1..], t)
  }

  /** With no timer due the stage stays; otherwise the last due timer in scheduling order decides it. */
  lemma {:induction false} FireDueResult(stage: nat, timers: seq<StageTimer>, t: nat)
    decreases |timers|
    ensures (forall i :: 0 <= i < |timers| ==> timers[i].fireAt != t) ==> FireDue(stage, timers, t) == stage
    ensures (exists i :: 0 <= i < |timers| && timers[i].fireAt == t) ==>
      exists i :: 0 <= i < |timers| && timers[i].fireAt == t && FireDue(stage, timers, t) == timers[i].stage
        && forall j :: i < j < |timers| ==> timers[j].fireAt != t
  {
    if timers != [] {
      var tail := timers[1..];
      var s0 := if timers[0].fireAt == t then timers[0].stage else stage;
      FireDueResult(s0, tail, t);
      var r := FireDue(stage, timers, t);
      assert r == FireDue(s0, tail, t);
      if exists i :: 0 <= i < |tail| && tail[i].fireAt == t {
        var i :| 0 <= i < |tail| && tail[i].fireAt == t && r == tail[i].stage
          && forall j :: i < j < |tail| ==> tail[j].fireAt != t;
        assert timers[i + 1] == tail[i];
        forall j | i + 1 < j < |timers| ensures timers[j].fireAt != t {
          assert timers[j] == tail[j - 1];
        }
      } else if timers[0].fireAt == t {
        forall j | 0 < j < |timers| ensures timers[j].fireAt != t {
          assert timers[j] == tail[j - 1];
        }
      } else {
        forall i | 0 <= i < |timers| ensures timers[i].fireAt != t {
          if i > 0 {
            assert timers[i] == tail[i - 1];
          }
        }
      }
    }
  }

  /** Whether a timer has not fired by time `t`. */
  function PendingAfter(t: nat): StageTimer -> bool {
    (x: StageTimer) => x.fireAt != t
  }

  /** One millisecond passes: every timer due at the new time fires and is discarded; nothing else changes. */
  function Step(c: Config): (r: Config)
    ensures r.now == c.now + 1 && r.showCelebration == c.showCelebration && r.particles == c.particles
    ensures |r.timers| <= |c.timers|
  {
    var t := c.now + 1;
    c.(now := t, stage := FireDue(c.stage, c.timers, t), timers := Filter(c.timers, PendingAfter(t)))
  }

  /** `n` milliseconds pass. */
  function Run(c: Config, n: nat): Config {
    if n == 0 then c else Step(Run(c, n - 1))
  }

  /** What every reachable state satisfies: pending timers lie in the future and set stages 2 to 4, and a shown overlay has a stage. */
  ghost predicate Consistent(c: Config) {
    && c.stage <= 4
    && (c.showCelebration ==> c.stage >= 1)
    && forall i :: 0 <= i < |c.timers| ==> c.timers[i].fireAt > c.now && 2 <= c.timers[i].stage <= 4
  }

  /** Page load, a click, Close and the passing of time all keep the state consistent. */
  lemma ConsistentPreserved(c: Config)
    ensures Consistent(Initial())
    ensures Consistent(c) ==> Consistent(Click(c)) && Consistent(Dismiss(c)) && Consistent(Step(c))
  {
    if Consistent(c) {
      ClickConsistent(c);
      StepConsistent(c);
    }
  }

  lemma ClickConsistent(c: Config)
    requires Consistent(c)
    ensures Consistent(Click(c))
  {
    var k := Click(c);
    forall i | 0 <= i < |k.timers| ensures k.timers[i].fireAt > k.now && 2 <= k.timers[i].stage <= 4 {
      if i >= |c.timers| {
        assert k.timers[i] == StageTimers(c.now)[i - |c.timers|];
      }
    }
  }

  lemma StepConsistent(c: Config)
    requires Consistent(c)
    ensures Consistent(Step(c))
  {
    FireDueResult(c.stage, c.timers, c.now + 1);
    FilterMembers(c.timers, PendingAfter(c.now + 1));
    var s := Step(c);
    forall i | 0 <= i < |s.timers| ensures s.timers[i].fireAt > s.now && 2 <= s.timers[i].stage <= 4 {
      assert s.timers[i] in c.timers;
    }
  }

  /** A millisecond with no timer due changes nothing but the clock. */
  lemma QuietStep(c: Config)
    requires forall i :: 0 <= i < |c.timers| ==> c.timers[i].fireAt != c.now + 1
    ensures Step(c) == c.(now := c.now + 1)
  {
    FireDueResult(c.stage, c.timers, c.now + 1);
    FilterAllPass(c.timers, PendingAfter(c.now + 1));
  }

  /** Time passing with no timer due changes nothing but the clock. */
  lemma {:induction false} QuietRun(c: Config, n: nat)
    requires forall i :: 0 <= i < |c.timers| ==> c.timers[i].fireAt > c.now + n
    ensures Run(c, n) == c.(now := c.now + n)
  {
    if n > 0 {
      QuietRun(c, n - 1);
      QuietStep(c.(now := c.now + n - 1));
    }
  }

  /** When exactly timer `j` is due at `t`, firing sets its stage. */
  lemma {:induction false} FireDueOnly(stage: nat, timers: seq<StageTimer>, t: nat, j: nat)
    requires j < |timers| && timers[j].fireAt == t
    requires forall i :: 0 <= i < |timers| && i != j ==> timers[i].fireAt != t
    ensures FireDue(stage, timers, t) == timers[j].stage
    decreases |timers|
  {
    var s0 := if timers[0].fireAt == t then timers[0].stage else stage;
    if j == 0 {
      FireDueResult(s0, timers[1..], t);
    } else {
      FireDueOnly(s0, timers[1..], t, j - 1);
    }
  }

  /** When exactly timer `j` is due at `t`, firing discards it and keeps the others in order. */
  lemma {:induction false} DropOnlyDue(timers: seq<StageTimer>, t: nat, j: nat)
    requires j < |timers| && timers[j].fireAt == t
    requires forall i :: 0 <= i < |timers| && i != j ==> timers[i].fireAt != t
    ensures Filter(timers, PendingAfter(t)) == timers[..j] + timers[j + 1..]
    decreases |timers|
  {
    var p := PendingAfter(t);
    var tail := timers[1..];
    assert Filter(timers, p) == (if p(timers[0]) then [timers[0]] else []) + Filter(tail, p);
    if j == 0 {
      assert !p(timers[0]);
      assert forall i :: 0 <= i < |tail| ==> tail[i] == timers[i + 1];
      FilterAllPass(tail, p);
      assert timers[..0] + timers[1..] == tail;
    } else {
      assert p(timers[0]);
      DropOnlyDue(tail, t, j - 1);
      assert timers[..j] == [timers[0]] + tail[..j - 1];
      assert timers[j + 1..] == tail[j..];
    }
  }

  /** A millisecond at whose end exactly timer `j` is due: it sets its stage and is discarded. */
  lemma FiringStep(c: Config, j: nat)
    requires j < |c.timers| && c.timers[j].fireAt == c.now + 1
    requires forall i :: 0 <= i < |c.timers| && i != j ==> c.timers[i].fireAt != c.now + 1
    ensures Step(c) == c.(now := c.now + 1, stage := c.timers[j].stage, timers := c.timers[..j] + c.timers[j + 1..])
  {
    FireDueOnly(c.stage, c.timers, c.now + 1, j);
    DropOnlyDue(c.timers, c.now + 1, j);
  }

  /** Waiting `n` milliseconds until the only timer then due, timer `j`, fires. */
  lemma RunToFiring(c: Config, n: nat, j: nat)
    requires n >= 1 && j < |c.timers| && c.timers[j].fireAt == c.now + n
    requires forall i :: 0 <= i < |c.timers| ==> c.timers[i].fireAt >= c.now + n
    requires forall i :: 0 <= i < |c.timers| && i != j ==> c.timers[i].fireAt != c.now + n
    ensures Run(c, n) == c.(now := c.now + n, stage := c.timers[j].stage, timers := c.timers[..j] + c.timers[j + 1..])
  {
    var before := c.(now := c.now + n - 1);
    QuietRun(c, n - 1);
    assert Run(c, n) == Step(before);
    FiringStep(before, j);
  }

  /** Running for a + b milliseconds is running for a and then for b. */
  lemma {:induction false} RunAdd(c: Config, a: nat, b: nat)
    ensures Run(c, a + b) == Run(Run(c, a), b)
  {
    if b > 0 {
      RunAdd(c, a, b - 1);
    }
  }

  /** When the first `a` milliseconds lead to `x`, running for `n` is running from `x` for the rest. */
  lemma RunThrough(c: Config, x: Config, a: nat, n: nat)
    requires a <= n && Run(c, a) == x
    ensures Run(c, n) == Run(x, n - a)
  {
    RunAdd(c, a, n - a);
    assert a + (n - a) == n;
  }

  /** The stage the overlay shows `k` milliseconds after a click, when no earlier chain is pending. */
  function ScheduledStage(k: nat): (s: nat)
    ensures 1 <= s <= 4
  {
    if k < Stage2Delay then 1 else if k < Stage3Delay then 2 else if k < Stage4Delay then 3 else 4
  }

  /** Pending timers are due at strictly increasing times. */
  predicate Increasing(timers: seq<StageTimer>) {
    forall i, j :: 0 <= i < j < |timers| ==> timers[i].fireAt < timers[j].fireAt
  }

  /**
   * With the pending timers due at increasing future times, the first one
   * fires after `d` milliseconds: before that only the clock moves, and from
   * then on the run continues from the state it leaves.
   */
  lemma FirstFiring(c: Config, k: nat)
    requires |c.timers| > 0 && Increasing(c.timers) && c.timers[0].fireAt > c.now
    ensures var d := c.timers[0].fireAt - c.now;
      && (k < d ==> Run(c, k) == c.(now := c.now + k))
      && (k >= d ==> Run(c, k) == Run(c.(now := c.now + d, stage := c.timers[0].stage, timers := c.timers[1..]), k - d))
  {
    if k < c.timers[0].fireAt - c.now {
      QuietRun(c, k);
    } else {
      FiringThenRun(c, k);
    }
  }

  /** The part of FirstFiring from the first firing on. */
  lemma FiringThenRun(c: Config, k: nat)
    requires |c.timers| > 0 && Increasing(c.timers) && c.timers[0].fireAt > c.now
    requires k >= c.timers[0].fireAt - c.now
    ensures var d := c.timers[0].fireAt - c.now;
      Run(c, k) == Run(c.(now := c.now + d, stage := c.timers[0].stage, timers := c.timers[1..]), k - d)
  {
    var d := c.timers[0].fireAt - c.now;
    var x := c.(now := c.now + d, stage := c.timers[0].stage, timers := c.timers[1..]);
    assert forall i :: 0 < i < |c.timers| ==> c.timers[0].fireAt < c.timers[i].fireAt;
    RunToFiring(c, d, 0);
    assert c.timers[..0] + c.timers[1..] == c.timers[1..];
    RunThrough(c, x, d, k);
  }

  /** The last link of a chain: stage 3 now, stage 4 in 2500 ms. */
  lemma ChainLast(c: Config, k: nat)
    requires c.timers == [StageTimer(c.now + (Stage4Delay - Stage3Delay), 4)] && c.showCelebration && c.stage == 3
    ensures var r := Run(c, k);
      r.showCelebration && r.stage == (if k < Stage4Delay - Stage3Delay then 3 else 4) && r.now == c.now + k
  {
    FirstFiring(c, k);
    if k >= Stage4Delay - Stage3Delay {
      var next := c.(now := c.now + (Stage4Delay - Stage3Delay), stage := 4, timers := []);
      assert c.timers[1..] == [];
      QuietRun(next, k - (Stage4Delay - Stage3Delay));
    }
  }

  /** The middle of a chain: stage 2 now, stage 3 in 2500 ms and stage 4 in 5000 ms. */
  lemma ChainMiddle(c: Config, k: nat)
    requires c.timers == [StageTimer(c.now + (Stage3Delay - Stage2Delay), 3), StageTimer(c.now + (Stage4Delay - Stage2Delay), 4)]
    requires c.showCelebration && c.stage == 2
    ensures var r := Run(c, k);
      r.showCelebration && r.now == c.now + k
      && r.stage == (if k < Stage3Delay - Stage2Delay then 2 else if k < Stage4Delay - Stage2Delay then 3 else 4)
  {
    FirstFiring(c, k);
    if k >= Stage3Delay - Stage2Delay {
      var next := c.(now := c.now + (Stage3Delay - Stage2Delay), stage := 3, timers := c.timers[1..]);
      ChainLast(next, k - (Stage3Delay - Stage2Delay));
    }
  }

  /** From the state a click leaves, the chain of three stage timers produces the stage schedule. */
  lemma ChainSchedule(c: Config, k: nat)
    requires c.timers == StageTimers(c.now) && c.showCelebration && c.stage == 1
    ensures var r := Run(c, k);
      r.showCelebration && r.stage == ScheduledStage(k) && r.now == c.now + k
  {
    assert Increasing(c.timers) && c.timers[0] == StageTimer(c.now + Stage2Delay, 2);
    FirstFiring(c, k);
    if k >= Stage2Delay {
      var next := c.(now := c.now + Stage2Delay, stage := 2, timers := c.timers[1..]);
      assert next.timers == [StageTimer(next.now + (Stage3Delay - Stage2Delay), 3), StageTimer(next.now + (Stage4Delay - Stage2Delay), 4)];
      ChainMiddle(next, k - Stage2Delay);
    }
  }

  /**
   * After a click with no other pending chain, the overlay is shown, the stage
   * is 1 on [0, 2000), 2 on [2000, 4500), 3 on [4500, 7000) and 4 from 7000 on,
   * counted from the click.
   */
  lemma ScheduleAfterClick(c: Config, k: nat)
    requires c.timers == []
    ensures var r := Run(Click(c), k);
      r.showCelebration && r.stage == ScheduledStage(k) && r.now == c.now + k
  {
    assert Click(c).timers == StageTimers(c.now);
    ChainSchedule(Click(c), k);
  }

  /** After a single click the stage never goes down while time passes. */
  lemma StageNeverDecreases(c: Config, j: nat, k: nat)
    requires c.timers == []
    requires j <= k
    ensures Run(Click(c), j).stage <= Run(Click(c), k).stage
  {
    ScheduleAfterClick(c, j);
    ScheduleAfterClick(c, k);
  }

  /** When a timer is due, the stage after firing is one a timer set. */
  lemma {:induction false} DueStageInRange(stage: nat, timers: seq<StageTimer>, t: nat, i: nat)
    requires forall j :: 0 <= j < |timers| ==> 2 <= timers[j].stage <= 4
    requires i < |timers| && timers[i].fireAt == t
    ensures 2 <= FireDue(stage, timers, t) <= 4
    decreases |timers|
  {
    var s0 := if timers[0].fireAt == t then timers[0].stage else stage;
    if i == 0 {
      SetStageInRange(s0, timers[1..], t);
    } else {
      DueStageInRange(s0, timers[1..], t, i - 1);
    }
  }

  /** Firing from a stage in 2..4 stays in 2..4. */
  lemma {:induction false} SetStageInRange(stage: nat, timers: seq<StageTimer>, t: nat)
    requires 2 <= stage <= 4
    requires forall j :: 0 <= j < |timers| ==> 2 <= timers[j].stage <= 4
    ensures 2 <= FireDue(stage, timers, t) <= 4
    decreases |timers|
  {
    if timers != [] {
      SetStageInRange(if timers[0].fireAt == t then timers[0].stage else stage, timers[1..], t);
    }
  }

  /**
   * Close cancels nothing: from a consistent state whose earliest pending
   * timer is due at `f`, closing the overlay and waiting until `f` raises the
   * stage again to 2 or more while the overlay stays hidden.
   */
  lemma TimerRaisesStageAfterClose(c: Config, f: nat)
    requires Consistent(c)
    requires forall i :: 0 <= i < |c.timers| ==> c.timers[i].fireAt >= f
    requires exists i :: 0 <= i < |c.timers| && c.timers[i].fireAt == f
    ensures f > c.now
    ensures var r := Run(Dismiss(c), f - c.now);
      !r.showCelebration && 2 <= r.stage <= 4
  {
    var d := Dismiss(c);
    var i :| 0 <= i < |c.timers| && c.timers[i].fireAt == f;
    assert c.timers[i].fireAt > c.now;
    var n := f - c.now;
    RunUntilDue(d, n);
    DueStepInRange(d.(now := d.now + n - 1), i);
  }

  /** Waiting `n` milliseconds when no timer is due before the last of them is a quiet wait followed by one step. */
  lemma RunUntilDue(c: Config, n: nat)
    requires n >= 1
    requires forall i :: 0 <= i < |c.timers| ==> c.timers[i].fireAt >= c.now + n
    ensures Run(c, n) == Step(c.(now := c.now + n - 1))
  {
    QuietRun(c, n - 1);
  }

  /** A millisecond at whose end some timer is due leaves a stage in 2..4 and the overlay as it was. */
  lemma DueStepInRange(b: Config, i: nat)
    requires forall j :: 0 <= j < |b.timers| ==> 2 <= b.timers[j].stage <= 4
    requires i < |b.timers| && b.timers[i].fireAt == b.now + 1
    ensures 2 <= Step(b).stage <= 4 && Step(b).showCelebration == b.showCelebration
  {
    DueStageInRange(b.stage, b.timers, b.now + 1, i);
  }

  /**
   * A run of the code as written: YES on a state with nothing pending, YES
   * again 4000 ms later, then Close 3000 ms after that, when the first chain
   * has reached stage 4. The second chain's stage-3 timer still fires 1500 ms
   * after Close, with the overlay hidden.
   */
  lemma RetriggerThenClose(c: Config)
    requires c.timers == []
    ensures var a := Run(Click(Run(Click(c), 4000)), 3000);
      && a.now == c.now + 7000 && a.showCelebration && a.stage == 4
      && var b := Run(Dismiss(a), 1500);
      b.now == c.now + 8500 && !b.showCelebration && b.stage == 3
  {
    var t := c.now;
    assert Click(c).timers == StageTimers(t);
    FirstChainAt4000(Click(c));
    var x := Run(Click(c), 4000);
    var c1 := Click(x);
    assert c1.timers == x.timers + StageTimers(t + 4000);
    SecondChainFrom4000(c1, t);
  }

  /** 4000 ms after a click with nothing else pending, the stage-3 and stage-4 timers are pending. */
  lemma FirstChainAt4000(c0: Config)
    requires c0.timers == StageTimers(c0.now)
    ensures var x := Run(c0, 4000);
      x.now == c0.now + 4000 && x.timers == [StageTimer(c0.now + 4500, 3), StageTimer(c0.now + 7000, 4)]
  {
    FirstFiring(c0, 4000);
    var x1 := c0.(now := c0.now + 2000, stage := 2, timers := c0.timers[1..]);
    QuietRun(x1, 2000);
  }

  /** The rest of the run from the second click, with both chains pending (times relative to the first click at `t`). */
  lemma SecondChainFrom4000(c1: Config, t: nat)
    requires c1.now == t + 4000 && c1.showCelebration
    requires c1.timers == [StageTimer(t + 4500, 3), StageTimer(t + 7000, 4), StageTimer(t + 6000, 2), StageTimer(t + 8500, 3), StageTimer(t + 11000, 4)]
    ensures var a := Run(c1, 3000);
      && a.now == t + 7000 && a.showCelebration && a.stage == 4
      && var b := Run(Dismiss(a), 1500);
      b.now == t + 8500 && !b.showCelebration && b.stage == 3
  {
    // the first chain sets stage 3
    FiresAt4500(c1, t);
    var y1 := Run(c1, 500);
    // the second chain sets stage 2
    FiresAt6000(y1, t);
    RunAdd(c1, 500, 1500);
    var y2 := Run(c1, 2000);
    // the first chain sets stage 4
    FiresAt7000(y2, t);
    RunAdd(c1, 2000, 1000);
    // Close; then the second chain sets stage 3
    FiresAt8500(Dismiss(Run(c1, 3000)), t);
  }

  lemma FiresAt4500(c: Config, t: nat)
    requires c.now == t + 4000
    requires c.timers == [StageTimer(t + 4500, 3), StageTimer(t + 7000, 4), StageTimer(t + 6000, 2), StageTimer(t + 8500, 3), StageTimer(t + 11000, 4)]
    ensures Run(c, 500) == c.(now := t + 4500, stage := 3, timers := c.timers[1..])
  {
    RunToFiring(c, 500, 0);
    assert c.timers[..0] + c.timers[1..] == c.timers[1..];
  }

  lemma FiresAt6000(c: Config, t: nat)
    requires c.now == t + 4500
    requires c.timers == [StageTimer(t + 7000, 4), StageTimer(t + 6000, 2), StageTimer(t + 8500, 3), StageTimer(t + 11000, 4)]
    ensures Run(c, 1500) == c.(now := t + 6000, stage := 2, timers := [StageTimer(t + 7000, 4), StageTimer(t + 8500, 3), StageTimer(t + 11000, 4)])
  {
    RunToFiring(c, 1500, 1);
    assert c.timers[..1] + c.timers[2..] == [StageTimer(t + 7000, 4), StageTimer(t + 8500, 3), StageTimer(t + 11000, 4)];
  }

  lemma FiresAt7000(c: Config, t: nat)
    requires c.now == t + 6000
    requires c.timers == [StageTimer(t + 7000, 4), StageTimer(t + 8500, 3), StageTimer(t + 11000, 4)]
    ensures Run(c, 1000) == c.(now := t + 7000, stage := 4, timers := c.timers[1..])
  {
    RunToFiring(c, 1000, 0);
    assert c.timers[..0] + c.timers[1..] == c.timers[1..];
  }

  lemma FiresAt8500(c: Config, t: nat)
    requires c.now == t + 7000
    requires c.timers == [StageTimer(t + 8500, 3), StageTimer(t + 11000, 4)]
    ensures Run(c, 1500) == c.(now := t + 8500, stage := 3, timers := c.timers[1..])
  {
    RunToFiring(c, 1500, 0);
    assert c.timers[..0] + c.timers[1..] == c.timers[1..];
  }

  /** How a stage panel is marked: the current stage is active, earlier panels of stages 1 to 3 exit, stage 4 never exits. */
  datatype PanelMark = Active | Exit | Plain

  /** The mark of the stage-`n` panel, or None when it is not rendered. */
  function PanelState(stage: nat, n: nat): (r: Option<PanelMark>)
    requires 1 <= n <= 4
    ensures r.Some? <==> stage >= n
    ensures r == Some(Active) <==> stage == n
    ensures r == Some(Exit) <==> n < 4 && stage > n
  {
    if stage < n then None
    else if stage == n then Some(Active)
    else if n < 4 && stage > n then Some(Exit)
    else Some(Plain)
  }

  /** The fallback modal's activation condition. */
  predicate FallbackActive(showCelebration: bool, stage: nat) {
    showCelebration && stage == 0
  }

  /** In every consistent state the fallback modal is inactive and at most one stage panel is active. */
  lemma FallbackNeverActive(c: Config)
    requires Consistent(c)
    ensures !FallbackActive(c.showCelebration, c.stage)
    ensures forall m, n :: 1 <= m < n <= 4 ==> !(PanelState(c.stage, m) == Some(Active) && PanelState(c.stage, n) == Some(Active))
  {
  }

  /**
   * The timer queue at time `t`: walk the timers in scheduling order, let
   * each one due at `t` set the stage, and keep the others.
   */
  method RunDueTimers(stage0: nat, timers: seq<StageTimer>, t: nat) returns (stage: nat, rest: seq<StageTimer>)
    ensures stage == FireDue(stage0, timers, t)
    ensures rest == Filter(timers, PendingAfter(t))
  {
    stage, rest := stage0, [];
    var i := 0;
    while i < |timers|
      invariant 0 <= i <= |timers|
      invariant FireDue(stage0, timers, t) == FireDue(stage, timers[i..], t)
      invariant rest == Filter(timers[..i], PendingAfter(t))
    {
      assert timers[..i + 1] == timers[..i] + [timers[i]];
      FilterAppend(timers[..i], [timers[i]], PendingAfter(t));
      if timers[i].fireAt == t {
        stage := timers[i].stage;
      } else {
        rest := rest + [timers[i]];
      }
      assert timers[i..][1..] == timers[i + 1..];
      i := i + 1;
    }
    assert timers[..i] == timers;
  }

  /** The component's celebration state, updated in place by its handlers and by the timers. */
  class Sequencer {
    var now: nat
    var showCelebration: bool
    var celebrationStage: nat
    var timers: seq<StageTimer>
    var particles: seq<Effects.Particle>

    function Snapshot(): Config
      reads this
    {
      Config(now, showCelebration, celebrationStage, timers, particles)
    }

    ghost predicate Valid()
      reads this
    {
      Consistent(Snapshot())
    }

    constructor ()
      ensures Snapshot() == Initial() && Valid()
    {
      now, showCelebration, celebrationStage, timers, particles := 0, false, 0, [], [];
    }

    /** handleYesClick: show stage 1, start the four batches, schedule the three stage timers. */
    method YesClick()
      requires Valid()
      modifies this
      ensures Valid()
      ensures Snapshot() == Click(old(Snapshot()))
    {
      ConsistentPreserved(Snapshot());
      showCelebration := true;
      celebrationStage := 1;
      var confetti := Effects.CreateMassiveConfetti(now);
      var fireworks := Effects.CreateFireworks(now);
      var hearts := Effects.CreateHeartExplosion(now);
      var sparkles := Effects.CreateSparkleShower(now);
      particles := particles + (confetti + fireworks + hearts + sparkles);
      timers := timers + [StageTimer(now + Stage2Delay, 2), StageTimer(now + Stage3Delay, 3), StageTimer(now + Stage4Delay, 4)];
    }

    /** The Close button, which only the stage-4 panel renders. */
    method Close()
      requires Valid() && celebrationStage >= 4
      modifies this
      ensures Valid()
      ensures Snapshot() == Dismiss(old(Snapshot()))
    {
      ConsistentPreserved(Snapshot());
      showCelebration := false;
      celebrationStage := 0;
    }

    /** One millisecond of the event loop: advance the clock and run, in order, each stage timer now due. */
    method Tick()
      requires Valid()
      modifies this
      ensures Valid()
      ensures Snapshot() == Step(old(Snapshot()))
    {
      ConsistentPreserved(Snapshot());
      var t := now + 1;
      var stage, rest := RunDueTimers(celebrationStage, timers, t);
      now, celebrationStage, timers := t, stage, rest;
    }
  }
}
