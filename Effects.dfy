/**
 * The particle batches the celebration fires and the heart a like spawns.
 * Each element is a record of when it is appended to the page and when its
 * removal timer takes it off again; random position, colour, size and
 * velocity are not part of the record.
 */
module Effects {
  import opened Lists

  /** What an element is. A firework burst carries the indices of its sparks (spark i flies at angle i * 2pi / 30). */
  datatype Kind =
    | Confetti
    | Firework(left: nat, top: nat, sparks: seq<nat>)
    | ExplosionHeart
    | Sparkle
    | LikeHeart(x: int, y: int)

  /** One element: appended at `spawnAt`, removed at `removeAt` (milliseconds); `index` is its loop index. */
  datatype Particle = Particle(kind: Kind, index: nat, spawnAt: nat, removeAt: nat)

  const ConfettiCount: nat := 300
  const ConfettiStagger: nat := 15
  const ConfettiLifetime: nat := 6000

  /** Burst positions, in percent of the viewport. */
  const FireworkPositions: seq<(nat, nat)> := [(20, 30), (80, 25), (50, 40), (35, 60), (70, 55)]
  const FireworkStagger: nat := 600
  const FireworkLifetime: nat := 2000
  const SparksPerFirework: nat := 30

  const HeartCount: nat := 50
  const HeartStagger: nat := 30
  const HeartLifetime: nat := 3000

  const SparkleCount: nat := 100
  const SparkleStagger: nat := 40
  const SparkleLifetime: nat := 4000

  const LikeHeartLifetime: nat := 1000

  /** Element i of a batch started at `start`: spawned `i * stagger` later, removed `lifetime` after its spawn. */
  function Batch(kinds: seq<Kind>, stagger: nat, lifetime: nat, start: nat): (b: seq<Particle>)
    ensures |b| == |kinds|
  {
    seq(|kinds|, i requires 0 <= i < |kinds| => Particle(kinds[i], i, start + i * stagger, start + i * stagger + lifetime))
  }

  /** The time of a batch's last removal: its last spawn plus the lifetime. */
  function LastRemoval(count: nat, stagger: nat, lifetime: nat, start: nat): nat
    requires count > 0
  {
    start + (count - 1) * stagger + lifetime
  }

  function Sparks(): seq<nat> {
    seq(SparksPerFirework, i => i)
  }

  function ConfettiSchedule(start: nat): seq<Particle> {
    Batch(seq(ConfettiCount, _ => Confetti), ConfettiStagger, ConfettiLifetime, start)
  }

  function FireworkKinds(): seq<Kind> {
    seq(|FireworkPositions|, i requires 0 <= i < |FireworkPositions| =>
      Firework(FireworkPositions[i].0, FireworkPositions[i].1, Sparks()))
  }

  function FireworkSchedule(start: nat): seq<Particle> {
    Batch(FireworkKinds(), FireworkStagger, FireworkLifetime, start)
  }

  function HeartSchedule(start: nat): seq<Particle> {
    Batch(seq(HeartCount, _ => ExplosionHeart), HeartStagger, HeartLifetime, start)
  }

  function SparkleSchedule(start: nat): seq<Particle> {
    Batch(seq(SparkleCount, _ => Sparkle), SparkleStagger, SparkleLifetime, start)
  }

  /** Everything one click on YES spawns, in the order the four batches are started. */
  function CelebrationEffects(start: nat): (ps: seq<Particle>)
    ensures |ps| == 300 + 5 + 50 + 100
  {
    ConfettiSchedule(start) + FireworkSchedule(start) + HeartSchedule(start) + SparkleSchedule(start)
  }

  /** The elements on the page at time `t`. */
  function LiveAt(ps: seq<Particle>, t: nat): seq<Particle> {
    Filter(ps, (p: Particle) => p.spawnAt <= t < p.removeAt)
  }

  lemma MulMonotone(a: nat, b: nat, c: nat)
    requires a <= b
    ensures a * c <= b * c
  {
  }

  /**
   * In a batch every element is removed exactly `lifetime` after it is spawned,
   * spawns follow index order, and the last removal, at LastRemoval, is the
   * latest of all.
   */
  lemma BatchTiming(kinds: seq<Kind>, stagger: nat, lifetime: nat, start: nat)
    requires |kinds| > 0
    ensures var b := Batch(kinds, stagger, lifetime, start);
      && (forall i :: 0 <= i < |b| ==> b[i].removeAt == b[i].spawnAt + lifetime)
      && (forall i, j :: 0 <= i <= j < |b| ==> b[i].spawnAt <= b[j].spawnAt)
      && (forall i :: 0 <= i < |b| ==> b[i].removeAt <= LastRemoval(|kinds|, stagger, lifetime, start))
      && b[|b| - 1].removeAt == LastRemoval(|kinds|, stagger, lifetime, start)
  {
    var b := Batch(kinds, stagger, lifetime, start);
    var last := |kinds| - 1;
    assert b[last].removeAt == start + last * stagger + lifetime;
    forall i, j | 0 <= i <= j < |b| ensures b[i].spawnAt <= b[j].spawnAt {
      assert b[i].spawnAt == start + i * stagger && b[j].spawnAt == start + j * stagger;
      MulMonotone(i, j, stagger);
    }
    forall i | 0 <= i < |b| ensures b[i].removeAt <= LastRemoval(|kinds|, stagger, lifetime, start) {
      assert b[i].removeAt == start + i * stagger + lifetime;
      MulMonotone(i, last, stagger);
    }
  }

  /** An element is on the page exactly from its spawn until its removal. */
  lemma LiveIff(ps: seq<Particle>, i: nat, t: nat)
    requires i < |ps|
    ensures ps[i] in LiveAt(ps, t) <==> ps[i].spawnAt <= t < ps[i].removeAt
  {
    var r := LiveAt(ps, t);
    FilterMembers(ps, (p: Particle) => p.spawnAt <= t < p.removeAt);
    if ps[i] in r {
      var k :| 0 <= k < |r| && r[k] == ps[i];
    }
  }

  /** From a batch's last removal on, none of its elements is on the page. */
  lemma BatchGone(kinds: seq<Kind>, stagger: nat, lifetime: nat, start: nat, t: nat)
    requires |kinds| > 0
    requires t >= LastRemoval(|kinds|, stagger, lifetime, start)
    ensures LiveAt(Batch(kinds, stagger, lifetime, start), t) == []
  {
    BatchTiming(kinds, stagger, lifetime, start);
    FilterNonePass(Batch(kinds, stagger, lifetime, start), (p: Particle) => p.spawnAt <= t < p.removeAt);
  }

  /** A batch loop: element i is created `i * stagger` after `start` and schedules its own removal `lifetime` later. */
  method SpawnStaggered(kinds: seq<Kind>, stagger: nat, lifetime: nat, start: nat) returns (b: seq<Particle>)
    ensures b == Batch(kinds, stagger, lifetime, start)
  {
    b := [];
    for i := 0 to |kinds|
      invariant |b| == i
      invariant forall k :: 0 <= k < i ==> b[k] == Particle(kinds[k], k, start + k * stagger, start + k * stagger + lifetime)
    {
      b := b + [Particle(kinds[i], i, start + i * stagger, start + i * stagger + lifetime)];
    }
  }

  /** createMassiveConfetti: 300 pieces, piece i spawned at start + 15i and removed 6000 ms later. */
  method CreateMassiveConfetti(start: nat) returns (b: seq<Particle>)
    ensures b == ConfettiSchedule(start)
    ensures |b| == 300
    ensures forall i :: 0 <= i < 300 ==> b[i].kind == Confetti && b[i].spawnAt == start + 15 * i && b[i].removeAt == b[i].spawnAt + 6000
  {
    b := SpawnStaggered(seq(ConfettiCount, _ => Confetti), ConfettiStagger, ConfettiLifetime, start);
  }

  /**
   * createFireworks: one burst per position, burst i spawned at start + 600i
   * holding 30 sparks, removed with its sparks 2000 ms later.
   */
  method CreateFireworks(start: nat) returns (b: seq<Particle>)
    ensures b == FireworkSchedule(start)
    ensures |b| == 5
    ensures forall i :: 0 <= i < 5 ==>
      && b[i].kind.Firework? && |b[i].kind.sparks| == 30
      && (b[i].kind.left, b[i].kind.top) == FireworkPositions[i]
      && b[i].spawnAt == start + 600 * i && b[i].removeAt == b[i].spawnAt + 2000
  {
    b := [];
    for index := 0 to |FireworkPositions|
      invariant |b| == index
      invariant forall k :: 0 <= k < index ==> b[k] == FireworkSchedule(start)[k]
    {
      var sparks: seq<nat> := [];
      for i := 0 to SparksPerFirework
        invariant |sparks| == i
        invariant forall j :: 0 <= j < i ==> sparks[j] == j
      {
        sparks := sparks + [i];
      }
      assert sparks == Sparks();
      var pos := FireworkPositions[index];
      var spawn := start + index * FireworkStagger;
      b := b + [Particle(Firework(pos.0, pos.1, sparks), index, spawn, spawn + FireworkLifetime)];
    }
  }

  /** createHeartExplosion: 50 hearts, heart i spawned at start + 30i and removed 3000 ms later. */
  method CreateHeartExplosion(start: nat) returns (b: seq<Particle>)
    ensures b == HeartSchedule(start)
    ensures |b| == 50
    ensures forall i :: 0 <= i < 50 ==> b[i].kind == ExplosionHeart && b[i].spawnAt == start + 30 * i && b[i].removeAt == b[i].spawnAt + 3000
  {
    b := SpawnStaggered(seq(HeartCount, _ => ExplosionHeart), HeartStagger, HeartLifetime, start);
  }

  /** createSparkleShower: 100 sparkles, sparkle i spawned at start + 40i and removed 4000 ms later. */
  method CreateSparkleShower(start: nat) returns (b: seq<Particle>)
    ensures b == SparkleSchedule(start)
    ensures |b| == 100
    ensures forall i :: 0 <= i < 100 ==> b[i].kind == Sparkle && b[i].spawnAt == start + 40 * i && b[i].removeAt == b[i].spawnAt + 4000
  {
    b := SpawnStaggered(seq(SparkleCount, _ => Sparkle), SparkleStagger, SparkleLifetime, start);
  }

  /** createLikeHeart: one heart at the click position, removed 1000 ms after it appears. */
  function LikeHeartAt(x: int, y: int, now: nat): (p: Particle)
    ensures p.kind == LikeHeart(x, y) && p.spawnAt == now && p.removeAt == now + 1000
  {
    Particle(LikeHeart(x, y), 0, now, now + LikeHeartLifetime)
  }

  /**
   * The last removal of each batch: confetti at +10485 ms, fireworks at
   * +4400, hearts at +4470 and sparkles at +7960, so the confetti is the last
   * to leave.
   */
  lemma BatchLastRemovals(start: nat)
    ensures LastRemoval(ConfettiCount, ConfettiStagger, ConfettiLifetime, start) == start + 10485
    ensures LastRemoval(|FireworkPositions|, FireworkStagger, FireworkLifetime, start) == start + 4400
    ensures LastRemoval(HeartCount, HeartStagger, HeartLifetime, start) == start + 4470
    ensures LastRemoval(SparkleCount, SparkleStagger, SparkleLifetime, start) == start + 7960
  {
  }

  /**
   * After a click at `start` the page holds celebration elements at every
   * moment before start + 10485 and none from then on.
   */
  lemma CelebrationSceneClears(start: nat, t: nat)
    requires t >= start
    ensures LiveAt(CelebrationEffects(start), t) == [] <==> t >= start + 10485
  {
    var c := ConfettiSchedule(start);
    var f := FireworkSchedule(start);
    var h := HeartSchedule(start);
    var s := SparkleSchedule(start);
    var live := (p: Particle) => p.spawnAt <= t < p.removeAt;
    assert CelebrationEffects(start) == c + f + h + s;
    FilterAppend(c + f + h, s, live);
    FilterAppend(c + f, h, live);
    FilterAppend(c, f, live);
    if t >= start + 10485 {
      BatchGone(seq(ConfettiCount, _ => Confetti), ConfettiStagger, ConfettiLifetime, start, t);
      BatchGone(FireworkKinds(), FireworkStagger, FireworkLifetime, start, t);
      BatchGone(seq(HeartCount, _ => ExplosionHeart), HeartStagger, HeartLifetime, start, t);
      BatchGone(seq(SparkleCount, _ => Sparkle), SparkleStagger, SparkleLifetime, start, t);
    } else {
      var i: nat := if (t - start) / 15 < 300 then (t - start) / 15 else 299;
      assert c[i].spawnAt == start + 15 * i;
      assert c[i].spawnAt <= t < c[i].removeAt;
      LiveIff(c, i, t);
      assert LiveAt(c, t) != [];
    }
  }
}
