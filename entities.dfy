/** The game's entities and their per-frame rules: the bird's physics, pipes that scroll,
    score and get culled, and crash particles that fall and fade. */
module Entities {
  import opened Numbers
  import opened Seqs

  // The bird's constant fields.
  const BirdRadius: real := 20.0
  const Gravity: real := 0.56
  const Lift: real := -11.0
  const MaxFall: real := 14.0
  const MinRotation: real := -0.6
  const MaxRotation: real := 1.2
  /** The leftmost the bird may sit, whatever the canvas width. */
  const MinBirdX: real := 140.0

  const GroundHeight: real := 40.0
  const WobbleStep: real := 0.02
  /** A pipe whose trailing edge is left of this is removed. */
  const CullEdge: real := -100.0

  const ParticleGravity: real := 0.18
  const ParticleLife: int := 60
  const BurstSize: nat := 24

  datatype BirdState = BirdState(x: real, y: real, dy: real, rotation: real)

  /** A pipe: left edge `x`, gap from `top` to `top + gap`; `passed` once scored. */
  datatype Pipe = Pipe(x: real, top: real, width: int, gap: int, passed: bool, wobble: real)

  datatype Particle = Particle(x: real, y: real, vx: real, vy: real, life: int)

  /** The two Math.random() draws that give one crash particle its velocity. */
  datatype Jitter = Jitter(rx: real, ry: real)

  // ---------------------------------------------------------------- bird

  /** Gravity integration: dy grows by Gravity but never beyond MaxFall, the bird moves
      by the new dy, and the rotation follows dy/12 clamped to [MinRotation, MaxRotation]. */
  function Fall(b: BirdState): (r: BirdState)
    ensures r.x == b.x && r.y == b.y + r.dy
    ensures r.dy <= MaxFall && r.dy <= b.dy + Gravity
    ensures r.dy == b.dy + Gravity || r.dy == MaxFall
    ensures MinRotation <= r.rotation <= MaxRotation
    ensures MinRotation <= r.dy / 12.0 <= MaxRotation ==> r.rotation == r.dy / 12.0
    ensures r.dy / 12.0 < MinRotation ==> r.rotation == MinRotation
    ensures r.dy / 12.0 > MaxRotation ==> r.rotation == MaxRotation
  {
    var dy := if b.dy + Gravity > MaxFall then MaxFall else b.dy + Gravity;
    BirdState(b.x, b.y + dy, dy, Max(MinRotation, Min(MaxRotation, dy / 12.0)))
  }

  /** The ceiling: a bird whose top is at or above y = 0 is put back at y = radius and stopped. */
  function Ceiling(b: BirdState): (r: BirdState)
    ensures r.y - BirdRadius > 0.0 || r.y == BirdRadius
    ensures b.y - BirdRadius <= 0.0 ==> r.y == BirdRadius && r.dy == 0.0
    ensures b.y - BirdRadius > 0.0 ==> r == b
    ensures r.x == b.x && r.rotation == b.rotation && r.dy <= Max(b.dy, 0.0)
  {
    if b.y - BirdRadius <= 0.0 then b.(y := BirdRadius, dy := 0.0) else b
  }

  // ---------------------------------------------------------------- pipes

  /** One frame of one pipe: scroll left by `speed`, advance the wobble phase, and mark it
      passed when its trailing edge is left of the bird's leading edge `birdLeft`. */
  function MovePipe(p: Pipe, speed: real, birdLeft: real): (q: Pipe)
    ensures q.x == p.x - speed && q.top == p.top && q.width == p.width && q.gap == p.gap
    ensures p.passed ==> q.passed
    ensures q.passed <==> p.passed || q.x + q.width as real < birdLeft
  {
    var moved := p.(x := p.x - speed, wobble := p.wobble + WobbleStep);
    if !moved.passed && moved.x + moved.width as real < birdLeft then moved.(passed := true) else moved
  }

  /** The pipe earns a point this frame. */
  predicate Scores(p: Pipe, speed: real, birdLeft: real)
  {
    !p.passed && MovePipe(p, speed, birdLeft).passed
  }

  predicate OnScreen(p: Pipe)
  {
    !(p.x + p.width as real < CullEdge)
  }

  function MovedPipes(ps: seq<Pipe>, speed: real, birdLeft: real): (qs: seq<Pipe>)
    ensures |qs| == |ps|
    ensures forall i :: 0 <= i < |ps| ==> qs[i] == MovePipe(ps[i], speed, birdLeft)
  {
    if ps == [] then [] else [MovePipe(ps[0], speed, birdLeft)] + MovedPipes(ps[1..], speed, birdLeft)
  }

  /** The pipe list after one frame: every pipe moved, the ones gone off the left edge dropped. */
  function AdvancePipes(ps: seq<Pipe>, speed: real, birdLeft: real): (r: seq<Pipe>)
    ensures |r| <= |ps|
  {
    Keep(MovedPipes(ps, speed, birdLeft), OnScreen)
  }

  /** How many pipes score this frame. */
  function NewlyPassed(ps: seq<Pipe>, speed: real, birdLeft: real): (n: nat)
    ensures n <= |ps|
  {
    if ps == [] then 0
    else (if Scores(ps[0], speed, birdLeft) then 1 else 0) + NewlyPassed(ps[1..], speed, birdLeft)
  }

  /** No point is earned exactly when no pipe scores. */
  lemma {:induction false} NewlyPassedNone(ps: seq<Pipe>, speed: real, birdLeft: real)
    ensures NewlyPassed(ps, speed, birdLeft) == 0 <==> forall i :: 0 <= i < |ps| ==> !Scores(ps[i], speed, birdLeft)
  {
    if ps != [] {
      NewlyPassedNone(ps[1..], speed, birdLeft);
      assert forall i :: 1 <= i < |ps| ==> ps[i] == ps[1..][i - 1];
    }
  }

  /** How many pipes have not been scored yet. */
  function Unpassed(ps: seq<Pipe>): (n: nat)
    ensures n <= |ps|
    ensures n == 0 <==> forall i :: 0 <= i < |ps| ==> ps[i].passed
  {
    if ps == [] then 0 else (if ps[0].passed then 0 else 1) + Unpassed(ps[1..])
  }

  /** Unfolding AdvancePipes at the front, as the in-place loop needs it. */
  lemma AdvancePipesCons(ps: seq<Pipe>, speed: real, birdLeft: real)
    requires ps != []
    ensures AdvancePipes(ps, speed, birdLeft)
         == (if OnScreen(MovePipe(ps[0], speed, birdLeft)) then [MovePipe(ps[0], speed, birdLeft)] else [])
            + AdvancePipes(ps[1..], speed, birdLeft)
  {
    var qs := MovedPipes(ps, speed, birdLeft);
    assert qs[1..] == MovedPipes(ps[1..], speed, birdLeft);
  }

  /** One step of the backward in-place pipe loop: overwriting slot `i` with the moved pipe,
      and splicing it out when it is off screen, extends the processed suffix by one. */
  lemma AdvancePipesStep(ps: seq<Pipe>, i: nat, speed: real, birdLeft: real)
    requires i < |ps|
    ensures var moved := MovePipe(ps[i], speed, birdLeft);
      var written := (ps[..i + 1] + AdvancePipes(ps[i + 1..], speed, birdLeft))[i := moved];
      ps[..i] + AdvancePipes(ps[i..], speed, birdLeft)
        == if OnScreen(moved) then written else written[..i] + written[i + 1..]
    ensures NewlyPassed(ps[i..], speed, birdLeft)
         == (if Scores(ps[i], speed, birdLeft) then 1 else 0) + NewlyPassed(ps[i + 1..], speed, birdLeft)
  {
    var moved := MovePipe(ps[i], speed, birdLeft);
    var rest := AdvancePipes(ps[i + 1..], speed, birdLeft);
    assert ps[i..][1..] == ps[i + 1..];
    AdvancePipesCons(ps[i..], speed, birdLeft);
    assert ps[..i + 1] + rest == ps[..i] + ([ps[i]] + rest) by {
      assert ps[..i + 1] == ps[..i] + [ps[i]];
    }
    ReplaceAt(ps[..i], ps[i], rest, moved);
    if !OnScreen(moved) {
      RemoveAt(ps[..i], moved, rest);
    }
  }

  /** A pipe survives the frame exactly when, once moved, it is still on screen; the
      survivors are the moved pipes in their original order. */
  lemma AdvancePipesSurvivors(ps: seq<Pipe>, speed: real, birdLeft: real, q: Pipe)
    ensures q in AdvancePipes(ps, speed, birdLeft)
        <==> OnScreen(q) && exists i :: 0 <= i < |ps| && q == MovePipe(ps[i], speed, birdLeft)
  {
    var qs := MovedPipes(ps, speed, birdLeft);
    KeepMembers(qs, OnScreen, q);
    if q in qs {
      var i :| 0 <= i < |qs| && qs[i] == q;
      assert q == MovePipe(ps[i], speed, birdLeft);
    }
  }

  /** Filtering then concatenating is concatenating then filtering: the relative order
      of the surviving pipes is that of the list before the frame. */
  lemma AdvancePipesAppend(a: seq<Pipe>, b: seq<Pipe>, speed: real, birdLeft: real)
    ensures AdvancePipes(a + b, speed, birdLeft) == AdvancePipes(a, speed, birdLeft) + AdvancePipes(b, speed, birdLeft)
  {
    var ma, mb, m := MovedPipes(a, speed, birdLeft), MovedPipes(b, speed, birdLeft), MovedPipes(a + b, speed, birdLeft);
    forall i | 0 <= i < |m|
      ensures m[i] == (ma + mb)[i]
    {
      if i < |a| {
        assert (a + b)[i] == a[i];
      } else {
        assert (a + b)[i] == b[i - |a|];
      }
    }
    assert m == ma + mb;
    KeepAppend(ma, mb, OnScreen);
  }

  /** Scoring happens once per pipe: over two consecutive frames the points earned by a
      list of pipes never exceed the number of pipes that were still unscored. */
  lemma {:induction false} ScoredAtMostOnce(ps: seq<Pipe>, speed1: real, left1: real, speed2: real, left2: real)
    ensures NewlyPassed(ps, speed1, left1) + NewlyPassed(AdvancePipes(ps, speed1, left1), speed2, left2) <= Unpassed(ps)
  {
    if ps != [] {
      ScoredAtMostOnce(ps[1..], speed1, left1, speed2, left2);
      AdvancePipesCons(ps, speed1, left1);
      var q := MovePipe(ps[0], speed1, left1);
      var rest := AdvancePipes(ps[1..], speed1, left1);
      if OnScreen(q) {
        assert AdvancePipes(ps, speed1, left1) == [q] + rest;
        assert ([q] + rest)[1..] == rest;
      } else {
        assert AdvancePipes(ps, speed1, left1) == rest;
      }
    }
  }

  // ---------------------------------------------------------------- collisions

  /** The pipe's horizontal span overlaps the bird's and the bird is not strictly inside the gap. */
  predicate Hits(p: Pipe, b: BirdState)
  {
    b.x + BirdRadius > p.x && b.x - BirdRadius < p.x + p.width as real
    && (b.y - BirdRadius < p.top || b.y + BirdRadius > p.top + p.gap as real)
  }

  /** How many pipes the bird hits: each one is an endGame() call. */
  function Crashes(ps: seq<Pipe>, b: BirdState): (n: nat)
    ensures n <= |ps|
  {
    if ps == [] then 0 else Crashes(ps[..|ps| - 1], b) + (if Hits(ps[|ps| - 1], b) then 1 else 0)
  }

  /** The bird crashes into no pipe exactly when it hits none. */
  lemma {:induction false} CrashesNone(ps: seq<Pipe>, b: BirdState)
    ensures Crashes(ps, b) == 0 <==> forall i :: 0 <= i < |ps| ==> !Hits(ps[i], b)
  {
    if ps != [] {
      CrashesNone(ps[..|ps| - 1], b);
    }
  }

  /** Counting hits over a growing prefix, as the forward collision loop does. */
  lemma CrashesPrefix(ps: seq<Pipe>, i: nat, b: BirdState)
    requires i < |ps|
    ensures Crashes(ps[..i + 1], b) == Crashes(ps[..i], b) + (if Hits(ps[i], b) then 1 else 0)
  {
    assert ps[..i + 1][..i] == ps[..i];
  }

  // ---------------------------------------------------------------- particles

  /** One crash particle, at (x, y), with velocity ((rx - 0.5) * 6, (ry - 0.9) * 6). */
  function Spark(x: real, y: real, j: Jitter): (q: Particle)
    ensures q.x == x && q.y == y && q.life == ParticleLife
  {
    Particle(x, y, (j.rx - 0.5) * 6.0, (j.ry - 0.9) * 6.0, ParticleLife)
  }

  /** The 24 particles explode() pushes. */
  function Burst(x: real, y: real, jitter: seq<Jitter>): (r: seq<Particle>)
    requires |jitter| == BurstSize
    ensures |r| == BurstSize
    ensures forall q :: q in r ==> q.x == x && q.y == y && q.life == ParticleLife
  {
    seq(BurstSize, i requires 0 <= i < BurstSize => Spark(x, y, jitter[i]))
  }

  /** `k` bursts in a row at the same spot. */
  function Bursts(x: real, y: real, jitter: seq<Jitter>, k: nat): (r: seq<Particle>)
    requires |jitter| == BurstSize
    ensures |r| == k * BurstSize
    ensures forall q :: q in r ==> q.life == ParticleLife
  {
    if k == 0 then [] else Bursts(x, y, jitter, k - 1) + Burst(x, y, jitter)
  }

  /** One frame of a particle: move by its velocity, fall a little faster, lose one frame of life. */
  function MoveParticle(q: Particle): (r: Particle)
    ensures r.life == q.life - 1
    ensures r.x == q.x + q.vx && r.y == q.y + q.vy && r.vx == q.vx && r.vy == q.vy + ParticleGravity
  {
    Particle(q.x + q.vx, q.y + q.vy, q.vx, q.vy + ParticleGravity, q.life - 1)
  }

  predicate Alive(q: Particle)
  {
    q.life > 0
  }

  function MovedParticles(qs: seq<Particle>): (rs: seq<Particle>)
    ensures |rs| == |qs|
    ensures forall i :: 0 <= i < |qs| ==> rs[i] == MoveParticle(qs[i])
  {
    if qs == [] then [] else [MoveParticle(qs[0])] + MovedParticles(qs[1..])
  }

  /** The particle list after one frame: every particle moved, the spent ones dropped. */
  function AdvanceParticles(qs: seq<Particle>): (r: seq<Particle>)
    ensures |r| <= |qs|
  {
    Keep(MovedParticles(qs), Alive)
  }

  lemma AdvanceParticlesCons(qs: seq<Particle>)
    requires qs != []
    ensures AdvanceParticles(qs)
         == (if Alive(MoveParticle(qs[0])) then [MoveParticle(qs[0])] else []) + AdvanceParticles(qs[1..])
  {
    var ms := MovedParticles(qs);
    assert ms[1..] == MovedParticles(qs[1..]);
  }

  /** One step of the backward in-place particle loop, as for pipes. */
  lemma AdvanceParticlesStep(qs: seq<Particle>, i: nat)
    requires i < |qs|
    ensures var moved := MoveParticle(qs[i]);
      var written := (qs[..i + 1] + AdvanceParticles(qs[i + 1..]))[i := moved];
      qs[..i] + AdvanceParticles(qs[i..])
        == if Alive(moved) then written else written[..i] + written[i + 1..]
  {
    var moved := MoveParticle(qs[i]);
    var rest := AdvanceParticles(qs[i + 1..]);
    assert qs[i..][1..] == qs[i + 1..];
    AdvanceParticlesCons(qs[i..]);
    assert qs[..i + 1] + rest == qs[..i] + ([qs[i]] + rest) by {
      assert qs[..i + 1] == qs[..i] + [qs[i]];
    }
    ReplaceAt(qs[..i], qs[i], rest, moved);
    if !Alive(moved) {
      RemoveAt(qs[..i], moved, rest);
    }
  }

  /** A particle survives exactly when it still has life after losing one frame of it, and
      every survivor is an input particle with one frame less. */
  lemma AdvanceParticlesSurvivors(qs: seq<Particle>, r: Particle)
    ensures r in AdvanceParticles(qs)
        <==> r.life > 0 && exists i :: 0 <= i < |qs| && r == MoveParticle(qs[i])
  {
    var ms := MovedParticles(qs);
    KeepMembers(ms, Alive, r);
    if r in ms {
      var i :| 0 <= i < |ms| && ms[i] == r;
      assert r == MoveParticle(qs[i]);
    }
  }

  /** Survivors keep their relative order. */
  lemma AdvanceParticlesAppend(a: seq<Particle>, b: seq<Particle>)
    ensures AdvanceParticles(a + b) == AdvanceParticles(a) + AdvanceParticles(b)
  {
    var ma, mb, m := MovedParticles(a), MovedParticles(b), MovedParticles(a + b);
    forall i | 0 <= i < |m|
      ensures m[i] == (ma + mb)[i]
    {
      if i < |a| {
        assert (a + b)[i] == a[i];
      } else {
        assert (a + b)[i] == b[i - |a|];
      }
    }
    assert m == ma + mb;
    KeepAppend(ma, mb, Alive);
  }

  /** Particles with at most ParticleLife frames left come out of a frame with life in
      [1, ParticleLife - 1]. */
  lemma AdvanceParticlesLife(qs: seq<Particle>)
    requires forall q :: q in qs ==> q.life <= ParticleLife
    ensures forall r :: r in AdvanceParticles(qs) ==> 0 < r.life < ParticleLife
  {
    forall r | r in AdvanceParticles(qs)
      ensures 0 < r.life < ParticleLife
    {
      AdvanceParticlesSurvivors(qs, r);
    }
  }
}
