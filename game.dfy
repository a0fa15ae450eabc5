/** The game controller as the browser runs it: the `bird` object and the session's
    variables, updated in place by reset(), endGame(), explode(), flap(), spawnPipe(),
    fitCanvas() and the per-frame update(). The session-level methods are proved against
    the value-level definitions in module Session. */
module Game {
  import opened Numbers
  import opened Seqs
  import opened Difficulty
  import opened Entities
  import opened Spawning
  import opened Session

  /** The `bird` object; its radius, gravity, lift and terminal speed are the constants of
      module Entities. */
  class Bird {
    var x: real
    var y: real
    var dy: real
    var rotation: real

    constructor ()
      ensures Pose() == BirdState(MinBirdX, 240.0, 0.0, 0.0)
    {
      x, y, dy, rotation := MinBirdX, 240.0, 0.0, 0.0;
    }

    function Pose(): BirdState
      reads this
    {
      BirdState(x, y, dy, rotation)
    }
  }

  class World {
    const bird: Bird
    var frames: nat
    var pipes: seq<Pipe>
    var particles: seq<Particle>
    var running: bool
    var score: nat
    var best: int
    var difficulty: int
    var lastPipeTop: Option<real>

    function Snapshot(): State
      reads this, bird
    {
      State(frames, score, best, running, difficulty, lastPipeTop, pipes, particles, bird.Pose())
    }

    ghost predicate Valid()
      reads this, bird
    {
      Inv(Snapshot())
    }

    /** The state at page load: no session yet, the best score and difficulty as stored. */
    constructor (storedBest: int, storedDifficulty: int)
      ensures Valid() && fresh(bird)
      ensures Snapshot() == State(0, 0, storedBest, false, storedDifficulty, None, [], [],
                                  BirdState(MinBirdX, 240.0, 0.0, 0.0))
    {
      bird := new Bird();
      frames, pipes, particles := 0, [], [];
      running, score, best := false, 0, storedBest;
      difficulty, lastPipeTop := storedDifficulty, None;
    }

    /** currentConfig(): re-read the difficulty control, then derive the config. */
    method CurrentConfig(slider: int) returns (cfg: Config)
      modifies this`difficulty
      ensures difficulty == EffectiveDifficulty(slider)
      ensures cfg == ConfigFor(difficulty, score)
    {
      difficulty := EffectiveDifficulty(slider);
      cfg := ConfigFor(difficulty, score);
    }

    /** spawnPipe(initial) for a Math.random() draw `frac` and the canvas size `view`. */
    method SpawnPipe(initial: bool, frac: real, view: Viewport, slider: int)
      requires 0.0 <= frac < 1.0
      requires Valid()
      modifies this
      ensures Valid()
      ensures Snapshot() == Spawned(old(Snapshot()), initial, frac, view, slider)
    {
      ghost var s0 := Snapshot();
      var cfg := CurrentConfig(slider);
      var playable := Max(0.0, view.height - ReservedHeight);
      var maxTop := Max(MinTop, MinTop + playable - cfg.gap as real);
      assert maxTop == MaxTop(cfg.gap, view.height);
      var span := Max(0.0, maxTop - MinTop);
      assert span == Span(cfg.gap, view.height);
      var top := MinTop + frac * span;
      assert top == Candidate(frac, span);
      if lastPipeTop.Some? {
        var maxDelta := MaxInt(MinSwing, (cfg.gap as real * 0.9).Floor);
        var allowedMin := Max(MinTop, lastPipeTop.value - maxDelta as real);
        var allowedMax := Min(maxTop, lastPipeTop.value + maxDelta as real);
        top := Min(allowedMax, Max(allowedMin, top));
      }
      assert top == ChooseTop(frac, lastPipeTop, cfg.gap, view.height);
      var offset := if initial then Max(SpawnOffset, view.width * 0.02) else SpawnOffset;
      var x := Round(view.width - offset) as real;
      pipes := pipes + [Pipe(x, top, cfg.width, cfg.gap, false, 0.0)];
      lastPipeTop := Some(top);
      assert Snapshot() == Spawned(s0, initial, frac, view, slider);
      SpawnKeepsInv(s0, initial, frac, view, slider);
    }

    /** explode(x, y): push 24 particles at (x, y). */
    method Explode(x: real, y: real, jitter: seq<Jitter>)
      requires |jitter| == BurstSize
      modifies this`particles
      ensures particles == old(particles) + Burst(x, y, jitter)
    {
      for i := 0 to BurstSize
        invariant particles == old(particles) + Burst(x, y, jitter)[..i]
      {
        particles := particles + [Spark(x, y, jitter[i])];
      }
    }

    /** endGame(): no guard on `running`, so every call bursts again. */
    method EndGame(jitter: seq<Jitter>)
      requires |jitter| == BurstSize
      requires Valid()
      modifies this`running, this`best, this`particles
      ensures Valid()
      ensures Snapshot() == Ended(old(Snapshot()), jitter)
    {
      EndedKeepsInv(Snapshot(), jitter);
      running := false;
      if score > best {
        best := score;
      }
      Explode(bird.x, bird.y, jitter);
    }

    /** reset(): start a session on a canvas of size `view`. */
    method Reset(view: Viewport, slider: int, frac: real)
      requires 0.0 <= frac < 1.0
      requires Valid()
      modifies this, bird
      ensures Valid()
      ensures Snapshot() == Restarted(old(Snapshot()), view, slider, frac)
    {
      ResetKeepsInv(Snapshot(), view, slider, frac);
      frames := 0;
      pipes := [];
      particles := [];
      score := 0;
      running := true;
      bird.y := view.height / 2.0;
      bird.x := Max((view.width / 3.0).Floor as real, MinBirdX);
      bird.dy := 0.0;
      SpawnPipe(true, frac, view, slider);
    }

    /** flap(): a no-op unless running. */
    method Flap()
      requires Valid()
      modifies bird
      ensures Valid()
      ensures Snapshot() == Flapped(old(Snapshot()))
    {
      if !running {
        return;
      }
      bird.dy := Lift;
    }

    /** The input handlers: reset() first when no session is running, then flap(). */
    method Press(view: Viewport, slider: int, frac: real)
      requires 0.0 <= frac < 1.0
      requires Valid()
      modifies this, bird
      ensures Valid()
      ensures Snapshot() == Pressed(old(Snapshot()), view, slider, frac)
    {
      if !running {
        Reset(view, slider, frac);
      }
      Flap();
    }

    /** The bird-x clamp of fitCanvas() for the new canvas size `view`. */
    method FitCanvas(view: Viewport)
      requires Valid()
      modifies bird
      ensures Valid()
      ensures bird.Pose() == Fitted(old(bird.Pose()), view)
    {
      var minX := (view.width / 3.0).Floor as real;
      bird.x := Max(Max(if bird.x != 0.0 then bird.x else MinBirdX, minX), MinBirdX);
    }

    /** The backward pipe loop of update(): move each pipe, score it once, splice it out
        when it is off the left edge. */
    method ScrollPipes(speed: real)
      modifies this`pipes, this`score
      ensures pipes == AdvancePipes(old(pipes), speed, bird.x - BirdRadius)
      ensures score == old(score) + NewlyPassed(old(pipes), speed, bird.x - BirdRadius)
    {
      ghost var ps := pipes;
      var birdLeft := bird.x - BirdRadius;
      var i := |pipes|;
      while i > 0
        invariant 0 <= i <= |ps|
        invariant pipes == ps[..i] + AdvancePipes(ps[i..], speed, birdLeft)
        invariant score == old(score) + NewlyPassed(ps[i..], speed, birdLeft)
      {
        i := i - 1;
        AdvancePipesStep(ps, i, speed, birdLeft);
        assert pipes[i] == ps[i];
        var p := pipes[i];
        p := p.(x := p.x - speed, wobble := p.wobble + WobbleStep);
        if !p.passed && p.x + p.width as real < birdLeft {
          p := p.(passed := true);
          score := score + 1;
        }
        assert p == MovePipe(ps[i], speed, birdLeft);
        pipes := pipes[i := p];
        if p.x + p.width as real < CullEdge {
          pipes := pipes[..i] + pipes[i + 1..];
        }
      }
      assert ps[0..] == ps;
      assert score == old(score) + NewlyPassed(ps, speed, birdLeft);
      assert bird.x - BirdRadius == birdLeft;
    }

    /** The collision loop of update(): endGame() once for every pipe the bird hits. */
    method CheckCollisions(jitter: seq<Jitter>)
      requires |jitter| == BurstSize
      requires Valid()
      modifies this`running, this`best, this`particles
      ensures Valid()
      ensures Snapshot() == EndedTimes(old(Snapshot()), Crashes(pipes, bird.Pose()), jitter)
    {
      ghost var s0 := Snapshot();
      for i := 0 to |pipes|
        invariant Valid()
        invariant Snapshot() == EndedTimes(s0, Crashes(pipes[..i], bird.Pose()), jitter)
      {
        var p := pipes[i];
        CrashesPrefix(pipes, i, bird.Pose());
        if bird.x + BirdRadius > p.x && bird.x - BirdRadius < p.x + p.width as real {
          if bird.y - BirdRadius < p.top || bird.y + BirdRadius > p.top + p.gap as real {
            EndGame(jitter);
          }
        }
      }
      assert pipes[..|pipes|] == pipes;
    }

    /** The backward particle loop of update(): move, age, splice out the spent ones. */
    method FadeParticles()
      modifies this`particles
      ensures particles == AdvanceParticles(old(particles))
    {
      ghost var qs := particles;
      var i := |particles|;
      while i > 0
        invariant 0 <= i <= |qs|
        invariant particles == qs[..i] + AdvanceParticles(qs[i..])
      {
        i := i - 1;
        AdvanceParticlesStep(qs, i);
        assert particles[i] == qs[i];
        var q := particles[i];
        q := q.(x := q.x + q.vx, y := q.y + q.vy);
        q := q.(vy := q.vy + ParticleGravity);
        q := q.(life := q.life - 1);
        assert q == MoveParticle(qs[i]);
        particles := particles[i := q];
        if q.life <= 0 {
          particles := particles[..i] + particles[i + 1..];
        }
      }
      assert qs[0..] == qs;
    }

    /** The start of update(): count the frame, re-read the difficulty, apply gravity. */
    method Tick(slider: int) returns (cfg: Config)
      requires Valid()
      modifies this`frames, this`difficulty, bird
      ensures Valid()
      ensures Snapshot() == Ticked(old(Snapshot()), slider)
      ensures cfg == FrameConfig(old(Snapshot()), slider)
    {
      frames := frames + 1;
      cfg := CurrentConfig(slider);
      bird.dy := bird.dy + Gravity;
      if bird.dy > MaxFall {
        bird.dy := MaxFall;
      }
      bird.y := bird.y + bird.dy;
      bird.rotation := Max(MinRotation, Min(MaxRotation, bird.dy / 12.0));
    }

    /** The middle of update(): the pipe loop, then the ceiling clamp. */
    method ScrollAndClampCeiling(speed: real)
      requires Valid()
      modifies this`pipes, this`score, bird
      ensures Valid()
      ensures Snapshot() == var m := Scrolled(old(Snapshot()), speed); m.(bird := Ceiling(m.bird))
    {
      ScrolledAndClampedKeepsInv(Snapshot(), speed);
      ScrollPipes(speed);
      if bird.y - BirdRadius <= 0.0 {
        bird.y := BirdRadius;
        bird.dy := 0.0;
      }
    }

    /** The ground test of update(): rest the bird on the ground and end the session. */
    method Land(view: Viewport, jitter: seq<Jitter>)
      requires |jitter| == BurstSize
      requires Valid()
      modifies this`running, this`best, this`particles, bird
      ensures Valid()
      ensures Snapshot() == EndedTimes(old(Snapshot()).(bird := Grounded(old(bird.Pose()), view)),
                                       if GroundHit(old(bird.Pose()), view) then 1 else 0, jitter)
    {
      if bird.y + BirdRadius >= view.height - GroundHeight {
        bird.y := view.height - GroundHeight - BirdRadius;
        EndGame(jitter);
      }
    }

    /** The first half of update(): the bird's gravity step, the spawn cadence, the pipe
        loop and the ceiling clamp. */
    method Advance(view: Viewport, slider: int, frac: real)
      requires 0.0 <= frac < 1.0
      requires Valid()
      modifies this, bird
      ensures Valid()
      ensures Snapshot() == Landed(old(Snapshot()), view, slider, frac)
    {
      ghost var s0 := Snapshot();
      var cfg := Tick(slider);
      if frames % cfg.spawnInterval == 0 {
        SpawnPipe(false, frac, view, slider);
      }
      assert Snapshot() == Cadenced(Ticked(s0, slider), view, slider, frac);
      ScrollAndClampCeiling(cfg.speed);
    }

    /** The second half of update(): the ground test, the collision loop and the particle
        loop, with every endGame() call they make. */
    method Settle(view: Viewport, jitter: seq<Jitter>)
      requires |jitter| == BurstSize
      requires Valid()
      modifies this`running, this`best, this`particles, bird
      ensures Snapshot() == var l := old(Snapshot());
        var crashed := EndedTimes(l.(bird := Grounded(l.bird, view)), EndCalls(l, view), jitter);
        crashed.(particles := AdvanceParticles(crashed.particles))
    {
      ghost var l := Snapshot();
      ghost var g := l.(bird := Grounded(l.bird, view));
      Land(view, jitter);
      CheckCollisions(jitter);
      EndedTimesAdd(g, if GroundHit(l.bird, view) then 1 else 0, Crashes(pipes, bird.Pose()), jitter);
      FadeParticles();
    }

    /** update(): one frame, for the difficulty control's value `slider`, the Math.random()
        draw `frac` a spawn would use, and the draws `jitter` of the crash bursts. */
    method Update(view: Viewport, slider: int, frac: real, jitter: seq<Jitter>)
      requires 0.0 <= frac < 1.0
      requires |jitter| == BurstSize
      requires Valid()
      modifies this, bird
      ensures Valid()
      ensures Snapshot() == Frame(old(Snapshot()), view, slider, frac, jitter)
    {
      FrameKeepsInv(Snapshot(), view, slider, frac, jitter);
      Advance(view, slider, frac);
      Settle(view, jitter);
    }
  }
}
