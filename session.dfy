/** The game session as values: the state the game keeps in module-level variables, and
    what reset(), endGame(), flap(), spawnPipe() and one update() frame make of it. */
module Session {
  import opened Numbers
  import opened Difficulty
  import opened Entities
  import opened Spawning

  /** frames, score, best, running, difficulty, lastPipeTop, pipes, particles and bird. */
  datatype State = State(
    frames: nat,
    score: nat,
    best: int,
    running: bool,
    difficulty: int,
    lastTop: Option<real>,
    pipes: seq<Pipe>,
    particles: seq<Particle>,
    bird: BirdState)

  /** What holds between any two operations of a session. */
  predicate Inv(s: State)
  {
    s.bird.dy <= MaxFall
    && MinRotation <= s.bird.rotation <= MaxRotation
    && s.bird.x >= MinBirdX
    && (forall q :: q in s.particles ==> 0 < q.life <= ParticleLife)
    && (forall p :: p in s.pipes ==> Sized(p))
    && (s.lastTop.Some? ==> s.lastTop.value >= MinTop)
  }

  // ---------------------------------------------------------------- spawnPipe

  /** spawnPipe(initial): re-read the difficulty, choose a gap-top, push the pipe, remember its top. */
  function Spawned(s: State, initial: bool, frac: real, view: Viewport, slider: int): State
    requires 0.0 <= frac < 1.0
  {
    var d := EffectiveDifficulty(slider);
    var cfg := ConfigFor(d, s.score);
    var top := ChooseTop(frac, s.lastTop, cfg.gap, view.height);
    s.(difficulty := d, pipes := s.pipes + [NewPipe(initial, top, cfg, view)], lastTop := Some(top))
  }

  /** spawnPipe appends exactly one unscored pipe sized by the current config, leaves the
      earlier pipes alone, records its top, and keeps it within the fairness bound of the
      previous top whenever the fair window is non-empty. */
  lemma SpawnAppendsOne(s: State, initial: bool, frac: real, view: Viewport, slider: int)
    requires 0.0 <= frac < 1.0
    ensures var r := Spawned(s, initial, frac, view, slider);
      var cfg := ConfigFor(EffectiveDifficulty(slider), s.score);
      var p := r.pipes[|s.pipes|];
      && |r.pipes| == |s.pipes| + 1 && r.pipes[..|s.pipes|] == s.pipes
      && !p.passed && p.wobble == 0.0 && p.width == cfg.width && p.gap == cfg.gap
      && p.x == p.x.Floor as real
      && (!initial ==> view.width - SpawnOffset - 0.5 < p.x <= view.width - SpawnOffset + 0.5)
      && r.lastTop == Some(p.top)
      && p.top == ChooseTop(frac, s.lastTop, cfg.gap, view.height)
      && p.top <= MaxTop(cfg.gap, view.height)
      && ((s.lastTop.Some? ==> s.lastTop.value >= MinTop) ==> MinTop <= p.top)
      && (s.lastTop.Some? && AllowedMin(s.lastTop.value, cfg.gap) <= AllowedMax(s.lastTop.value, cfg.gap, view.height) ==>
            s.lastTop.value - MaxDelta(cfg.gap) as real <= p.top <= s.lastTop.value + MaxDelta(cfg.gap) as real)
      && r.(difficulty := s.difficulty, pipes := s.pipes, lastTop := s.lastTop) == s
  {
    var r := Spawned(s, initial, frac, view, slider);
    assert r.pipes[..|s.pipes|] == s.pipes;
  }

  lemma SpawnKeepsInv(s: State, initial: bool, frac: real, view: Viewport, slider: int)
    requires 0.0 <= frac < 1.0
    requires Inv(s)
    ensures Inv(Spawned(s, initial, frac, view, slider))
  {
  }

  // ---------------------------------------------------------------- endGame

  /** endGame(): stop, keep the better of best and score, burst 24 particles at the bird. */
  function Ended(s: State, jitter: seq<Jitter>): State
    requires |jitter| == BurstSize
  {
    s.(running := false,
       best := if s.score > s.best then s.score else s.best,
       particles := s.particles + Burst(s.bird.x, s.bird.y, jitter))
  }

  /** endGame() called `k` times in a row, as one update() frame may do. */
  function EndedTimes(s: State, k: nat, jitter: seq<Jitter>): State
    requires |jitter| == BurstSize
  {
    if k == 0 then s else Ended(EndedTimes(s, k - 1, jitter), jitter)
  }

  lemma {:induction false} BurstsAdd(x: real, y: real, jitter: seq<Jitter>, a: nat, b: nat)
    requires |jitter| == BurstSize
    ensures Bursts(x, y, jitter, a) + Bursts(x, y, jitter, b) == Bursts(x, y, jitter, a + b)
  {
    if b > 0 {
      BurstsAdd(x, y, jitter, a, b - 1);
      assert Bursts(x, y, jitter, a) + (Bursts(x, y, jitter, b - 1) + Burst(x, y, jitter))
          == (Bursts(x, y, jitter, a) + Bursts(x, y, jitter, b - 1)) + Burst(x, y, jitter);
    }
  }

  /** endGame has no running guard: each call appends another 24 particles, while the
      best score is max(best, score) after the first call and unchanged by the others. */
  lemma {:induction false} EndedTimesEffect(s: State, k: nat, jitter: seq<Jitter>)
    requires |jitter| == BurstSize
    ensures EndedTimes(s, k, jitter).particles == s.particles + Bursts(s.bird.x, s.bird.y, jitter, k)
    ensures EndedTimes(s, k, jitter).running == (s.running && k == 0)
    ensures EndedTimes(s, k, jitter).best == if k == 0 then s.best else MaxInt(s.best, s.score)
    ensures EndedTimes(s, k, jitter).(running := s.running, best := s.best, particles := s.particles) == s
  {
    if k > 0 {
      EndedTimesEffect(s, k - 1, jitter);
      var b := Bursts(s.bird.x, s.bird.y, jitter, k - 1);
      assert (s.particles + b) + Burst(s.bird.x, s.bird.y, jitter) == s.particles + (b + Burst(s.bird.x, s.bird.y, jitter));
    }
  }

  /** The best score never decreases, and after endGame it is at least the score. */
  lemma EndedBest(s: State, jitter: seq<Jitter>)
    requires |jitter| == BurstSize
    ensures Ended(s, jitter).best >= s.best && Ended(s, jitter).best >= s.score
    ensures Ended(s, jitter).best == s.best || Ended(s, jitter).best == s.score
    ensures |Ended(s, jitter).particles| == |s.particles| + BurstSize
  {
  }

  lemma EndedKeepsInv(s: State, jitter: seq<Jitter>)
    requires |jitter| == BurstSize
    requires Inv(s)
    ensures Inv(Ended(s, jitter))
  {
  }

  // ---------------------------------------------------------------- reset, flap, fitCanvas

  /** reset(): a fresh session, the bird recentred, one pipe spawned at once. */
  function Restarted(s: State, view: Viewport, slider: int, frac: real): State
    requires 0.0 <= frac < 1.0
  {
    var b := s.bird.(x := Max((view.width / 3.0).Floor as real, MinBirdX), y := view.height / 2.0, dy := 0.0);
    Spawned(s.(frames := 0, pipes := [], particles := [], score := 0, running := true, bird := b),
            true, frac, view, slider)
  }

  /** After reset the session is running with score and frame count zero, no particles,
      exactly one fresh pipe near the right edge, the bird at rest and at least a third of
      the width (and 140) from the left; the best score and the previous pipe's top carry over
      into the fairness clamp. */
  lemma ResetEffect(s: State, view: Viewport, slider: int, frac: real)
    requires 0.0 <= frac < 1.0
    ensures var r := Restarted(s, view, slider, frac);
      && r.running && r.score == 0 && r.frames == 0 && r.particles == []
      && |r.pipes| == 1 && !r.pipes[0].passed && r.lastTop == Some(r.pipes[0].top)
      && r.pipes[0].x == r.pipes[0].x.Floor as real
      && view.width - Max(SpawnOffset, view.width * 0.02) - 0.5 < r.pipes[0].x
      && r.pipes[0].x <= view.width - Max(SpawnOffset, view.width * 0.02) + 0.5
      && r.pipes[0].top == ChooseTop(frac, s.lastTop, GapStart, view.height)
      && r.bird.dy == 0.0 && r.bird.x >= MinBirdX && r.bird.x >= (view.width / 3.0).Floor as real
      && r.bird.y == view.height / 2.0 && r.bird.rotation == s.bird.rotation
      && r.best == s.best
  {
  }

  lemma ResetKeepsInv(s: State, view: Viewport, slider: int, frac: real)
    requires 0.0 <= frac < 1.0
    requires Inv(s)
    ensures Inv(Restarted(s, view, slider, frac))
  {
  }

  /** flap(): only while running, set the bird's velocity to the lift impulse. */
  function Flapped(s: State): State
  {
    if !s.running then s else s.(bird := s.bird.(dy := Lift))
  }

  lemma FlapKeepsInv(s: State)
    requires Inv(s)
    ensures Inv(Flapped(s))
  {
  }

  /** The Space, mouse and touch handlers: reset() when no session is running, then flap(). */
  function Pressed(s: State, view: Viewport, slider: int, frac: real): State
    requires 0.0 <= frac < 1.0
  {
    Flapped(if s.running then s else Restarted(s, view, slider, frac))
  }

  /** A press always leaves a running session with the bird rising at the lift speed: it
      restarts a stopped session first, and on a running one changes nothing but dy. */
  lemma PressStarts(s: State, view: Viewport, slider: int, frac: real)
    requires 0.0 <= frac < 1.0
    ensures var r := Pressed(s, view, slider, frac);
      && r.running && r.bird.dy == Lift
      && (s.running ==> r == s.(bird := s.bird.(dy := Lift)))
      && (!s.running ==> r.score == 0 && r.frames == 0 && |r.pipes| == 1 && r.particles == [])
  {
    if !s.running {
      ResetEffect(s, view, slider, frac);
    }
  }

  /** The bird-x clamp of fitCanvas(): at least a third of the width and at least 140. */
  function Fitted(b: BirdState, view: Viewport): (r: BirdState)
    ensures r.x >= b.x && r.x >= MinBirdX && r.x >= (view.width / 3.0).Floor as real
    ensures r.x == b.x || r.x == MinBirdX || r.x == (view.width / 3.0).Floor as real
    ensures r.(x := b.x) == b
  {
    var current := if b.x != 0.0 then b.x else MinBirdX;
    b.(x := Max(Max(current, (view.width / 3.0).Floor as real), MinBirdX))
  }

  // ---------------------------------------------------------------- one update() frame

  /** The config update() computes at the start of the frame. */
  function FrameConfig(s: State, slider: int): Config
  {
    ConfigFor(EffectiveDifficulty(slider), s.score)
  }

  /** frames++, the difficulty re-read, and the bird's gravity step. */
  function Ticked(s: State, slider: int): State
  {
    s.(frames := s.frames + 1, difficulty := EffectiveDifficulty(slider), bird := Fall(s.bird))
  }

  /** A pipe is spawned on frames that are a multiple of the spawn interval. */
  function Cadenced(s: State, view: Viewport, slider: int, frac: real): State
    requires 0.0 <= frac < 1.0
  {
    if s.frames % FrameConfig(s, slider).spawnInterval == 0 then Spawned(s, false, frac, view, slider) else s
  }

  /** Every pipe moves, scores at most once, and is culled off the left edge. */
  function Scrolled(s: State, speed: real): State
  {
    s.(pipes := AdvancePipes(s.pipes, speed, s.bird.x - BirdRadius),
       score := s.score + NewlyPassed(s.pipes, speed, s.bird.x - BirdRadius))
  }

  /** The pipes on screen in this frame, before they move. */
  function FramePipes(s: State, view: Viewport, slider: int, frac: real): seq<Pipe>
    requires 0.0 <= frac < 1.0
  {
    Cadenced(Ticked(s, slider), view, slider, frac).pipes
  }

  /** The state after moving the bird and the pipes and applying the ceiling clamp,
      just before the ground test. */
  function Landed(s: State, view: Viewport, slider: int, frac: real): State
    requires 0.0 <= frac < 1.0
  {
    var moved := Scrolled(Cadenced(Ticked(s, slider), view, slider, frac), FrameConfig(s, slider).speed);
    moved.(bird := Ceiling(moved.bird))
  }

  predicate GroundHit(b: BirdState, view: Viewport)
  {
    b.y + BirdRadius >= view.height - GroundHeight
  }

  /** A bird touching the ground is put to rest on it. */
  function Grounded(b: BirdState, view: Viewport): (r: BirdState)
    ensures r.(y := b.y) == b
    ensures GroundHit(b, view) ==> r.y + BirdRadius == view.height - GroundHeight && r.y <= b.y
    ensures !GroundHit(b, view) ==> r == b
  {
    if GroundHit(b, view) then b.(y := view.height - GroundHeight - BirdRadius) else b
  }

  /** How many times the frame calls endGame(): once for the ground, once per hit pipe. */
  function EndCalls(l: State, view: Viewport): (n: nat)
    ensures n <= 1 + |l.pipes|
  {
    (if GroundHit(l.bird, view) then 1 else 0) + Crashes(l.pipes, Grounded(l.bird, view))
  }

  /** update(): one simulation frame. endGame() changes neither the bird nor the pipes, so
      the ground call and the pipe calls all see the same bird and add up to EndCalls. */
  function Frame(s: State, view: Viewport, slider: int, frac: real, jitter: seq<Jitter>): State
    requires 0.0 <= frac < 1.0
    requires |jitter| == BurstSize
  {
    var l := Landed(s, view, slider, frac);
    var crashed := EndedTimes(l.(bird := Grounded(l.bird, view)), EndCalls(l, view), jitter);
    crashed.(particles := AdvanceParticles(crashed.particles))
  }

  /** Two runs of endGame() calls make one run. */
  lemma {:induction false} EndedTimesAdd(s: State, a: nat, b: nat, jitter: seq<Jitter>)
    requires |jitter| == BurstSize
    ensures EndedTimes(EndedTimes(s, a, jitter), b, jitter) == EndedTimes(s, a + b, jitter)
  {
    if b > 0 {
      EndedTimesAdd(s, a, b - 1, jitter);
    }
  }

  lemma LandedFacts(s: State, view: Viewport, slider: int, frac: real)
    requires 0.0 <= frac < 1.0
    ensures var l := Landed(s, view, slider, frac);
      var cfg := FrameConfig(s, slider);
      var ps := FramePipes(s, view, slider, frac);
      && l.frames == s.frames + 1 && l.difficulty == EffectiveDifficulty(slider)
      && l.pipes == AdvancePipes(ps, cfg.speed, s.bird.x - BirdRadius)
      && l.score == s.score + NewlyPassed(ps, cfg.speed, s.bird.x - BirdRadius)
      && l.bird == Ceiling(Fall(s.bird))
      && l.particles == s.particles && l.best == s.best && l.running == s.running
  {
  }

  /** The frame calls endGame() EndCalls times: it stops the session exactly when that is
      non-zero, then keeps max(best, score), and every call adds one burst of particles,
      all fed through the same particle step as the survivors of earlier frames. */
  lemma FrameEndings(s: State, view: Viewport, slider: int, frac: real, jitter: seq<Jitter>)
    requires 0.0 <= frac < 1.0
    requires |jitter| == BurstSize
    ensures var r := Frame(s, view, slider, frac, jitter);
      var l := Landed(s, view, slider, frac);
      var k := EndCalls(l, view);
      var b := Grounded(l.bird, view);
      && r.running == (s.running && k == 0)
      && r.best == (if k == 0 then s.best else MaxInt(s.best, l.score))
      && r.particles == AdvanceParticles(s.particles + Bursts(b.x, b.y, jitter, k))
      && r.bird == b
      && r.(running := l.running, best := l.best, particles := l.particles, bird := l.bird) == l
  {
    LandedFacts(s, view, slider, frac);
    var l := Landed(s, view, slider, frac);
    var g := l.(bird := Grounded(l.bird, view));
    EndedTimesEffect(g, EndCalls(l, view), jitter);
  }

  /** The frame counter rises by one, the score by the number of pipes newly scored this
      frame, and the pipe list is the moved pipes less the ones culled, in order. */
  lemma FrameBookkeeping(s: State, view: Viewport, slider: int, frac: real, jitter: seq<Jitter>)
    requires 0.0 <= frac < 1.0
    requires |jitter| == BurstSize
    ensures var r := Frame(s, view, slider, frac, jitter);
      var cfg := FrameConfig(s, slider);
      var ps := FramePipes(s, view, slider, frac);
      && r.frames == s.frames + 1 && r.difficulty == EffectiveDifficulty(slider)
      && r.pipes == AdvancePipes(ps, cfg.speed, s.bird.x - BirdRadius)
      && r.score == s.score + NewlyPassed(ps, cfg.speed, s.bird.x - BirdRadius)
  {
    LandedFacts(s, view, slider, frac);
    FrameEndings(s, view, slider, frac, jitter);
  }

  /** A pipe is spawned exactly on the frames whose number is a multiple of the spawn interval. */
  lemma FrameCadence(s: State, view: Viewport, slider: int, frac: real)
    requires 0.0 <= frac < 1.0
    ensures var ps := FramePipes(s, view, slider, frac);
      && ps[..|s.pipes|] == s.pipes
      && |ps| == |s.pipes| + (if (s.frames + 1) % FrameConfig(s, slider).spawnInterval == 0 then 1 else 0)
  {
    SpawnAppendsOne(Ticked(s, slider), false, frac, view, slider);
  }

  /** After a frame the bird falls no faster than MaxFall and its tilt is within
      [MinRotation, MaxRotation], whatever it was before. */
  lemma FrameBird(s: State, view: Viewport, slider: int, frac: real, jitter: seq<Jitter>)
    requires 0.0 <= frac < 1.0
    requires |jitter| == BurstSize
    ensures var r := Frame(s, view, slider, frac, jitter);
      r.bird.dy <= MaxFall && MinRotation <= r.bird.rotation <= MaxRotation && r.bird.x == s.bird.x
  {
    LandedFacts(s, view, slider, frac);
    FrameEndings(s, view, slider, frac, jitter);
  }

  /** The ceiling is a clamp, not a crash: a bird whose top reaches y = 0 after the gravity
      step is put back at y = radius with zero velocity, and on a viewport tall enough for
      the bird to clear the ground there, only a pipe hit can end the session. */
  lemma FrameCeiling(s: State, view: Viewport, slider: int, frac: real, jitter: seq<Jitter>)
    requires 0.0 <= frac < 1.0
    requires |jitter| == BurstSize
    requires Fall(s.bird).y - BirdRadius <= 0.0
    requires view.height - GroundHeight > 2.0 * BirdRadius
    ensures var r := Frame(s, view, slider, frac, jitter);
      var l := Landed(s, view, slider, frac);
      && r.bird.y == BirdRadius && r.bird.dy == 0.0
      && EndCalls(l, view) == Crashes(l.pipes, l.bird)
      && (Crashes(l.pipes, l.bird) == 0 ==> r.running == s.running && r.best == s.best)
  {
    LandedFacts(s, view, slider, frac);
    FrameEndings(s, view, slider, frac, jitter);
  }

  /** The size bounds every pipe gets from the config. */
  predicate Sized(p: Pipe)
  {
    p.width >= MinSize && GapMin <= p.gap <= GapStart
  }

  lemma CadencedSized(s: State, view: Viewport, slider: int, frac: real)
    requires 0.0 <= frac < 1.0
    requires forall p :: p in s.pipes ==> Sized(p)
    ensures forall p :: p in Cadenced(s, view, slider, frac).pipes ==> Sized(p)
  {
  }

  lemma AdvancePipesSized(ps: seq<Pipe>, speed: real, birdLeft: real)
    requires forall p :: p in ps ==> Sized(p)
    ensures forall p :: p in AdvancePipes(ps, speed, birdLeft) ==> Sized(p)
  {
    forall p | p in AdvancePipes(ps, speed, birdLeft)
      ensures Sized(p)
    {
      AdvancePipesSurvivors(ps, speed, birdLeft, p);
      var i :| 0 <= i < |ps| && p == MovePipe(ps[i], speed, birdLeft);
      assert ps[i] in ps;
    }
  }

  /** The pipe step and the ceiling clamp keep the invariant. */
  lemma ScrolledAndClampedKeepsInv(s: State, speed: real)
    requires Inv(s)
    ensures var m := Scrolled(s, speed); Inv(m.(bird := Ceiling(m.bird)))
  {
    AdvancePipesSized(s.pipes, speed, s.bird.x - BirdRadius);
  }

  lemma FramePipesInv(s: State, view: Viewport, slider: int, frac: real, jitter: seq<Jitter>)
    requires 0.0 <= frac < 1.0
    requires |jitter| == BurstSize
    requires forall p :: p in s.pipes ==> Sized(p)
    ensures forall p :: p in Frame(s, view, slider, frac, jitter).pipes ==> Sized(p)
  {
    var t := Ticked(s, slider);
    CadencedSized(t, view, slider, frac);
    AdvancePipesSized(FramePipes(s, view, slider, frac), FrameConfig(s, slider).speed, s.bird.x - BirdRadius);
    FrameBookkeeping(s, view, slider, frac, jitter);
  }

  lemma FrameParticlesInv(s: State, view: Viewport, slider: int, frac: real, jitter: seq<Jitter>)
    requires 0.0 <= frac < 1.0
    requires |jitter| == BurstSize
    requires forall q :: q in s.particles ==> 0 < q.life <= ParticleLife
    ensures forall q :: q in Frame(s, view, slider, frac, jitter).particles ==> 0 < q.life <= ParticleLife
  {
    FrameEndings(s, view, slider, frac, jitter);
    var l := Landed(s, view, slider, frac);
    var b := Grounded(l.bird, view);
    var burst := Bursts(b.x, b.y, jitter, EndCalls(l, view));
    assert forall q :: q in s.particles + burst ==> q.life <= ParticleLife;
    AdvanceParticlesLife(s.particles + burst);
  }

  /** The previous gap-top a frame leaves behind is still at least MinTop. */
  lemma FrameLastTopInv(s: State, view: Viewport, slider: int, frac: real, jitter: seq<Jitter>)
    requires 0.0 <= frac < 1.0
    requires |jitter| == BurstSize
    requires s.lastTop.Some? ==> s.lastTop.value >= MinTop
    ensures var r := Frame(s, view, slider, frac, jitter); r.lastTop.Some? ==> r.lastTop.value >= MinTop
  {
    FrameEndings(s, view, slider, frac, jitter);
    var t := Ticked(s, slider);
    assert Landed(s, view, slider, frac).lastTop == Cadenced(t, view, slider, frac).lastTop;
  }

  /** One frame keeps the session invariant. */
  lemma FrameKeepsInv(s: State, view: Viewport, slider: int, frac: real, jitter: seq<Jitter>)
    requires 0.0 <= frac < 1.0
    requires |jitter| == BurstSize
    requires Inv(s)
    ensures Inv(Frame(s, view, slider, frac, jitter))
  {
    FrameBird(s, view, slider, frac, jitter);
    FramePipesInv(s, view, slider, frac, jitter);
    FrameParticlesInv(s, view, slider, frac, jitter);
    FrameLastTopInv(s, view, slider, frac, jitter);
  }
}
