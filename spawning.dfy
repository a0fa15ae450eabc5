/** The pipe-spawn policy: a random gap-top in the playable band, clamped so that it
    moves no further than a fairness bound from the previous pipe's gap-top. */
module Spawning {
  import opened Numbers
  import opened Difficulty
  import opened Entities

  /** The canvas's CSS size, as getBoundingClientRect() reports it. */
  datatype Viewport = Viewport(width: real, height: real)

  const MinTop: real := 60.0
  /** The strip above the ground and below the gap-top band that no gap may use. */
  const ReservedHeight: real := 140.0
  const MinSwing: int := 80
  const SpawnOffset: real := 20.0

  function PlayableHeight(height: real): (h: real)
    ensures h >= 0.0 && h >= height - ReservedHeight
    ensures h == 0.0 || h == height - ReservedHeight
  {
    Max(0.0, height - ReservedHeight)
  }

  /** The lowest gap-top that still leaves the whole gap inside the playable band. */
  function MaxTop(gap: int, height: real): (m: real)
    ensures m >= MinTop
    ensures m >= MinTop + PlayableHeight(height) - gap as real
    ensures PlayableHeight(height) >= gap as real ==> m + gap as real == MinTop + PlayableHeight(height)
    ensures m == MinTop || m == MinTop + PlayableHeight(height) - gap as real
  {
    Max(MinTop, MinTop + PlayableHeight(height) - gap as real)
  }

  /** max(80, floor(0.9 * gap)): how far a gap-top may move from the previous one. */
  function MaxDelta(gap: int): (d: int)
    ensures d >= MinSwing && d as real <= Max(MinSwing as real, gap as real * 0.9)
    ensures gap as real * 0.9 < d as real + 1.0
    ensures d == MinSwing || d as real <= gap as real * 0.9
  {
    MaxInt(MinSwing, (gap as real * 0.9).Floor)
  }

  /** The length of the band gap-tops are drawn from. */
  function Span(gap: int, height: real): (w: real)
    ensures w >= 0.0 && MinTop + w == MaxTop(gap, height)
  {
    Max(0.0, MaxTop(gap, height) - MinTop)
  }

  /** The uniform candidate MinTop + frac * span for a Math.random() draw `frac`. */
  function Candidate(frac: real, span: real): (c: real)
    requires 0.0 <= frac < 1.0 && span >= 0.0
    ensures MinTop <= c <= MinTop + span
  {
    ScaleWithin(frac, span);
    MinTop + frac * span
  }

  /** A fraction in [0, 1) of a non-negative length lies between 0 and that length. */
  lemma ScaleWithin(frac: real, w: real)
    requires 0.0 <= frac < 1.0 && w >= 0.0
    ensures 0.0 <= frac * w <= w
  {
    assert w - frac * w == (1.0 - frac) * w;
  }

  /** The lowest top the fair window allows: not above the band, not more than maxDelta above the previous top. */
  function AllowedMin(last: real, gap: int): (a: real)
    ensures a >= MinTop && a >= last - MaxDelta(gap) as real
    ensures a == MinTop || a == last - MaxDelta(gap) as real
  {
    Max(MinTop, last - MaxDelta(gap) as real)
  }

  /** The highest top the fair window allows: not below maxTop, not more than maxDelta below the previous top. */
  function AllowedMax(last: real, gap: int, height: real): (a: real)
    ensures a <= MaxTop(gap, height) && a <= last + MaxDelta(gap) as real
    ensures a == MaxTop(gap, height) || a == last + MaxDelta(gap) as real
  {
    Min(MaxTop(gap, height), last + MaxDelta(gap) as real)
  }

  /** The gap-top spawnPipe() settles on: the candidate, clamped into the fair window
      around the previous gap-top when there is one. */
  function ChooseTop(frac: real, last: Option<real>, gap: int, height: real): (top: real)
    requires 0.0 <= frac < 1.0
    ensures top <= MaxTop(gap, height)
    ensures last.None? ==> top == Candidate(frac, Span(gap, height))
    ensures var c := Candidate(frac, Span(gap, height));
      last.Some? && AllowedMin(last.value, gap) <= c <= AllowedMax(last.value, gap, height) ==> top == c
    ensures last.None? ==> MinTop <= top
    ensures last.Some? && last.value >= MinTop ==> MinTop <= top
    ensures last.Some? && AllowedMin(last.value, gap) <= AllowedMax(last.value, gap, height) ==>
              MinTop <= top
              && last.value - MaxDelta(gap) as real <= top <= last.value + MaxDelta(gap) as real
    ensures last.Some? && AllowedMin(last.value, gap) > AllowedMax(last.value, gap, height) ==>
              top == AllowedMax(last.value, gap, height)
    ensures var c := Candidate(frac, Span(gap, height));
      last.Some? && c < AllowedMin(last.value, gap) <= AllowedMax(last.value, gap, height) ==>
        top == AllowedMin(last.value, gap)
    ensures var c := Candidate(frac, Span(gap, height));
      last.Some? && c > AllowedMax(last.value, gap, height) ==> top == AllowedMax(last.value, gap, height)
  {
    var c := Candidate(frac, Span(gap, height));
    match last
    case None => c
    case Some(l) => Min(AllowedMax(l, gap, height), Max(AllowedMin(l, gap), c))
  }

  /** The fair window is empty exactly when the previous gap-top lies outside
      [MinTop - MaxDelta, MaxTop + MaxDelta]; only then does the clamp fall back to AllowedMax. */
  lemma FairWindowNonEmpty(last: real, gap: int, height: real)
    ensures AllowedMin(last, gap) <= AllowedMax(last, gap, height)
        <==> MinTop - MaxDelta(gap) as real <= last <= MaxTop(gap, height) + MaxDelta(gap) as real
  {
  }

  /** The fairness bound is not unconditional: lastPipeTop survives reset() and resizes, so
      after the viewport shrinks from under a gap-top of 1000 to a height of 600, a gap of 240
      allows at most 216 of movement, yet the next pipe lands at 280 whatever the draw. */
  lemma ShrunkViewportBreaksFairness(frac: real)
    requires 0.0 <= frac < 1.0
    ensures MaxDelta(240) == 216
    ensures ChooseTop(frac, Some(1000.0), 240, 600.0) == 280.0
    ensures 1000.0 - ChooseTop(frac, Some(1000.0), 240, 600.0) > MaxDelta(240) as real
  {
    assert (240 as real * 0.9).Floor == 216 by { assert 240 as real * 0.9 == 216.0; }
    assert MaxTop(240, 600.0) == 280.0;
    assert AllowedMin(1000.0, 240) > AllowedMax(1000.0, 240, 600.0);
  }

  /** The pipe spawnPipe() pushes: at the right edge less an offset (at least 20, and
      2% of the width for the first pipe of a session), unscored, with the config's size. */
  function NewPipe(initial: bool, top: real, cfg: Config, view: Viewport): (p: Pipe)
    ensures p.top == top && p.width == cfg.width && p.gap == cfg.gap && !p.passed && p.wobble == 0.0
    ensures p.x == p.x.Floor as real
    ensures !initial ==> view.width - SpawnOffset - 0.5 < p.x <= view.width - SpawnOffset + 0.5
    ensures initial ==> view.width - Max(SpawnOffset, view.width * 0.02) - 0.5 < p.x
                        <= view.width - Max(SpawnOffset, view.width * 0.02) + 0.5
  {
    var offset := if initial then Max(SpawnOffset, view.width * 0.02) else SpawnOffset;
    Pipe(Round(view.width - offset) as real, top, cfg.width, cfg.gap, false, 0.0)
  }
}
