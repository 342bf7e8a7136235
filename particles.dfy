/** Particles and the masked-particle update (drawMaskedParticles without its
    drawing): advance, sample the mask, fade alpha with hysteresis, and move a
    fully transparent particle that left the canvas back to the left edge. */
module Particles {
  import opened Raster

  /** Alpha is a value on p5's 0..255 colour scale. */
  const AlphaCeiling: real := 255.0

  /** One soft disc of a particle pool; the sketch mutates x, y and alpha. */
  datatype Particle = Particle(
    x: real, y: real, r: real, speed: real, offset: real,
    alpha: real, fadeSpeed: real, fadeOutSpeed: real)

  /** What every particle of both pools satisfies after creation and after every update. */
  predicate Valid(p: Particle)
  {
    0.0 <= p.alpha <= AlphaCeiling && p.fadeSpeed >= 0.0 && p.fadeOutSpeed >= 0.0
    && p.speed > 0.0 && p.r >= 0.0
  }

  function Min(a: real, b: real): real { if a <= b then a else b }

  function Max(a: real, b: real): real { if a <= b then b else a }

  /** p5's random(lo, hi) returns a value between its bounds, in either order. */
  predicate Between(v: real, lo: real, hi: real)
  {
    Min(lo, hi) <= v <= Max(lo, hi)
  }

  /** The values the random calls of a particle factory returned; alpha is not drawn. */
  datatype ParticleDraw = ParticleDraw(
    x: real, y: real, r: real, speed: real, offset: real,
    fadeSpeed: real, fadeOutSpeed: real)

  /** The ranges makeParticle draws from for a text particle. */
  predicate TextParticleDraw(d: ParticleDraw, width: nat, height: nat)
  {
    Between(d.x, 0.0, width as real) && Between(d.y, 0.0, height as real)
    && Between(d.r, 2.0, height as real / 18.0) && Between(d.speed, 0.001, 0.9)
    && Between(d.fadeSpeed, 0.02, 1.0) && Between(d.fadeOutSpeed, 1.0, 4.0)
  }

  /** The ranges makeCloudParticle draws from for an ambient particle. */
  predicate CloudParticleDraw(d: ParticleDraw, width: nat, height: nat)
  {
    Between(d.x, 0.0, width as real) && Between(d.y, 0.0, height as real / 2.0)
    && Between(d.r, 1.0, height as real / 10.0) && Between(d.speed, 0.001, 1.0)
    && Between(d.fadeSpeed, 0.2, 0.9) && Between(d.fadeOutSpeed, 0.05, 1.0)
  }

  /** A text particle: fully transparent, placed on the canvas, and valid. */
  function MakeParticle(d: ParticleDraw, width: nat, height: nat): (p: Particle)
    requires TextParticleDraw(d, width, height)
    ensures p.alpha == 0.0 && Valid(p)
    ensures 0.0 <= p.x <= width as real && 0.0 <= p.y <= height as real
    ensures 0.02 <= p.fadeSpeed <= 1.0 && 1.0 <= p.fadeOutSpeed <= 4.0
  {
    Particle(d.x, d.y, d.r, d.speed, d.offset, 0.0, d.fadeSpeed, d.fadeOutSpeed)
  }

  /** An ambient particle: fully transparent, in the upper half of the canvas, and valid. */
  function MakeCloudParticle(d: ParticleDraw, width: nat, height: nat): (p: Particle)
    requires CloudParticleDraw(d, width, height)
    ensures p.alpha == 0.0 && Valid(p)
    ensures 0.0 <= p.x <= width as real && 0.0 <= p.y <= height as real / 2.0
    ensures 0.2 <= p.fadeSpeed <= 0.9 && 0.05 <= p.fadeOutSpeed <= 1.0
  {
    Particle(d.x, d.y, d.r, d.speed, d.offset, 0.0, d.fadeSpeed, d.fadeOutSpeed)
  }

  /** The hysteresis rule: rise by fadeSpeed inside the mask, capped at 255;
      fall by fadeOutSpeed outside, floored at 0. */
  function NextAlpha(alpha: real, fadeSpeed: real, fadeOutSpeed: real, inside: bool): (a: real)
    ensures inside ==> a <= AlphaCeiling
    ensures !inside ==> 0.0 <= a
    ensures 0.0 <= alpha <= AlphaCeiling && fadeSpeed >= 0.0 && fadeOutSpeed >= 0.0
      ==> 0.0 <= a <= AlphaCeiling
    ensures inside && alpha <= AlphaCeiling && fadeSpeed >= 0.0 ==> alpha <= a
    ensures !inside && alpha >= 0.0 && fadeOutSpeed >= 0.0 ==> a <= alpha
  {
    if inside then Min(AlphaCeiling, alpha + fadeSpeed) else Max(0.0, alpha - fadeOutSpeed)
  }

  /** Alpha after n consecutive updates inside the mask. */
  function FadeIn(alpha: real, fadeSpeed: real, n: nat): real
  {
    if n == 0 then alpha else NextAlpha(FadeIn(alpha, fadeSpeed, n - 1), fadeSpeed, 0.0, true)
  }

  /** Alpha after n consecutive updates outside the mask. */
  function FadeOut(alpha: real, fadeOutSpeed: real, n: nat): real
  {
    if n == 0 then alpha else NextAlpha(FadeOut(alpha, fadeOutSpeed, n - 1), 0.0, fadeOutSpeed, false)
  }

  /** n frames inside the mask add n fade steps, up to the ceiling. */
  lemma {:induction false} FadeInClosedForm(alpha: real, fadeSpeed: real, n: nat)
    requires 0.0 <= alpha <= AlphaCeiling && fadeSpeed >= 0.0
    ensures FadeIn(alpha, fadeSpeed, n) == Min(AlphaCeiling, alpha + n as real * fadeSpeed)
  {
    if n > 0 {
      FadeInClosedForm(alpha, fadeSpeed, n - 1);
    }
  }

  /** n frames outside the mask remove n fade-out steps, down to zero. */
  lemma {:induction false} FadeOutClosedForm(alpha: real, fadeOutSpeed: real, n: nat)
    requires 0.0 <= alpha <= AlphaCeiling && fadeOutSpeed >= 0.0
    ensures FadeOut(alpha, fadeOutSpeed, n) == Max(0.0, alpha - n as real * fadeOutSpeed)
  {
    if n > 0 {
      FadeOutClosedForm(alpha, fadeOutSpeed, n - 1);
      assert (n - 1) as real * fadeOutSpeed + fadeOutSpeed == n as real * fadeOutSpeed;
    }
  }

  /** The right-edge guard, read after the particle has moved and faded. */
  predicate Wraps(p: Particle, width: nat)
  {
    p.x - p.r > width as real && p.alpha == 0.0
  }

  /** Advance by speed, then fade against the mask sampled at the new column
      and the unchanged row. */
  function Advance(p: Particle, m: Mask): Particle
  {
    var x := p.x + p.speed;
    p.(x := x, alpha := NextAlpha(p.alpha, p.fadeSpeed, p.fadeOutSpeed, Sample(m, x, p.y)))
  }

  /** One particle's update in one call of drawMaskedParticles; respawnY is the
      value random(height) returns if the particle wraps. */
  function StepParticle(p: Particle, m: Mask, width: nat, respawnY: real): (q: Particle)
    ensures q.r == p.r && q.speed == p.speed && q.offset == p.offset
    ensures q.fadeSpeed == p.fadeSpeed && q.fadeOutSpeed == p.fadeOutSpeed
    ensures q.alpha == NextAlpha(p.alpha, p.fadeSpeed, p.fadeOutSpeed, Sample(m, p.x + p.speed, p.y))
    ensures p.x + p.speed - p.r > width as real && q.alpha == 0.0
      ==> q.x == -p.r && q.y == respawnY
    ensures q.x != p.x + p.speed || q.y != p.y
      ==> p.x + p.speed - p.r > width as real && q.alpha == 0.0 && q.x == -p.r && q.y == respawnY
    ensures Valid(p) ==> Valid(q) && !Wraps(q, width)
  {
    var a := Advance(p, m);
    if Wraps(a, width) then a.(x := -a.r, y := respawnY) else a
  }

  /** One call of drawMaskedParticles on a whole pool. */
  function StepPool(ps: seq<Particle>, m: Mask, width: nat, respawnY: seq<real>): (r: seq<Particle>)
    requires |respawnY| == |ps|
    ensures |r| == |ps|
    ensures AllValid(ps) ==> AllValid(r)
    ensures forall i :: 0 <= i < |ps| ==> r[i].y == ps[i].y || r[i].y == respawnY[i]
  {
    seq(|ps|, i requires 0 <= i < |ps| => StepParticle(ps[i], m, width, respawnY[i]))
  }

  /** Successive calls on the same pool, one per mask, in order; respawnY[k]
      holds the draws of the k-th call. */
  function StepPoolOverMasks(ps: seq<Particle>, masks: seq<Mask>, width: nat, respawnY: seq<seq<real>>): (r: seq<Particle>)
    requires |respawnY| == |masks|
    requires forall k :: 0 <= k < |respawnY| ==> |respawnY[k]| == |ps|
    ensures |r| == |ps|
    decreases |masks|
  {
    if |masks| == 0 then ps
    else
      var n := |masks| - 1;
      StepPool(StepPoolOverMasks(ps, masks[..n], width, respawnY[..n]), masks[n], width, respawnY[n])
  }

  predicate AllValid(ps: seq<Particle>)
  {
    forall i :: 0 <= i < |ps| ==> Valid(ps[i])
  }

  /** Every particle's row lies on the canvas, as both factories and
      random(height) place it. */
  predicate RowsWithin(ps: seq<Particle>, height: nat)
  {
    forall i :: 0 <= i < |ps| ==> 0.0 <= ps[i].y <= height as real
  }

  /** Every row drawn for a wrap lies on the canvas. */
  predicate DrawsWithin(ys: seq<real>, height: nat)
  {
    forall i :: 0 <= i < |ys| ==> 0.0 <= ys[i] <= height as real
  }

  /** Whatever the masks and however many calls, every alpha stays within
      [0, 255] and the pool keeps its length. */
  lemma {:induction false} StepPoolOverMasksValid(ps: seq<Particle>, masks: seq<Mask>, width: nat, respawnY: seq<seq<real>>)
    requires |respawnY| == |masks|
    requires forall k :: 0 <= k < |respawnY| ==> |respawnY[k]| == |ps|
    requires AllValid(ps)
    ensures AllValid(StepPoolOverMasks(ps, masks, width, respawnY))
    decreases |masks|
  {
    if |masks| > 0 {
      var n := |masks| - 1;
      StepPoolOverMasksValid(ps, masks[..n], width, respawnY[..n]);
    }
  }

  /** Whatever the masks and however many calls, every particle's row stays
      on the canvas when every drawn row does. */
  lemma {:induction false} StepPoolOverMasksRows(ps: seq<Particle>, masks: seq<Mask>, width: nat, height: nat, respawnY: seq<seq<real>>)
    requires |respawnY| == |masks|
    requires forall k :: 0 <= k < |respawnY| ==> |respawnY[k]| == |ps|
    requires RowsWithin(ps, height)
    requires forall k :: 0 <= k < |respawnY| ==> DrawsWithin(respawnY[k], height)
    ensures RowsWithin(StepPoolOverMasks(ps, masks, width, respawnY), height)
    decreases |masks|
  {
    if |masks| > 0 {
      var n := |masks| - 1;
      StepPoolOverMasksRows(ps, masks[..n], width, height, respawnY[..n]);
      assert DrawsWithin(respawnY[n], height);
    }
  }

  /** Two calls in a row on one pool equal, particle by particle, two steps. */
  lemma StepPoolOverTwoMasks(ps: seq<Particle>, m0: Mask, m1: Mask, width: nat, y0: seq<real>, y1: seq<real>, i: nat)
    requires |y0| == |ps| && |y1| == |ps| && i < |ps|
    ensures StepPoolOverMasks(ps, [m0, m1], width, [y0, y1])[i]
      == StepParticle(StepParticle(ps[i], m0, width, y0[i]), m1, width, y1[i])
  {
    var masks, ys := [m0, m1], [y0, y1];
    assert masks[..1] == [m0] && ys[..1] == [y0];
    assert [m0][..0] == [] && [y0][..0] == [];
    assert StepPoolOverMasks(ps, [], width, []) == ps;
    var first := StepPoolOverMasks(ps, [m0], width, [y0]);
    assert first == StepPool(StepPoolOverMasks(ps, [], width, []), m0, width, y0);
    assert StepPoolOverMasks(ps, masks, width, ys) == StepPool(first, m1, width, y1);
  }

  /** The sketch updates the ambient pool once per ambient cloud in every
      frame: with two clouds and no wrap, x advances by twice the speed and
      alpha is faded against the first mask and then the second. */
  lemma TwoCallsPerFrame(p: Particle, m0: Mask, m1: Mask, width: nat, y0: real, y1: real)
    requires !Wraps(Advance(p, m0), width)
    requires !Wraps(Advance(StepParticle(p, m0, width, y0), m1), width)
    ensures var q := StepParticle(StepParticle(p, m0, width, y0), m1, width, y1);
      q.x == p.x + 2.0 * p.speed && q.y == p.y
      && q.alpha == NextAlpha(
           NextAlpha(p.alpha, p.fadeSpeed, p.fadeOutSpeed, Sample(m0, p.x + p.speed, p.y)),
           p.fadeSpeed, p.fadeOutSpeed, Sample(m1, p.x + 2.0 * p.speed, p.y))
  {
  }

  /** A transparent ambient particle that lies inside the first cloud's mask
      but outside the second one's, and fades out at least as fast as it
      fades in, is still transparent after the frame's two updates. */
  lemma InsideOneCloudOnlyStaysHidden(p: Particle, m0: Mask, m1: Mask, width: nat, y0: real, y1: real)
    requires Valid(p) && p.alpha == 0.0 && p.fadeOutSpeed >= p.fadeSpeed
    requires Sample(m0, p.x + p.speed, p.y)
    requires !Wraps(Advance(p, m0), width)
    requires !Sample(m1, p.x + 2.0 * p.speed, p.y)
    ensures StepParticle(StepParticle(p, m0, width, y0), m1, width, y1).alpha == 0.0
  {
  }

  /** drawMaskedParticles without its drawing: every particle of the pool is
      updated in place, in order. */
  method DrawMaskedParticles(ps: array<Particle>, m: Mask, width: nat, respawnY: seq<real>)
    requires |respawnY| == ps.Length
    modifies ps
    ensures ps[..] == StepPool(old(ps[..]), m, width, respawnY)
  {
    for i := 0 to ps.Length
      invariant forall k :: 0 <= k < i ==> ps[k] == StepParticle(old(ps[k]), m, width, respawnY[k])
      invariant forall k :: i <= k < ps.Length ==> ps[k] == old(ps[k])
    {
      var p := ps[i];
      var x := p.x + p.speed;
      var px, py := Trunc(x), Trunc(p.y);
      var inMask := false;
      if 0 <= px < m.width && 0 <= py < m.height {
        PixelIndexInRange(m.width, m.height, px, py);
        var idx := 4 * (py * m.width + px);
        if m.pixels[idx] > Threshold {
          inMask := true;
        }
      }
      var alpha := if inMask then Min(AlphaCeiling, p.alpha + p.fadeSpeed)
                   else Max(0.0, p.alpha - p.fadeOutSpeed);
      var y := p.y;
      if x - p.r > width as real && alpha == 0.0 {
        x := -p.r;
        y := respawnY[i];
      }
      ps[i] := p.(x := x, y := y, alpha := alpha);
    }
  }
}
